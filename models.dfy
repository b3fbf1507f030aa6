/** The domain result models that repositories hand to the view models. */
module Models {

  /** One account of the user, as the account screen sees it. */
  datatype AccountResultModel = AccountResultModel(accountId: string, isAccountMain: bool, accountBalance: real)

  /** The outcome of one account fetch: a status code and the accounts in server order. */
  datatype AccountsResultModel = AccountsResultModel(accountStatusCode: int, accounts: seq<AccountResultModel>)

  /** The credentials a login request carries. */
  datatype LoginCredentials = LoginCredentials(id: string, password: string)

  /** The outcome of one login attempt. */
  datatype LoginResultModel = LoginResultModel(isLoginSuccessful: bool, loginStatusCode: int)

  /** The request a transfer sends: sender, recipient and amount. */
  datatype TransferRequestBody = TransferRequestBody(sender: string, recipient: string, amount: real)

  /** The outcome of one transfer attempt. */
  datatype TransferResultModel = TransferResultModel(isTransferSuccessful: bool, transferStatusCode: int)
}
