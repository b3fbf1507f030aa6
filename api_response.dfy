/** Response bodies as the JSON adapter decodes them, and their conversion to domain models. */
module ApiResponse {
  import opened Models

  /** `{"id", "main", "balance"}`: one account in an accounts response. */
  datatype AccountApiResponse = AccountApiResponse(apiResponseId: string, apiResponseMain: bool, apiResponseBalance: real)

  /** `{"accounts": [...]}`. */
  datatype AccountsApiResponse = AccountsApiResponse(apiResponseBody: seq<AccountApiResponse>)

  /** `{"granted": bool}`. */
  datatype LoginApiResponse = LoginApiResponse(apiResponseBody: bool)

  /** `{"result": bool}`. */
  datatype TransferApiResponse = TransferApiResponse(apiResponseBody: bool)

  function AccountToDomain(a: AccountApiResponse): AccountResultModel {
    AccountResultModel(a.apiResponseId, a.apiResponseMain, a.apiResponseBalance)
  }

  /** The list `map { ... }` of the response: one domain account per response account, in order. */
  function AccountsToDomain(s: seq<AccountApiResponse>): (r: seq<AccountResultModel>)
    ensures |r| == |s|
    ensures forall i :: 0 <= i < |s| ==>
              r[i].accountId == s[i].apiResponseId &&
              r[i].isAccountMain == s[i].apiResponseMain &&
              r[i].accountBalance == s[i].apiResponseBalance
  {
    if s == [] then [] else [AccountToDomain(s[0])] + AccountsToDomain(s[1..])
  }

  /** `AccountsApiResponse.toDomainModel(code)`. */
  function AccountsToDomainModel(resp: AccountsApiResponse, statusCode: int): (r: AccountsResultModel)
    ensures r.accountStatusCode == statusCode
    ensures |r.accounts| == |resp.apiResponseBody|
    ensures forall i :: 0 <= i < |r.accounts| ==> r.accounts[i] == AccountToDomain(resp.apiResponseBody[i])
  {
    AccountsResultModel(statusCode, AccountsToDomain(resp.apiResponseBody))
  }

  /** The conversion drops nothing: the response is recovered field by field from the domain list. */
  function AccountToResponse(a: AccountResultModel): AccountApiResponse {
    AccountApiResponse(a.accountId, a.isAccountMain, a.accountBalance)
  }

  lemma AccountsToDomainRoundTrip(resp: AccountsApiResponse, statusCode: int)
    ensures var r := AccountsToDomainModel(resp, statusCode);
            seq(|r.accounts|, i requires 0 <= i < |r.accounts| => AccountToResponse(r.accounts[i])) == resp.apiResponseBody
  {
  }

  /** `LoginApiResponse.toDomainModel(code)`. */
  function LoginToDomainModel(resp: LoginApiResponse, statusCode: int): LoginResultModel
  {
    LoginResultModel(resp.apiResponseBody, statusCode)
  }

  /** `TransferApiResponse.toDomainModel(code)`. */
  function TransferToDomainModel(resp: TransferApiResponse, statusCode: int): TransferResultModel
  {
    TransferResultModel(resp.apiResponseBody, statusCode)
  }
}
