/** AccountRepository: one accounts call, normalised to a single AccountsResultModel. */
module AccountRepository {
  import opened Wrappers
  import opened Models
  import opened ApiResponse
  import opened Network

  /**
   * The four-case `when` over which of body and status code came back. The
   * accounts are those of the body, converted in order, or none without a body;
   * the status code is the server's when there is one, else sentinel 1 when
   * only a body came back, else sentinel 0. The fallback branch (sentinel 2)
   * cannot be reached.
   */
  function AccountsResult(body: Option<AccountsApiResponse>, code: Option<int>): (r: AccountsResultModel)
    ensures body.None? ==> r.accounts == []
    ensures body.Some? ==> |r.accounts| == |body.value.apiResponseBody|
    ensures body.Some? ==> forall i :: 0 <= i < |r.accounts| ==>
                             r.accounts[i] == AccountToDomain(body.value.apiResponseBody[i])
    ensures code.Some? ==> r.accountStatusCode == code.value
    ensures code.None? ==> r.accountStatusCode == (if body.Some? then 1 else 0)
  {
    if body.Some? && code.Some? then AccountsToDomainModel(body.value, code.value)
    else if body.None? && code.Some? then AccountsResultModel(code.value, [])
    else if body.Some? && code.None? then AccountsToDomainModel(body.value, 1)
    else if body.None? && code.None? then AccountsResultModel(0, [])
    else assert false; AccountsResultModel(2, [])
  }

  /** `fetchAccountData(userId)`: one call for this user; one result, or nothing when the call throws. */
  function FetchAccountData(client: string -> ApiCall<AccountsApiResponse>, userId: string): (s: Option<AccountsResultModel>)
    ensures s.None? <==> client(userId).Threw?
    ensures s.Some? ==> s.value == AccountsResult(client(userId).body, client(userId).code)
  {
    match client(userId)
    case Threw => None
    case Returned(body, code) => Some(AccountsResult(body, code))
  }
}
