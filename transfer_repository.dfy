/** TransferRepository: one transfer call, normalised to a single TransferResultModel. */
module TransferRepository {
  import opened Wrappers
  import opened Models
  import opened ApiResponse
  import opened Network

  /**
   * The four-case `when` over which of body and status code came back. The
   * transfer succeeded only when a body says so; the status code is the
   * server's when there is one, else sentinel 1 when only a body came back,
   * else sentinel 0. The fallback branch (sentinel 2) cannot be reached.
   */
  function TransferResult(body: Option<TransferApiResponse>, code: Option<int>): (r: TransferResultModel)
    ensures r.isTransferSuccessful <==> body.Some? && body.value.apiResponseBody
    ensures code.Some? ==> r.transferStatusCode == code.value
    ensures code.None? ==> r.transferStatusCode == (if body.Some? then 1 else 0)
  {
    if body.Some? && code.Some? then TransferToDomainModel(body.value, code.value)
    else if body.None? && code.Some? then TransferResultModel(false, code.value)
    else if body.Some? && code.None? then TransferToDomainModel(body.value, 1)
    else if body.None? && code.None? then TransferResultModel(false, 0)
    else assert false; TransferResultModel(false, 2)
  }

  /**
   * `fetchTransferData(sender, recipient, amount)`: one call with exactly these
   * arguments; one result, or nothing when the call throws.
   */
  function FetchTransferData(client: (string, string, real) -> ApiCall<TransferApiResponse>,
                             sender: string, recipient: string, amount: real): (s: Option<TransferResultModel>)
    ensures s.None? <==> client(sender, recipient, amount).Threw?
    ensures s.Some? ==> var call := client(sender, recipient, amount);
                        s.value == TransferResult(call.body, call.code)
  {
    match client(sender, recipient, amount)
    case Threw => None
    case Returned(body, code) => Some(TransferResult(body, code))
  }
}
