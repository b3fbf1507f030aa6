/** What one network call gives a repository. */
module Network {
  import opened Wrappers

  /**
   * A call either throws (no connectivity, a decoding error, ...) or returns a
   * response whose body and status code may each be missing.
   */
  datatype ApiCall<B> = Threw | Returned(body: Option<B>, code: Option<int>)
}
