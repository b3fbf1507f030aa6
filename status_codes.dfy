/**
 * The status-code ladder shared by the three view models: the messages for the
 * sentinel codes 0, 1 and 2 that repositories synthesise, and the range ladder
 * that every `when` falls through to once its feature-specific branches are passed.
 */
module StatusCodes {
  import opened Text

  const Prefix: string := "HTTP status code "
  /** Sentinel 0, "HTTP status code 0: no response from API": neither a body nor a status code came back. */
  const NoResponseMessage: string := SentinelMessage(0)
  /** Sentinel 1, "HTTP status code 1: API has not returned HTTP status code": a body came back without a status code. */
  const NoStatusMessage: string := SentinelMessage(1)
  /** Sentinel 2, "HTTP status code 2: unexpected error": the repositories' fallback branch. */
  const UnexpectedMessage: string := SentinelMessage(2)
  /** The `else` branch: no code, a negative code or one above 999. */
  const RetryMessage: string := "Unexpected Error. Please try again."

  /** `"HTTP status code $code: $name"`. */
  function CodeMessage(code: nat, name: string): string {
    Prefix + Decimal(code) + ": " + name
  }

  /** What each sentinel code reports after its number. */
  function SentinelName(code: int): string
    requires 0 <= code <= 2
  {
    if code == 0 then "no response from API"
    else if code == 1 then "API has not returned HTTP status code"
    else "unexpected error"
  }

  /** The message for a sentinel code. */
  function SentinelMessage(code: int): string
    requires 0 <= code <= 2
  {
    CodeMessage(code, SentinelName(code))
  }

  /**
   * Reference naming of a status code by its hundreds digit, as HTTP classes
   * are named (section 15 of RFC 9110): 1xx informational, 2xx successful,
   * 3xx redirection, 4xx client error, 5xx server error; anything else unknown.
   */
  function ClassLabel(hundreds: int): string {
    if hundreds == 1 then "Information Error"
    else if hundreds == 2 then "Success Error"
    else if hundreds == 3 then "Redirection Error"
    else if hundreds == 4 then "Client Error"
    else if hundreds == 5 then "Server Error"
    else "Unknown Error"
  }

  /**
   * The range ladder `in 3..99`, `in 100..199`, `in 201..299`, ..., `in 600..999`,
   * `else`. Every code from 3 to 999 other than 200 is reported with its own
   * number and the name of its HTTP class; every code outside 3..999 gets the
   * retry message.
   */
  function RangeMessage(code: int): (msg: string)
    ensures 3 <= code <= 999 && code != 200 ==> msg == CodeMessage(code, ClassLabel(code / 100))
    ensures !(3 <= code <= 999) ==> msg == RetryMessage
  {
    if 3 <= code <= 99 then CodeMessage(code, "Unknown Error")
    else if 100 <= code <= 199 then CodeMessage(code, "Information Error")
    else if 201 <= code <= 299 then CodeMessage(code, "Success Error")
    else if 300 <= code <= 399 then CodeMessage(code, "Redirection Error")
    else if 400 <= code <= 499 then CodeMessage(code, "Client Error")
    else if 500 <= code <= 599 then CodeMessage(code, "Server Error")
    else if 600 <= code <= 999 then CodeMessage(code, "Unknown Error")
    else RetryMessage
  }

  /** A code message is never the retry message (they differ in their first letter). */
  lemma CodeMessageIsNotRetry(code: nat, name: string)
    ensures CodeMessage(code, name) != RetryMessage
  {
    assert CodeMessage(code, name)[0] == 'H' != RetryMessage[0];
  }

  /** The code can be read back from a code message: different codes give different messages. */
  lemma CodeMessageIdentifiesCode(c1: nat, n1: string, c2: nat, n2: string)
    requires CodeMessage(c1, n1) == CodeMessage(c2, n2)
    ensures c1 == c2
  {
    var d1, d2 := Decimal(c1), Decimal(c2);
    assert CodeMessage(c1, n1) == Prefix + d1 + (": " + n1);
    assert CodeMessage(c2, n2) == Prefix + d2 + (": " + n2);
    DigitsBeforeSeparator(Prefix, d1, ": " + n1, d2, ": " + n2);
    DecimalInjective(c1, c2);
  }

  /** The range ladder reports distinct codes with distinct messages. */
  lemma RangeMessageIdentifiesCode(c1: int, c2: int)
    requires 3 <= c1 <= 999 && c1 != 200 && 3 <= c2 <= 999 && c2 != 200
    requires RangeMessage(c1) == RangeMessage(c2)
    ensures c1 == c2
  {
    CodeMessageIdentifiesCode(c1, ClassLabel(c1 / 100), c2, ClassLabel(c2 / 100));
  }
}
