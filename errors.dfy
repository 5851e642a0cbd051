/** The errors the outbox produces, and the text `err.Error()` gives for each. */
module Errors {

  /** An error value; `Wrapped` is `fmt.Errorf("<context>: %w", cause)`. */
  datatype Error =
    | Db(detail: string)                      // returned by the database driver
    | Gateway(detail: string)                 // returned by the chat gateway client
    | Json(detail: string)                    // returned by JSON serialization
    | UnsupportedDestination(destination: int)
    | Wrapped(context: string, cause: Error)

  const SaveFailed := "failed to save message"
  const SavedButNotSent := "message saved but failed to send"
  const StatusChangeFailed := "message sent success but change message status failed"
  const QQGroupSendFailed := "failed to send message to QQ group"
  const FindFailedMessagesFailed := "failed to find failed messages"
  const MarshalFailed := "marshal event to json"
  const SaveAndSendFailed := "failed to save and send message"

  predicate IsDigit(c: char)
  {
    '0' <= c <= '9'
  }

  /** The number a run of decimal digits denotes, read most significant digit first. */
  function DigitsValue(s: string): int
    requires forall i :: 0 <= i < |s| ==> IsDigit(s[i])
  {
    if s == [] then 0 else DigitsValue(s[..|s| - 1]) * 10 + (s[|s| - 1] as int - '0' as int)
  }

  /** Decimal text of an integer, as `%v` prints an int32: an optional "-" and then digits. */
  function DecimalText(n: int): (s: string)
    ensures |s| >= 1
    ensures n >= 0 ==> (forall i :: 0 <= i < |s| ==> IsDigit(s[i])) && DigitsValue(s) == n
    ensures n >= 0 ==> |s| == 1 || s[0] != '0'
    ensures n < 0 ==> s[0] == '-' && (forall i :: 1 <= i < |s| ==> IsDigit(s[i])) && DigitsValue(s[1..]) == -n
    ensures n < 0 ==> |s| >= 2 && (|s| == 2 || s[1] != '0')
  {
    if n < 0 then "-" + NaturalText(-n) else NaturalText(n)
  }

  /** The digits of `n`, without leading zeros. */
  function NaturalText(n: nat): (s: string)
    ensures |s| >= 1
    ensures forall i :: 0 <= i < |s| ==> IsDigit(s[i])
    ensures DigitsValue(s) == n
    ensures |s| == 1 || s[0] != '0'
  {
    var k := n % 10;
    var digit := ["0123456789"[k]];
    assert digit[0] as int - '0' as int == k by {
      assert "0123456789"[k] as int == '0' as int + k by {
        if k == 0 {} else if k == 1 {} else if k == 2 {} else if k == 3 {} else if k == 4 {}
        else if k == 5 {} else if k == 6 {} else if k == 7 {} else if k == 8 {} else {}
      }
    }
    if n < 10 then digit
    else
      var s := NaturalText(n / 10) + digit;
      assert s[..|s| - 1] == NaturalText(n / 10);
      s
  }

  /** The error that started a chain of wrappings. */
  function Root(e: Error): Error
  {
    match e
    case Wrapped(_, cause) => Root(cause)
    case _ => e
  }

  /** The message of an error that wraps nothing. */
  function LeafText(e: Error): string
  {
    match e
    case Db(d) => d
    case Gateway(d) => d
    case Json(d) => d
    case UnsupportedDestination(dest) => "unsupported destination type: " + DecimalText(dest)
    case Wrapped(_, _) => ""
  }

  /**
   * The message of an error: each wrapping adds its context in front, so the
   * message of the error that started the chain always ends the text.
   */
  function Text(e: Error): (s: string)
    ensures |LeafText(Root(e))| <= |s| && s[|s| - |LeafText(Root(e))|..] == LeafText(Root(e))
  {
    match e
    case Wrapped(c, cause) =>
      var rest := Text(cause);
      var s := c + ": " + rest;
      assert Root(e) == Root(cause);
      assert s[|s| - |rest|..] == rest;
      s
    case _ =>
      assert Root(e) == e;
      LeafText(e)
  }
}
