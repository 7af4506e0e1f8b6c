/**
 * The status part of `_handle_api_response`: the HTTP status code picks one
 * of four labels shown under the status line.
 */
module Status {
  import opened Text

  datatype Outcome = Success | ClientError | ServerError | OtherStatus

  /** The `if`/`elif` chain on `resp.status_code`. */
  function Classify(code: int): (r: Outcome)
    ensures r == Success <==> 200 <= code < 300
    ensures r == ClientError <==> 400 <= code < 500
    ensures r == ServerError <==> 500 <= code
    ensures r == OtherStatus <==> code < 200 || 300 <= code < 400
  {
    if code >= 200 && code < 300 then Success
    else if code >= 400 && code < 500 then ClientError
    else if code >= 500 then ServerError
    else OtherStatus
  }

  /** The label line appended for each outcome. */
  function Label(o: Outcome): string {
    match o
    case Success => "\U{2705} Success\n"
    case ClientError => "\U{274c} Client Error\n"
    case ServerError => "\U{1f525} Server Error\n"
    case OtherStatus => "\U{26a0}\U{fe0f}  Other Status\n"
  }

  /** The start of the status text: `f"📊 Status: {resp.status_code} {resp.reason}\n"`. */
  function StatusLine(code: int, reason: string): string {
    "\U{1f4ca} Status: " + IntToString(code) + " " + reason + "\n"
  }

  /** The text appended to the response view for a status code and reason phrase. */
  function StatusText(code: int, reason: string): string {
    StatusLine(code, reason) + Label(Classify(code))
  }

  /** Different outcomes are labelled differently, so the label tells the class back. */
  lemma LabelInjective(a: Outcome, b: Outcome)
    ensures Label(a) == Label(b) ==> a == b
  {
    if a != b {
      assert Label(a)[0] != Label(b)[0] by {
        assert Label(a)[0] == LabelMark(a) && Label(b)[0] == LabelMark(b);
      }
    }
  }

  function LabelMark(o: Outcome): char {
    match o
    case Success => '\U{2705}'
    case ClientError => '\U{274c}'
    case ServerError => '\U{1f525}'
    case OtherStatus => '\U{26a0}'
  }

  /** The status text ends with exactly the label of the code's class. */
  lemma StatusTextLabel(code: int, reason: string)
    ensures var t := StatusText(code, reason);
            var l := Label(Classify(code));
            |l| <= |t| && t[|t| - |l|..] == l
  {
    var t := StatusText(code, reason);
    var l := Label(Classify(code));
    assert t == StatusLine(code, reason) + l;
    assert t[|t| - |l|..] == l;
  }
}
