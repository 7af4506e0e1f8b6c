/**
 * `_build_curl_command`: the request body as compact JSON
 * (`json.dumps(payload, separators=(',', ':'))`), its single quotes escaped
 * for a single-quoted shell word, inside a multi-line cURL command.
 */
module Curl {
  import opened Wrappers
  import opened Json
  import opened Text

  // ----------------------------------------------------------------------
  // json.dumps with separators (',', ':') and the default ensure_ascii
  // ----------------------------------------------------------------------

  function HexDigit(d: nat): char
    requires d < 16
  {
    "0123456789abcdef"[d]
  }

  /** Four lower-case hex digits, as `'\\u{0:04x}'.format(n)` writes them. */
  function Hex4(n: nat): string
    requires n < 0x1_0000
  {
    [HexDigit(n / 0x1000), HexDigit(n / 0x100 % 16), HexDigit(n / 16 % 16), HexDigit(n % 16)]
  }

  /**
   * The ASCII-only escape of one character: the short escapes for quote,
   * backslash and five controls, the character itself when it is printable
   * ASCII, `\uXXXX` otherwise, and a surrogate pair above U+FFFF.
   */
  function EscapeJsonChar(c: char): string {
    if c == '"' then "\\\""
    else if c == '\\' then "\\\\"
    else if c == '\n' then "\\n"
    else if c == '\r' then "\\r"
    else if c == '\t' then "\\t"
    else if c == '\U{8}' then "\\b"
    else if c == '\U{c}' then "\\f"
    else if ' ' <= c <= '~' then [c]
    else if c as int < 0x1_0000 then UnicodeEscape(c as int)
    else SurrogatePair(c as int - 0x1_0000)
  }

  /** `\uXXXX`. */
  function UnicodeEscape(n: nat): string
    requires n < 0x1_0000
  {
    "\\u" + Hex4(n)
  }

  /** The UTF-16 surrogate pair of code point `0x10000 + v`, as two `\uXXXX` escapes. */
  function SurrogatePair(v: nat): string
    requires v < 0x10_0000
  {
    UnicodeEscape(0xD800 + v / 0x400) + UnicodeEscape(0xDC00 + v % 0x400)
  }

  function EscapeJson(s: string): string {
    if s == [] then [] else EscapeJsonChar(s[0]) + EscapeJson(s[1..])
  }

  /** A JSON string literal. */
  function DumpString(s: string): string {
    "\"" + EscapeJson(s) + "\""
  }

  /** `json.dumps(j, separators=(',', ':'))`. */
  function Dumps(j: Json): string
    decreases j, 1
  {
    match j
    case JNull => "null"
    case JBool(b) => if b then "true" else "false"
    case JInt(i) => IntToString(i)
    case JStr(s) => DumpString(s)
    case JArr(a) => "[" + DumpsItems(j, a) + "]"
    case JObj(m) => "{" + DumpsMembers(j, m) + "}"
  }

  function DumpsItems(ghost parent: Json, a: seq<Json>): string
    requires forall x :: x in a ==> x < parent
    decreases parent, 0, |a|
  {
    if a == [] then ""
    else
      assert a[0] in a;
      assert forall x :: x in a[1..] ==> x in a;
      Dumps(a[0]) + (if |a| == 1 then "" else "," + DumpsItems(parent, a[1..]))
  }

  function DumpsMembers(ghost parent: Json, m: Members): string
    requires forall k, v :: (k, v) in m ==> v < parent
    decreases parent, 0, |m|
  {
    if m == [] then ""
    else
      assert (m[0].0, m[0].1) in m;
      assert forall k, v :: (k, v) in m[1..] ==> (k, v) in m;
      DumpString(m[0].0) + ":" + Dumps(m[0].1)
        + (if |m| == 1 then "" else "," + DumpsMembers(parent, m[1..]))
  }

  /** Every character is printable ASCII (space to tilde): no line break, no control character. */
  predicate Printable(s: string) {
    forall i :: 0 <= i < |s| ==> ' ' <= s[i] <= '~'
  }

  lemma PrintableConcat(a: string, b: string)
    requires Printable(a) && Printable(b)
    ensures Printable(a + b)
  {
    forall i | 0 <= i < |a + b| ensures ' ' <= (a + b)[i] <= '~' {
      if i >= |a| {
        assert (a + b)[i] == b[i - |a|];
      }
    }
  }

  lemma HexDigitPrintable(d: nat)
    requires d < 16
    ensures ' ' <= HexDigit(d) <= '~'
  {
  }

  lemma Hex4Printable(n: nat)
    requires n < 0x1_0000
    ensures Printable(Hex4(n))
  {
    var a, b, c, d := n / 0x1000, n / 0x100 % 16, n / 16 % 16, n % 16;
    assert a < 16;
    HexDigitPrintable(a);
    HexDigitPrintable(b);
    HexDigitPrintable(c);
    HexDigitPrintable(d);
    assert Hex4(n) == [HexDigit(a), HexDigit(b), HexDigit(c), HexDigit(d)];
  }

  lemma EscapeJsonCharPrintable(c: char)
    ensures Printable(EscapeJsonChar(c))
  {
    if c == '"' || c == '\\' || c == '\n' || c == '\r' || c == '\t' || c == '\U{8}' || c == '\U{c}' {
      ShortEscapePrintable(c);
    } else if ' ' <= c <= '~' {
      assert EscapeJsonChar(c) == [c];
    } else {
      UnicodeEscapePrintable(c);
    }
  }

  lemma ShortEscapePrintable(c: char)
    requires c == '"' || c == '\\' || c == '\n' || c == '\r' || c == '\t' || c == '\U{8}' || c == '\U{c}'
    ensures Printable(EscapeJsonChar(c))
  {
    var e := EscapeJsonChar(c);
    assert |e| == 2 && e[0] == '\\' && ' ' <= e[1] <= '~';
  }

  lemma UnicodeEscapePrintable(c: char)
    requires !(' ' <= c <= '~') && c != '\n' && c != '\r' && c != '\t' && c != '\U{8}' && c != '\U{c}'
    ensures Printable(EscapeJsonChar(c))
  {
    if c as int < 0x1_0000 {
      UnicodeEscapeExact(c as int);
    } else {
      SurrogatePairPrintable(c as int - 0x1_0000);
    }
  }

  lemma SurrogatePairPrintable(v: nat)
    requires v < 0x10_0000
    ensures Printable(SurrogatePair(v))
  {
    var hi := v / 0x400;
    var lo := v % 0x400;
    assert hi < 0x400 && lo < 0x400;
    UnicodeEscapeExact(0xD800 + hi);
    UnicodeEscapeExact(0xDC00 + lo);
    PrintableConcat(UnicodeEscape(0xD800 + hi), UnicodeEscape(0xDC00 + lo));
  }

  lemma UnicodeEscapeExact(n: nat)
    requires n < 0x1_0000
    ensures Printable(UnicodeEscape(n))
  {
    Hex4Printable(n);
    PrintableConcat("\\u", Hex4(n));
  }

  lemma {:induction false} EscapeJsonPrintable(s: string)
    ensures Printable(EscapeJson(s))
  {
    if s != [] {
      EscapeJsonCharPrintable(s[0]);
      EscapeJsonPrintable(s[1..]);
      PrintableConcat(EscapeJsonChar(s[0]), EscapeJson(s[1..]));
    }
  }

  lemma {:induction false} NatToStringPrintable(n: nat)
    ensures Printable(NatToString(n))
    decreases n
  {
    if n >= 10 {
      NatToStringPrintable(n / 10);
      PrintableConcat(NatToString(n / 10), [DigitChar(n % 10)]);
    }
  }

  lemma DumpStringPrintable(s: string)
    ensures Printable(DumpString(s))
  {
    EscapeJsonPrintable(s);
    PrintableConcat("\"", EscapeJson(s));
    PrintableConcat("\"" + EscapeJson(s), "\"");
  }

  /** The compact dump is printable ASCII, so the `-d` argument stays on the command's last line. */
  lemma {:induction false} DumpsPrintable(j: Json)
    ensures Printable(Dumps(j))
    decreases j, 1
  {
    match j
    case JNull =>
    case JBool(b) =>
    case JInt(i) =>
      if i < 0 {
        NatToStringPrintable(-i);
        PrintableConcat("-", NatToString(-i));
      } else {
        NatToStringPrintable(i);
      }
    case JStr(s) => DumpStringPrintable(s);
    case JArr(a) =>
      DumpsItemsPrintable(j, a);
      PrintableConcat("[", DumpsItems(j, a));
      PrintableConcat("[" + DumpsItems(j, a), "]");
    case JObj(m) =>
      DumpsMembersPrintable(j, m);
      PrintableConcat("{", DumpsMembers(j, m));
      PrintableConcat("{" + DumpsMembers(j, m), "}");
  }

  lemma {:induction false} DumpsItemsPrintable(parent: Json, a: seq<Json>)
    requires forall x :: x in a ==> x < parent
    ensures Printable(DumpsItems(parent, a))
    decreases parent, 0, |a|
  {
    if a != [] {
      assert a[0] in a;
      assert forall x :: x in a[1..] ==> x in a;
      DumpsPrintable(a[0]);
      if |a| > 1 {
        DumpsItemsPrintable(parent, a[1..]);
        PrintableConcat(",", DumpsItems(parent, a[1..]));
        PrintableConcat(Dumps(a[0]), "," + DumpsItems(parent, a[1..]));
      }
    }
  }

  lemma {:induction false} DumpsMembersPrintable(parent: Json, m: Members)
    requires forall k, v :: (k, v) in m ==> v < parent
    ensures Printable(DumpsMembers(parent, m))
    decreases parent, 0, |m|
  {
    if m != [] {
      assert (m[0].0, m[0].1) in m;
      assert forall k, v :: (k, v) in m[1..] ==> (k, v) in m;
      DumpStringPrintable(m[0].0);
      DumpsPrintable(m[0].1);
      PrintableConcat(DumpString(m[0].0), ":");
      PrintableConcat(DumpString(m[0].0) + ":", Dumps(m[0].1));
      var head := DumpString(m[0].0) + ":" + Dumps(m[0].1);
      if |m| > 1 {
        DumpsMembersPrintable(parent, m[1..]);
        PrintableConcat(",", DumpsMembers(parent, m[1..]));
        PrintableConcat(head, "," + DumpsMembers(parent, m[1..]));
      }
    }
  }

  // ----------------------------------------------------------------------
  // Single-quote escaping and how a POSIX shell reads the result back
  // ----------------------------------------------------------------------

  /** `json_str.replace("'", "'\"'\"'")`: close the quote, emit a double-quoted `'`, reopen. */
  function EscapeSingleQuotes(s: string): string {
    if s == [] then []
    else (if s[0] == '\'' then "'\"'\"'" else [s[0]]) + EscapeSingleQuotes(s[1..])
  }

  lemma {:induction false} EscapeSingleQuotesConcat(a: string, b: string)
    ensures EscapeSingleQuotes(a + b) == EscapeSingleQuotes(a) + EscapeSingleQuotes(b)
  {
    if a != [] {
      assert (a + b)[1..] == a[1..] + b;
      EscapeSingleQuotesConcat(a[1..], b);
    } else {
      assert a + b == b;
    }
  }

  /** Text without a single quote is left alone. */
  lemma {:induction false} EscapeSingleQuotesPlain(s: string)
    requires '\'' !in s
    ensures EscapeSingleQuotes(s) == s
  {
    if s != [] {
      assert '\'' !in s[1..] by {
        forall i | 0 <= i < |s[1..]| ensures s[1..][i] != '\'' {
          assert s[1..][i] == s[i + 1];
        }
      }
      EscapeSingleQuotesPlain(s[1..]);
      assert s == [s[0]] + s[1..];
    }
  }

  /** Characters a POSIX shell treats specially outside quotes. */
  predicate ShellSpecial(c: char) {
    c in " \t\n|&;<>()$`\\*?[#~=%"
  }

  /** Characters that keep a special meaning inside double quotes. */
  predicate DoubleQuoteSpecial(c: char) {
    c == '$' || c == '`' || c == '\\'
  }

  /** Where the shell's reader is inside a word. */
  datatype Mode = Unquoted | InSingle | InDouble

  /** The shell's reader part-way through a word: its mode and the text read so far. */
  datatype Reader = Reading(mode: Mode, text: string) | Rejected

  /**
   * One character of a word: single quotes take everything literally up to
   * the closing quote, double quotes everything but `$`, backquote and
   * backslash, and outside quotes only characters without special meaning
   * are taken; anything else is rejected.
   */
  function Step(r: Reader, c: char): Reader {
    match r
    case Rejected => Rejected
    case Reading(m, t) =>
      match m
      case Unquoted =>
        if c == '\'' then Reading(InSingle, t)
        else if c == '"' then Reading(InDouble, t)
        else if ShellSpecial(c) then Rejected
        else Reading(Unquoted, t + [c])
      case InSingle =>
        if c == '\'' then Reading(Unquoted, t) else Reading(InSingle, t + [c])
      case InDouble =>
        if c == '"' then Reading(Unquoted, t)
        else if DoubleQuoteSpecial(c) then Rejected
        else Reading(InDouble, t + [c])
  }

  function Run(r: Reader, w: string): Reader
    decreases |w|
  {
    if w == [] then r else Run(Step(r, w[0]), w[1..])
  }

  /** The text a POSIX shell makes of one word; None when it is rejected or a quote is left open. */
  function Unquote(w: string): Option<string> {
    match Run(Reading(Unquoted, ""), w)
    case Reading(Unquoted, t) => Some(t)
    case _ => None
  }

  /** Reading two pieces in a row is reading their concatenation. */
  lemma {:induction false} RunConcat(r: Reader, a: string, b: string)
    ensures Run(r, a + b) == Run(Run(r, a), b)
    decreases |a|
  {
    if a == [] {
      assert a + b == b;
    } else {
      assert (a + b)[0] == a[0];
      assert (a + b)[1..] == a[1..] + b;
      RunConcat(Step(r, a[0]), a[1..], b);
    }
  }

  /** Inside single quotes, the escaped text reads as the original and leaves the quote open. */
  lemma {:induction false} RunEscaped(t: string, s: string)
    ensures Run(Reading(InSingle, t), EscapeSingleQuotes(s)) == Reading(InSingle, t + s)
    decreases |s|
  {
    if s == [] {
      assert t + s == t;
    } else {
      var e := if s[0] == '\'' then "'\"'\"'" else [s[0]];
      assert EscapeSingleQuotes(s) == e + EscapeSingleQuotes(s[1..]);
      RunConcat(Reading(InSingle, t), e, EscapeSingleQuotes(s[1..]));
      EscapedCharRead(t, s[0]);
      RunEscaped(t + [s[0]], s[1..]);
      assert t + [s[0]] + s[1..] == t + s;
    }
  }

  /** The escape of one character, read inside single quotes, adds just that character. */
  lemma EscapedCharRead(t: string, c: char)
    ensures Run(Reading(InSingle, t), if c == '\'' then "'\"'\"'" else [c]) == Reading(InSingle, t + [c])
  {
    if c == '\'' {
      QuoteEscapeRead(t);
    } else {
      assert [c][1..] == [];
    }
  }

  /** `'"'"'` inside single quotes: close, a double-quoted quote, reopen. */
  lemma QuoteEscapeRead(t: string)
    ensures Run(Reading(InSingle, t), "'\"'\"'") == Reading(InSingle, t + "'")
  {
    var w := "'\"'\"'";
    assert w[1..] == "\"'\"'" && w[1..][1..] == "'\"'" && w[1..][1..][1..] == "\"'";
    assert w[1..][1..][1..][1..] == "'" && w[1..][1..][1..][1..][1..] == "";
  }

  /** The round trip: escaping and single-quoting any text is undone exactly by the shell. */
  lemma QuotedRoundTrip(s: string)
    ensures Unquote("'" + EscapeSingleQuotes(s) + "'") == Some(s)
  {
    var start := Reading(Unquoted, "");
    RunConcat(start, "'" + EscapeSingleQuotes(s), "'");
    RunConcat(start, "'", EscapeSingleQuotes(s));
    assert Run(start, "'") == Reading(InSingle, "");
    RunEscaped("", s);
    assert "" + s == s;
    assert Run(Reading(InSingle, s), "'") == Reading(Unquoted, s);
  }

  // ----------------------------------------------------------------------
  // The command
  // ----------------------------------------------------------------------

  /** Everything before the single-quoted body: URL, content type, profile header and `-d `. */
  function CurlHead(url: string, ptp: string): string {
    "curl -X POST '" + url + "' \\\n"
      + "  -H 'Content-Type: application/json' \\\n"
      + "  -H 'X-EBANX-Custom-Payment-Type-Profile: " + ptp + "' \\\n"
      + "  -d "
  }

  /** `_build_curl_command(url, ptp, payload)`. */
  function CurlCommand(url: string, ptp: string, payload: Json): string {
    CurlHead(url, ptp) + "'" + EscapeSingleQuotes(Dumps(payload)) + "'"
  }

  /**
   * The last argument of the command reads back, under shell quoting, as the
   * compact JSON of the payload, and it holds no line break.
   */
  lemma CurlDataArgument(url: string, ptp: string, payload: Json)
    ensures var cmd := CurlCommand(url, ptp, payload);
            var head := CurlHead(url, ptp);
            && head <= cmd
            && Unquote(cmd[|head|..]) == Some(Dumps(payload))
            && '\n' !in cmd[|head|..]
  {
    var cmd := CurlCommand(url, ptp, payload);
    var head := CurlHead(url, ptp);
    var word := "'" + EscapeSingleQuotes(Dumps(payload)) + "'";
    assert cmd == head + word;
    assert cmd[|head|..] == word;
    QuotedRoundTrip(Dumps(payload));
    DumpsPrintable(payload);
    QuotedWordPrintable(Dumps(payload));
  }

  /** The quoted word of printable text is printable too, so it has no line break. */
  lemma QuotedWordPrintable(s: string)
    requires Printable(s)
    ensures var word := "'" + EscapeSingleQuotes(s) + "'";
            Printable(word) && '\n' !in word
  {
    EscapePreservesPrintable(s);
    PrintableConcat("'", EscapeSingleQuotes(s));
    PrintableConcat("'" + EscapeSingleQuotes(s), "'");
  }

  lemma {:induction false} EscapePreservesPrintable(s: string)
    requires Printable(s)
    ensures Printable(EscapeSingleQuotes(s))
  {
    if s != [] {
      assert Printable(s[1..]) by {
        forall i | 0 <= i < |s[1..]| ensures ' ' <= s[1..][i] <= '~' {
          assert s[1..][i] == s[i + 1];
        }
      }
      EscapePreservesPrintable(s[1..]);
      PrintableConcat(if s[0] == '\'' then "'\"'\"'" else [s[0]], EscapeSingleQuotes(s[1..]));
    }
  }
}
