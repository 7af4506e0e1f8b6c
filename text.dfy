/**
 * The few Python string operations the window relies on: `str.strip()`,
 * `str.lower()`, the substring test `needle in s`, `str.replace` of one
 * character, and `str(value)` of a decoded JSON value.
 */
module Text {
  import opened Json

  /** `c.isspace()` in Python: the whitespace characters `str.strip()` removes. */
  predicate IsSpace(c: char) {
    c == ' ' || ('\U{9}' <= c <= '\U{d}') || ('\U{1c}' <= c <= '\U{1f}') || c == '\U{85}' || c == '\U{a0}'
    || c == '\U{1680}' || ('\U{2000}' <= c <= '\U{200a}') || c == '\U{2028}' || c == '\U{2029}'
    || c == '\U{202f}' || c == '\U{205f}' || c == '\U{3000}'
  }

  predicate AllSpace(s: string) {
    forall i :: 0 <= i < |s| ==> IsSpace(s[i])
  }

  /** `s.lstrip()`. */
  function StripLeft(s: string): string {
    if s != [] && IsSpace(s[0]) then StripLeft(s[1..]) else s
  }

  /** `s.rstrip()`. */
  function StripRight(s: string): string {
    if s != [] && IsSpace(s[|s| - 1]) then StripRight(s[..|s| - 1]) else s
  }

  /** `s.strip()`: `s` without its leading and trailing whitespace. */
  function Strip(s: string): string {
    StripRight(StripLeft(s))
  }

  /** `lstrip` drops a whitespace prefix and stops at the first other character. */
  lemma {:induction false} StripLeftSpec(s: string)
    ensures var r := StripLeft(s);
            |r| <= |s| && r == s[|s| - |r|..] && AllSpace(s[..|s| - |r|]) && (r == [] || !IsSpace(r[0]))
  {
    if s != [] && IsSpace(s[0]) {
      StripLeftSpec(s[1..]);
      var r := StripLeft(s);
      assert s[..|s| - |r|] == [s[0]] + s[1..][..|s| - 1 - |r|];
    }
  }

  /** `rstrip` drops a whitespace suffix and stops at the last other character. */
  lemma {:induction false} StripRightSpec(s: string)
    ensures var r := StripRight(s);
            |r| <= |s| && r == s[..|r|] && AllSpace(s[|r|..]) && (r == [] || !IsSpace(r[|r| - 1]))
  {
    if s != [] && IsSpace(s[|s| - 1]) {
      StripRightSpec(s[..|s| - 1]);
      var r := StripRight(s);
      assert s[|r|..] == s[..|s| - 1][|r|..] + [s[|s| - 1]];
    }
  }

  /** The stripped text is a piece of `s` with only whitespace around it. */
  lemma StripTrims(s: string)
    ensures var r := Strip(s);
            exists i :: 0 <= i <= |s| - |r| && r == s[i..i + |r|] && AllSpace(s[..i]) && AllSpace(s[i + |r|..])
  {
    var l := StripLeft(s);
    var r := StripRight(l);
    StripLeftSpec(s);
    StripRightSpec(l);
    var i := |s| - |l|;
    assert r == s[i..i + |r|] by {
      assert l == s[i..];
      assert r == l[..|r|];
    }
    assert AllSpace(s[..i]);
    assert AllSpace(s[i + |r|..]) by {
      assert s[i + |r|..] == l[|r|..];
    }
  }

  /** The stripped text neither starts nor ends with whitespace. */
  lemma StripEnds(s: string)
    ensures var r := Strip(s);
            r == [] || (!IsSpace(r[0]) && !IsSpace(r[|r| - 1]))
  {
    var l := StripLeft(s);
    var r := StripRight(l);
    StripLeftSpec(s);
    StripRightSpec(l);
    if r != [] {
      assert r[0] == l[0];
    }
  }

  /** Stripping twice changes nothing more than stripping once. */
  lemma StripIdempotent(s: string)
    ensures Strip(Strip(s)) == Strip(s)
  {
    var r := Strip(s);
    StripEnds(s);
    if r != [] {
      assert StripLeft(r) == r;
      assert StripRight(r) == r;
    }
  }

  function LowerChar(c: char): char {
    if 'A' <= c <= 'Z' then (c as int + 32) as char else c
  }

  /** `s.lower()`, with the case mapping of the ASCII letters only. */
  function Lower(s: string): (r: string)
    ensures |r| == |s|
    ensures forall i :: 0 <= i < |s| ==> r[i] == LowerChar(s[i])
  {
    seq(|s|, i requires 0 <= i < |s| => LowerChar(s[i]))
  }

  /** `needle` sits in `s` starting at position `i`. */
  predicate OccursAt(s: string, needle: string, i: int) {
    0 <= i && i + |needle| <= |s| && s[i..i + |needle|] == needle
  }

  /** `needle in s` for strings: `needle` occurs in `s` as a contiguous piece. */
  function Contains(s: string, needle: string): bool {
    if needle <= s then true
    else if s == [] then false
    else Contains(s[1..], needle)
  }

  /** The recursive test agrees with the definition of a substring by position. */
  lemma ContainsIff(s: string, needle: string)
    ensures Contains(s, needle) <==> exists i :: OccursAt(s, needle, i)
  {
    if Contains(s, needle) {
      ContainsWitness(s, needle);
    }
    forall i | OccursAt(s, needle, i) ensures Contains(s, needle) {
      OccursContains(s, needle, i);
    }
  }

  lemma {:induction false} ContainsWitness(s: string, needle: string)
    requires Contains(s, needle)
    ensures exists i :: OccursAt(s, needle, i)
  {
    if needle <= s {
      assert OccursAt(s, needle, 0);
    } else {
      ContainsWitness(s[1..], needle);
      var i :| OccursAt(s[1..], needle, i);
      assert s[i + 1..i + 1 + |needle|] == s[1..][i..i + |needle|];
      assert OccursAt(s, needle, i + 1);
    }
  }

  lemma {:induction false} OccursContains(s: string, needle: string, i: int)
    requires OccursAt(s, needle, i)
    ensures Contains(s, needle)
    decreases i
  {
    if i == 0 {
      assert needle <= s;
    } else if !(needle <= s) {
      assert s[1..][i - 1..i - 1 + |needle|] == s[i..i + |needle|];
      OccursContains(s[1..], needle, i - 1);
    }
  }

  function DigitChar(d: nat): char
    requires d < 10
  {
    "0123456789"[d]
  }

  /** Decimal digits of a natural number, as `str(n)` prints them. */
  function NatToString(n: nat): (r: string)
    ensures r != []
    decreases n
  {
    if n < 10 then [DigitChar(n)] else NatToString(n / 10) + [DigitChar(n % 10)]
  }

  function IntToString(i: int): string {
    if i < 0 then "-" + NatToString(-i) else NatToString(i)
  }

  /** `repr` of a string: quoted, with backslash, quote and control escapes. */
  function ReprString(s: string): string {
    var q := if '\'' in s && '"' !in s then '"' else '\'';
    [q] + EscapeFor(s, q) + [q]
  }

  function EscapeFor(s: string, q: char): string {
    if s == [] then []
    else
      var c := s[0];
      var e := if c == '\\' then "\\\\"
               else if c == q then ['\\', q]
               else if c == '\n' then "\\n"
               else if c == '\r' then "\\r"
               else if c == '\t' then "\\t"
               else [c];
      e + EscapeFor(s[1..], q)
  }

  /** Python `str(v)` of a decoded JSON value (`repr` inside containers). */
  function Str(j: Json): string {
    match j
    case JStr(s) => s
    case _ => Repr(j)
  }

  function Repr(j: Json): string
    decreases j, 1
  {
    match j
    case JNull => "None"
    case JBool(b) => if b then "True" else "False"
    case JInt(i) => IntToString(i)
    case JStr(s) => ReprString(s)
    case JArr(a) => "[" + ReprItems(j, a) + "]"
    case JObj(m) => "{" + ReprMembers(j, m) + "}"
  }

  function ReprItems(ghost parent: Json, a: seq<Json>): string
    requires forall x :: x in a ==> x < parent
    decreases parent, 0, |a|
  {
    if a == [] then ""
    else
      assert a[0] in a;
      assert forall x :: x in a[1..] ==> x in a;
      Repr(a[0]) + (if |a| == 1 then "" else ", " + ReprItems(parent, a[1..]))
  }

  function ReprMembers(ghost parent: Json, m: Members): string
    requires forall k, v :: (k, v) in m ==> v < parent
    decreases parent, 0, |m|
  {
    if m == [] then ""
    else
      assert (m[0].0, m[0].1) in m;
      assert forall k, v :: (k, v) in m[1..] ==> (k, v) in m;
      ReprString(m[0].0) + ": " + Repr(m[0].1)
         + (if |m| == 1 then "" else ", " + ReprMembers(parent, m[1..]))
  }
}
