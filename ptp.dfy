/**
 * The payment type profile (PTP) selector: `update_ptp_filter` narrows the
 * combo box to the profiles whose lower-cased name contains the stripped,
 * lower-cased filter text, and keeps the previous choice when it survives.
 */
module Ptp {
  import opened Text

  /** The filter text as `update_ptp_filter` uses it: `text.strip().lower()`. */
  function Needle(text: string): string {
    Lower(Strip(text))
  }

  /** `[ptp for ptp in ptp_list if text in ptp.lower()]`. */
  function Keep(list: seq<string>, needle: string): seq<string> {
    if list == [] then []
    else (if Contains(Lower(list[0]), needle) then [list[0]] else []) + Keep(list[1..], needle)
  }

  /** The items put into the combo box: all profiles for an empty needle, the matching ones otherwise. */
  function Filter(list: seq<string>, needle: string): seq<string> {
    if needle == "" then list else Keep(list, needle)
  }

  /** `a` is `b` with some elements left out, the rest in their order. */
  predicate Subsequence(a: seq<string>, b: seq<string>)
    decreases |b|
  {
    if a == [] then true
    else if b == [] then false
    else (a[0] == b[0] && Subsequence(a[1..], b[1..])) || Subsequence(a, b[1..])
  }

  /** A profile is offered exactly when it is in the list and its lower-cased name contains the needle. */
  lemma {:induction false} KeepMembers(list: seq<string>, needle: string, p: string)
    ensures p in Keep(list, needle) <==> p in list && Contains(Lower(p), needle)
  {
    if list != [] {
      KeepMembers(list[1..], needle, p);
      assert list == [list[0]] + list[1..];
    }
  }

  /** The offered profiles keep the order of the profile file. */
  lemma {:induction false} KeepOrdered(list: seq<string>, needle: string)
    ensures Subsequence(Keep(list, needle), list)
  {
    if list != [] {
      KeepOrdered(list[1..], needle);
      var rest := Keep(list[1..], needle);
      if Contains(Lower(list[0]), needle) {
        assert Keep(list, needle) == [list[0]] + rest;
        assert ([list[0]] + rest)[1..] == rest;
      } else {
        assert Keep(list, needle) == rest;
        SubsequenceSkip(rest, list);
      }
    }
  }

  /** A profile listed several times is offered as many times as it is listed, or not at all. */
  lemma {:induction false} KeepCount(list: seq<string>, needle: string, p: string)
    ensures multiset(Keep(list, needle))[p] == if Contains(Lower(p), needle) then multiset(list)[p] else 0
  {
    if list != [] {
      KeepCount(list[1..], needle, p);
      assert list == [list[0]] + list[1..];
      var head := if Contains(Lower(list[0]), needle) then [list[0]] else [];
      assert Keep(list, needle) == head + Keep(list[1..], needle);
      assert multiset(Keep(list, needle)) == multiset(head) + multiset(Keep(list[1..], needle));
      assert multiset(list) == multiset([list[0]]) + multiset(list[1..]);
    }
  }

  /** Dropping the head of the longer sequence keeps the relation when it already holds for the tail. */
  lemma {:induction false} SubsequenceSkip(a: seq<string>, b: seq<string>)
    requires b != [] && Subsequence(a, b[1..])
    ensures Subsequence(a, b)
  {
  }

  /** Every name contains the empty string, so the empty-needle branch only spares the scan. */
  lemma {:induction false} KeepEmptyNeedle(list: seq<string>)
    ensures Keep(list, "") == list
  {
    if list != [] {
      assert Contains(Lower(list[0]), "");
      KeepEmptyNeedle(list[1..]);
      assert list == [list[0]] + list[1..];
    }
  }

  /** Filtering is the comprehension whatever the needle. */
  lemma FilterIsKeep(list: seq<string>, needle: string)
    ensures Filter(list, needle) == Keep(list, needle)
  {
    if needle == "" {
      KeepEmptyNeedle(list);
    }
  }

  /** Filtering twice by the same needle changes nothing more. */
  lemma {:induction false} KeepIdempotent(list: seq<string>, needle: string)
    ensures Keep(Keep(list, needle), needle) == Keep(list, needle)
  {
    if list != [] {
      KeepIdempotent(list[1..], needle);
      var rest := Keep(list[1..], needle);
      if Contains(Lower(list[0]), needle) {
        assert Keep(list, needle) == [list[0]] + rest;
        assert ([list[0]] + rest)[1..] == rest;
        assert Keep([list[0]] + rest, needle) == [list[0]] + Keep(rest, needle);
      } else {
        assert [] + rest == rest;
        assert Keep(list, needle) == rest;
      }
    }
  }

  /**
   * The combo box index after refilling: the first item equal to the
   * previous text when there is one (`setCurrentText`), else the first item
   * (`setCurrentIndex(0)`), else none.
   */
  function Reselect(items: seq<string>, current: string): (r: int)
    ensures -1 <= r < |items|
    ensures current in items ==> 0 <= r && items[r] == current && current !in items[..r]
    ensures current !in items ==> r == (if items == [] then -1 else 0)
  {
    if items == [] then -1
    else if items[0] == current then 0
    else if current in items[1..] then
      assert items[1..][..Reselect(items[1..], current)] == items[1..Reselect(items[1..], current) + 1];
      1 + Reselect(items[1..], current)
    else
      assert current !in items by {
        assert items == [items[0]] + items[1..];
      }
      0
  }
}
