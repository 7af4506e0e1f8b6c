/**
 * Parsed JSON values as the source handles them after `json.loads`: Python
 * dicts keep their insertion order, so an object is an ordered sequence of
 * members. Floating-point numbers are not modelled.
 */
module Json {
  import opened Wrappers

  datatype Json =
    | JNull
    | JBool(b: bool)
    | JInt(i: int)
    | JStr(s: string)
    | JArr(items: seq<Json>)
    | JObj(members: seq<(string, Json)>)

  type Members = seq<(string, Json)>

  /** Python truthiness of a decoded value (`if value:`). */
  predicate Truthy(j: Json) {
    match j
    case JNull => false
    case JBool(b) => b
    case JInt(i) => i != 0
    case JStr(s) => s != ""
    case JArr(a) => a != []
    case JObj(m) => m != []
  }

  /** The keys of an object in iteration order. */
  function Keys(m: Members): (ks: seq<string>)
    ensures |ks| == |m|
    ensures forall i :: 0 <= i < |m| ==> ks[i] == m[i].0
  {
    if m == [] then [] else [m[0].0] + Keys(m[1..])
  }

  /** A Python dict never holds a key twice. */
  predicate UniqueKeys(m: Members) {
    forall i, j :: 0 <= i < j < |m| ==> m[i].0 != m[j].0
  }

  /** `d.get(k)`: the value stored under `k`, found at its first occurrence. */
  function Get(m: Members, k: string): (r: Option<Json>)
  {
    if m == [] then None
    else if m[0].0 == k then Some(m[0].1)
    else Get(m[1..], k)
  }

  /** A key that no member carries reads as missing. */
  lemma {:induction false} GetMissing(m: Members, k: string)
    requires k !in Keys(m)
    ensures Get(m, k) == None
  {
    if m != [] {
      assert Keys(m) == [m[0].0] + Keys(m[1..]);
      GetMissing(m[1..], k);
    }
  }

  /** The first member with key `k` is at position `i`. */
  lemma {:induction false} GetAt(m: Members, i: nat, k: string)
    requires i < |m| && m[i].0 == k
    requires forall j :: 0 <= j < i ==> m[j].0 != k
    ensures Get(m, k) == Some(m[i].1)
  {
    if i > 0 {
      assert m[0].0 != k;
      GetAt(m[1..], i - 1, k);
    }
  }

  /** In an object without repeated keys, each member is what its key reads. */
  lemma GetUnique(m: Members, i: nat)
    requires UniqueKeys(m) && i < |m|
    ensures Get(m, m[i].0) == Some(m[i].1)
  {
    GetAt(m, i, m[i].0);
  }

  /** `d[k] = v`: an existing key keeps its position, a new key goes last. */
  function Put(m: Members, k: string, v: Json): Members {
    if m == [] then [(k, v)]
    else if m[0].0 == k then [(k, v)] + m[1..]
    else [m[0]] + Put(m[1..], k, v)
  }

  /** `del d[k]`, removing every member with key `k`. */
  function Remove(m: Members, k: string): Members {
    if m == [] then []
    else if m[0].0 == k then Remove(m[1..], k)
    else [m[0]] + Remove(m[1..], k)
  }

  /** `d.update(ps)`: assigns the members of `ps` one after another. */
  function Update(m: Members, ps: Members): Members
    decreases |ps|
  {
    if ps == [] then m else Update(Put(m, ps[0].0, ps[0].1), ps[1..])
  }

  lemma {:induction false} GetPut(m: Members, k: string, v: Json, k': string)
    ensures Get(Put(m, k, v), k') == if k' == k then Some(v) else Get(m, k')
  {
    if m != [] && m[0].0 != k {
      GetPut(m[1..], k, v, k');
      assert Put(m, k, v)[1..] == Put(m[1..], k, v);
    }
  }

  lemma {:induction false} KeysPut(m: Members, k: string, v: Json)
    ensures Keys(Put(m, k, v)) == if k in Keys(m) then Keys(m) else Keys(m) + [k]
  {
    if m != [] && m[0].0 != k {
      KeysPut(m[1..], k, v);
      assert Put(m, k, v)[1..] == Put(m[1..], k, v);
      assert Keys(m) == [m[0].0] + Keys(m[1..]);
    }
  }

  lemma {:induction false} GetRemove(m: Members, k: string, k': string)
    ensures Get(Remove(m, k), k') == if k' == k then None else Get(m, k')
  {
    if m != [] {
      GetRemove(m[1..], k, k');
      if m[0].0 != k {
        assert Remove(m, k)[1..] == Remove(m[1..], k);
      }
    }
  }

  /** After `d.update(ps)` with distinct keys in `ps`, a key reads from `ps` if it is there and from `d` otherwise. */
  lemma {:induction false} GetUpdate(m: Members, ps: Members, k: string)
    requires UniqueKeys(ps)
    ensures Get(Update(m, ps), k) == if k in Keys(ps) then Get(ps, k) else Get(m, k)
    decreases |ps|
  {
    if ps != [] {
      assert UniqueKeys(ps[1..]) by {
        forall i, j | 0 <= i < j < |ps[1..]| ensures ps[1..][i].0 != ps[1..][j].0 {
          assert ps[1..][i] == ps[i + 1] && ps[1..][j] == ps[j + 1];
        }
      }
      GetUpdate(Put(m, ps[0].0, ps[0].1), ps[1..], k);
      GetPut(m, ps[0].0, ps[0].1, k);
      assert Keys(ps) == [ps[0].0] + Keys(ps[1..]);
      if k == ps[0].0 {
        assert k !in Keys(ps[1..]);
      }
    }
  }

  /** `d.update(ps)` keeps the keys of `d` where they were and only appends. */
  lemma {:induction false} KeysUpdate(m: Members, ps: Members)
    ensures Keys(m) <= Keys(Update(m, ps))
    ensures forall k :: k in Keys(Update(m, ps)) <==> k in Keys(m) || k in Keys(ps)
    decreases |ps|
  {
    if ps != [] {
      KeysPut(m, ps[0].0, ps[0].1);
      KeysUpdate(Put(m, ps[0].0, ps[0].1), ps[1..]);
      assert Keys(ps) == [ps[0].0] + Keys(ps[1..]);
    }
  }
}
