/** Small shared vocabulary: an optional value, absolute value and minimum on
    the numbers the programs use, and Python's insertion-ordered dictionary
    modelled as a sequence of (key, value) pairs. */
module Support {

  datatype Option<T> = None | Some(value: T)

  function Abs(x: real): (r: real)
    ensures r >= 0.0
    ensures r == x || r == -x
  {
    if x < 0.0 then -x else x
  }

  function Min(a: int, b: int): (r: int)
    ensures r <= a && r <= b
    ensures r == a || r == b
  {
    if a <= b then a else b
  }

  /** No key occurs twice: what a Python dict guarantees. */
  predicate Distinct(s: seq<string>)
  {
    forall i, j :: 0 <= i < j < |s| ==> s[i] != s[j]
  }

  predicate DistinctKeys<V>(d: seq<(string, V)>)
  {
    forall i, j :: 0 <= i < j < |d| ==> d[i].0 != d[j].0
  }

  /** `d.get(k)`: the value stored under `k`, or None. */
  function Lookup<V>(d: seq<(string, V)>, k: string): (r: Option<V>)
    ensures r.None? <==> forall i :: 0 <= i < |d| ==> d[i].0 != k
    ensures r.Some? ==> exists i :: 0 <= i < |d| && d[i] == (k, r.value)
  {
    if d == [] then None
    else if d[0].0 == k then Some(d[0].1)
    else Lookup(d[1..], k)
  }

  /** Dropping the last key of a duplicate-free order leaves a duplicate-free
      order that does not contain it. */
  lemma DistinctInit(s: seq<string>)
    requires Distinct(s) && s != []
    ensures Distinct(s[..|s| - 1])
    ensures s[|s| - 1] !in s[..|s| - 1]
  {
    var init := s[..|s| - 1];
    forall i | 0 <= i < |init|
      ensures init[i] != s[|s| - 1]
    {
      assert init[i] == s[i];
    }
  }

  /** Removing a key from the key order, as `del d[k]` does. */
  function RemoveKey(s: seq<string>, x: string): (r: seq<string>)
    ensures forall y :: y in r <==> y in s && y != x
    ensures Distinct(s) ==> Distinct(r)
    ensures x !in s ==> r == s
  {
    if s == [] then []
    else
      var init, last := s[..|s| - 1], s[|s| - 1];
      assert Distinct(s) ==> Distinct(init) && last !in init by {
        if Distinct(s) {
          DistinctInit(s);
        }
      }
      if last == x then RemoveKey(init, x) else RemoveKey(init, x) + [last]
  }

  /** `del d[k]` keeps the other keys in their order: removing the key at
      position k of a duplicate-free order closes the gap it leaves. */
  lemma {:induction false} RemoveKeyOrder(s: seq<string>, x: string, k: nat)
    requires Distinct(s) && k < |s| && s[k] == x
    ensures RemoveKey(s, x) == s[..k] + s[k + 1..]
  {
    var n := |s| - 1;
    var init, last := s[..n], s[n];
    DistinctInit(s);
    if k == n {
      assert RemoveKey(init, x) == init;
      assert s[k + 1..] == [];
    } else {
      assert last != x;
      assert init[k] == x;
      RemoveKeyOrder(init, x, k);
      assert init[..k] == s[..k];
      assert init[k + 1..] + [last] == s[k + 1..];
    }
  }

  /** The values present in a sequence of options, in order. */
  function Somes<T>(s: seq<Option<T>>): seq<T>
  {
    if s == [] then []
    else
      var n := |s| - 1;
      Somes(s[..n]) + (if s[n].Some? then [s[n].value] else [])
  }

  lemma SomesSnoc<T>(s: seq<Option<T>>, x: Option<T>)
    ensures Somes(s + [x]) == Somes(s) + (if x.Some? then [x.value] else [])
  {
    assert (s + [x])[..|s|] == s;
  }

  /** A value is kept exactly when some position holds it. */
  lemma {:induction false} SomesExactly<T>(s: seq<Option<T>>, v: T)
    ensures v in Somes(s) <==> exists i :: 0 <= i < |s| && s[i] == Some(v)
  {
    if s != [] {
      var n := |s| - 1;
      var init := s[..n];
      SomesExactly(init, v);
      assert s == init + [s[n]];
      if v in Somes(s) {
        if s[n] != Some(v) {
          var i :| 0 <= i < |init| && init[i] == Some(v);
          assert s[i] == init[i];
        }
      } else {
        forall i | 0 <= i < |s|
          ensures s[i] != Some(v)
        {
          if i < n {
            assert s[i] == init[i];
          }
        }
      }
    }
  }
}
