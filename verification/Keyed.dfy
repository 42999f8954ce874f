/**
 Sequences whose elements carry a key: the shape of every table in the server
 (allocations by 5-tuple, permissions by IP, bindings by port and by channel,
 nonces by 5-tuple). A sequence with distinct keys is a map written as a list.
 */
module Keyed {
  import opened Options

  /** The position of the first element with key `k`, or the length if there is none. */
  function IndexOf<T, K(==)>(key: T -> K, s: seq<T>, k: K): (i: nat)
    ensures i <= |s|
    ensures forall j :: 0 <= j < i ==> key(s[j]) != k
    ensures i < |s| ==> key(s[i]) == k
  {
    if s == [] then 0
    else if key(s[0]) == k then 0
    else 1 + IndexOf(key, s[1..], k)
  }

  predicate Has<T, K(==)>(key: T -> K, s: seq<T>, k: K) {
    IndexOf(key, s, k) < |s|
  }

  /** The first element with key `k`. */
  function Lookup<T, K(==)>(key: T -> K, s: seq<T>, k: K): (r: Option<T>)
    ensures r.Some? <==> Has(key, s, k)
    ensures r.Some? ==> r.value in s && key(r.value) == k
  {
    var i := IndexOf(key, s, k);
    if i < |s| then Some(s[i]) else None
  }

  ghost predicate Distinct<T, K>(key: T -> K, s: seq<T>) {
    forall i, j :: 0 <= i < j < |s| ==> key(s[i]) != key(s[j])
  }

  ghost function Keys<T, K>(key: T -> K, s: seq<T>): set<K> {
    set i | 0 <= i < |s| :: key(s[i])
  }

  /** The elements that satisfy `keep`, in order. */
  function Filter<T>(keep: T -> bool, s: seq<T>): (r: seq<T>)
    ensures |r| <= |s|
  {
    if s == [] then []
    else
      var init := Filter(keep, s[..|s| - 1]);
      if keep(s[|s| - 1]) then init + [s[|s| - 1]] else init
  }

  function Map<T, U>(f: T -> U, s: seq<T>): (r: seq<U>)
    ensures |r| == |s|
    ensures forall i :: 0 <= i < |s| ==> r[i] == f(s[i])
  {
    seq(|s|, i requires 0 <= i < |s| => f(s[i]))
  }

  lemma HasIff<T, K>(key: T -> K, s: seq<T>, k: K)
    ensures Has(key, s, k) <==> k in Keys(key, s)
    ensures Has(key, s, k) <==> exists x :: x in s && key(x) == k
  {
    if Has(key, s, k) {
      assert key(s[IndexOf(key, s, k)]) == k;
    }
  }

  /** With distinct keys the first match is the only match. */
  lemma OnlyIndex<T, K>(key: T -> K, s: seq<T>, i: nat)
    requires Distinct(key, s) && i < |s|
    ensures IndexOf(key, s, key(s[i])) == i
    ensures Lookup(key, s, key(s[i])) == Some(s[i])
  {
  }

  lemma LookupMember<T, K>(key: T -> K, s: seq<T>, x: T)
    requires Distinct(key, s) && x in s
    ensures Lookup(key, s, key(x)) == Some(x)
  {
    var i :| 0 <= i < |s| && s[i] == x;
    OnlyIndex(key, s, i);
  }

  lemma LookupAppend<T, K>(key: T -> K, s: seq<T>, x: T, k: K)
    requires Distinct(key, s) && !Has(key, s, key(x))
    ensures Distinct(key, s + [x])
    ensures Lookup(key, s + [x], k) == if k == key(x) then Some(x) else Lookup(key, s, k)
  {
    var r := s + [x];
    assert r[|s|] == x;
    assert forall i :: 0 <= i < |s| ==> r[i] == s[i];
    if k == key(x) {
      OnlyIndex(key, r, |s|);
    } else if Has(key, s, k) {
      OnlyIndex(key, r, IndexOf(key, s, k));
    }
  }

  lemma LookupUpdate<T, K>(key: T -> K, s: seq<T>, i: nat, x: T, k: K)
    requires Distinct(key, s) && i < |s| && key(x) == key(s[i])
    ensures Distinct(key, s[i := x])
    ensures Lookup(key, s[i := x], k) == if k == key(x) then Some(x) else Lookup(key, s, k)
  {
    var r := s[i := x];
    if k == key(x) {
      OnlyIndex(key, r, i);
    } else if Has(key, s, k) {
      OnlyIndex(key, r, IndexOf(key, s, k));
    }
  }

  lemma {:induction false} FilterMember<T>(keep: T -> bool, s: seq<T>, x: T)
    ensures x in Filter(keep, s) <==> x in s && keep(x)
  {
    if s != [] {
      FilterMember(keep, s[..|s| - 1], x);
      assert s == s[..|s| - 1] + [s[|s| - 1]];
    }
  }

  lemma {:induction false} FilterAppend<T>(keep: T -> bool, s: seq<T>, x: T)
    ensures Filter(keep, s + [x]) == Filter(keep, s) + (if keep(x) then [x] else [])
  {
    assert (s + [x])[..|s + [x]| - 1] == s;
  }

  lemma {:induction false} FilterNone<T>(keep: T -> bool, s: seq<T>)
    requires forall x :: x in s ==> !keep(x)
    ensures Filter(keep, s) == []
  {
    if s != [] {
      FilterNone(keep, s[..|s| - 1]);
    }
  }

  lemma {:induction false} FilterAll<T>(keep: T -> bool, s: seq<T>)
    requires forall x :: x in s ==> keep(x)
    ensures Filter(keep, s) == s
  {
    if s != [] {
      FilterAll(keep, s[..|s| - 1]);
    }
  }

  lemma {:induction false} FilterMapAppend<T, U>(keep: U -> bool, f: T -> U, s: seq<T>, x: T)
    ensures Filter(keep, Map(f, s + [x])) == Filter(keep, Map(f, s)) + (if keep(f(x)) then [f(x)] else [])
  {
    assert Map(f, s + [x]) == Map(f, s) + [f(x)];
    FilterAppend(keep, Map(f, s), f(x));
  }

  lemma {:induction false} FilterDistinct<T, K>(key: T -> K, keep: T -> bool, s: seq<T>)
    requires Distinct(key, s)
    ensures Distinct(key, Filter(keep, s))
  {
    if s == [] {
    } else {
      var init, last := s[..|s| - 1], s[|s| - 1];
      FilterDistinct(key, keep, init);
      forall x | x in Filter(keep, init) ensures key(x) != key(last) { FilterMember(keep, init, x); }
    }
  }

  lemma LookupFilter<T, K>(key: T -> K, keep: T -> bool, s: seq<T>, k: K)
    requires Distinct(key, s)
    ensures Distinct(key, Filter(keep, s))
    ensures Lookup(key, Filter(keep, s), k)
         == if Has(key, s, k) && keep(Lookup(key, s, k).value) then Lookup(key, s, k) else None
  {
    FilterDistinct(key, keep, s);
    var f := Filter(keep, s);
    if Has(key, f, k) {
      FilterMember(keep, s, Lookup(key, f, k).value);
      LookupMember(key, s, Lookup(key, f, k).value);
    }
    if Has(key, s, k) && keep(Lookup(key, s, k).value) {
      FilterMember(keep, s, Lookup(key, s, k).value);
      LookupMember(key, f, Lookup(key, s, k).value);
    }
  }

  /** Changing elements but no key. */
  lemma LookupMap<T, K>(key: T -> K, f: T -> T, s: seq<T>, k: K)
    requires Distinct(key, s)
    requires forall i :: 0 <= i < |s| ==> key(f(s[i])) == key(s[i])
    ensures Distinct(key, Map(f, s))
    ensures Lookup(key, Map(f, s), k)
         == if Has(key, s, k) then Some(f(Lookup(key, s, k).value)) else None
  {
    var r := Map(f, s);
    if Has(key, s, k) {
      OnlyIndex(key, r, IndexOf(key, s, k));
    }
  }

  /** A keyed sequence has as many elements as keys. */
  lemma {:induction false} CountKeys<T, K>(key: T -> K, s: seq<T>)
    requires Distinct(key, s)
    ensures |Keys(key, s)| == |s|
  {
    if s != [] {
      var init, last := s[..|s| - 1], s[|s| - 1];
      CountKeys(key, init);
      assert Keys(key, s) == Keys(key, init) + {key(last)} by {
        assert s == init + [last];
        assert key(s[|s| - 1]) == key(last);
        forall i | 0 <= i < |init| ensures key(init[i]) in Keys(key, s) { assert s[i] == init[i]; }
      }
      HasIff(key, init, key(last));
    }
  }
}
