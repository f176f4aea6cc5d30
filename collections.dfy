/** Sequence helpers standing in for Python's list and set built-ins. */
module Collections {
  import opened Common

  predicate NoDup<T(==)>(s: seq<T>) {
    forall i, j :: 0 <= i < j < |s| ==> s[i] != s[j]
  }

  /** `list(set(s))`: every element once, in order of first occurrence
      (Python's own order is the hash order, which nothing here depends on). */
  function Dedup(s: seq<string>): (r: seq<string>)
    ensures NoDup(r)
    ensures forall x :: x in r <==> x in s
    ensures |r| <= |s|
  {
    if s == [] then []
    else
      var init := s[..|s| - 1];
      var last := s[|s| - 1];
      assert s == init + [last];
      var prev := Dedup(init);
      if last in prev then prev else prev + [last]
  }

  /** `s.index(x)`: the first position of `x`, or None where Python raises
      ValueError. */
  function IndexOf<T(==)>(s: seq<T>, x: T): (r: Option<nat>)
    ensures r.Some? ==> r.value < |s| && s[r.value] == x && x !in s[..r.value]
    ensures r.None? <==> x !in s
  {
    if s == [] then None
    else if s[0] == x then Some(0)
    else
      match IndexOf(s[1..], x)
      case None => None
      case Some(k) =>
        assert s[..k + 1] == [s[0]] + s[1..][..k];
        Some(k + 1)
  }

  /** The keys of an association list. */
  function Keys<K, V>(table: seq<(K, V)>): (r: seq<K>)
    ensures |r| == |table| && forall i :: 0 <= i < |table| ==> r[i] == table[i].0
  {
    seq(|table|, i requires 0 <= i < |table| => table[i].0)
  }

  /** `d.get(k)` on a dictionary literal written as (key, value) pairs: the
      value of the first pair with key `k`, or None. */
  function Find<K(==), V>(table: seq<(K, V)>, k: K): (r: Option<V>)
    ensures r.None? <==> k !in Keys(table)
    ensures r.Some? ==> exists i :: 0 <= i < |table| && table[i].0 == k && table[i].1 == r.value
  {
    if table == [] then None
    else if table[0].0 == k then Some(table[0].1)
    else
      assert Keys(table) == [table[0].0] + Keys(table[1..]);
      var r := Find(table[1..], k);
      assert r.Some? ==> exists i :: 0 <= i < |table[1..]| && table[1..][i].0 == k && table[1..][i].1 == r.value;
      r
  }

  /** With distinct keys, a key finds exactly its own pair's value. */
  lemma {:induction false} FindDistinct<K, V>(table: seq<(K, V)>, i: nat)
    requires NoDup(Keys(table))
    requires i < |table|
    ensures Find(table, table[i].0) == Some(table[i].1)
  {
    if i > 0 {
      assert Keys(table)[0] != Keys(table)[i];
      var tail := table[1..];
      assert NoDup(Keys(tail)) by {
        forall a, b | 0 <= a < b < |tail| ensures Keys(tail)[a] != Keys(tail)[b] {
          assert Keys(table)[a + 1] != Keys(table)[b + 1];
        }
      }
      FindDistinct(tail, i - 1);
    }
  }

  /** A key finds the first pair that carries it. */
  lemma {:induction false} FindFirst<K, V>(table: seq<(K, V)>, i: nat, k: K)
    requires i < |table| && table[i].0 == k
    requires forall j :: 0 <= j < i ==> table[j].0 != k
    ensures Find(table, k) == Some(table[i].1)
  {
    if i > 0 {
      FindFirst(table[1..], i - 1, k);
    }
  }

  /** `a` is `b` with some elements left out, the rest kept in order. */
  predicate IsSubsequence<T(==)>(a: seq<T>, b: seq<T>)
    decreases |b|
  {
    if a == [] then true
    else if b == [] then false
    else
      (a[|a| - 1] == b[|b| - 1] && IsSubsequence(a[..|a| - 1], b[..|b| - 1]))
      || IsSubsequence(a, b[..|b| - 1])
  }

  lemma SubsequenceSnoc<T>(a: seq<T>, b: seq<T>)
    requires b != [] && IsSubsequence(a, b[..|b| - 1])
    ensures IsSubsequence(a, b)
    ensures IsSubsequence(a + [b[|b| - 1]], b)
  {
    assert (a + [b[|b| - 1]])[..|a|] == a;
  }

  /** The elements of a sequence, as a set, are no more than its length. */
  lemma {:induction false} CardOfElements<T>(s: seq<T>)
    ensures |set x | x in s| <= |s|
  {
    if s != [] {
      CardOfElements(s[1..]);
      assert (set x | x in s) == {s[0]} + (set x | x in s[1..]);
    }
  }

  lemma SubsetCard<T>(a: set<T>, b: set<T>)
    requires a <= b
    ensures |a| <= |b|
  {
    assert b == a + (b - a);
  }

  /** The values of the `Some` entries, in order: the list a loop builds by
      appending whatever each pass produced and skipping failed passes. */
  function Somes<T>(os: seq<Option<T>>): seq<T> {
    if os == [] then []
    else
      var last := os[|os| - 1];
      Somes(os[..|os| - 1]) + (if last.Some? then [last.value] else [])
  }

  lemma SomesSnoc<T>(os: seq<Option<T>>, i: nat)
    requires i < |os|
    ensures Somes(os[..i + 1]) == Somes(os[..i]) + (if os[i].Some? then [os[i].value] else [])
  {
    assert os[..i + 1][..i] == os[..i];
  }

  lemma {:induction false} SomesMembers<T>(os: seq<Option<T>>)
    ensures |Somes(os)| <= |os|
    ensures forall i :: 0 <= i < |os| && os[i].Some? ==> os[i].value in Somes(os)
    ensures forall v :: v in Somes(os) ==> exists i :: 0 <= i < |os| && os[i] == Some(v)
  {
    if os != [] {
      var init := os[..|os| - 1];
      SomesMembers(init);
      forall i | 0 <= i < |os| - 1 ensures os[i] == init[i] {
      }
      forall v | v in Somes(os) ensures exists i :: 0 <= i < |os| && os[i] == Some(v) {
        if v !in Somes(init) {
          assert os[|os| - 1] == Some(v);
        } else {
          var i :| 0 <= i < |init| && init[i] == Some(v);
          assert os[i] == Some(v);
        }
      }
    }
  }

  lemma {:induction false} SomesNone<T>(os: seq<Option<T>>)
    requires forall i :: 0 <= i < |os| ==> os[i].None?
    ensures Somes(os) == []
  {
    if os != [] {
      SomesNone(os[..|os| - 1]);
    }
  }
}
