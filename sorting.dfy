/** A stable descending sort by an integer key: the model of Python's
    `sorted(xs, key=k, reverse=True)` and `xs.sort(key=k, reverse=True)`,
    which keep equal-keyed elements in their original order. */
module Sorting {
  import Seqs

  ghost predicate SortedDesc<T>(s: seq<T>, key: T -> int) {
    forall i, j :: 0 <= i < j < |s| ==> key(s[i]) >= key(s[j])
  }

  ghost predicate AllAtMost<T>(s: seq<T>, key: T -> int, bound: int) {
    forall i :: 0 <= i < |s| ==> key(s[i]) <= bound
  }

  /** Inserts `x` into the descending `t`, in front of every element whose key
      is not larger, so it lands before equal ones; the sort inserts from the
      back, which is what keeps equal-keyed elements in their original order. */
  function Insert<T>(x: T, t: seq<T>, key: T -> int): (r: seq<T>)
    ensures multiset(r) == multiset(t) + multiset{x}
    ensures |r| == |t| + 1
    ensures AllAtMost(t, key, key(x)) ==> r == [x] + t
    decreases |t|
  {
    if |t| == 0 || key(x) >= key(t[0]) then [x] + t
    else
      assert t == [t[0]] + t[1..];
      [t[0]] + Insert(x, t[1..], key)
  }

  /** Inserting an element below a bound keeps everything below it. */
  lemma {:induction false} InsertAtMost<T>(x: T, t: seq<T>, key: T -> int, bound: int)
    requires AllAtMost(t, key, bound) && key(x) <= bound
    ensures AllAtMost(Insert(x, t, key), key, bound)
    decreases |t|
  {
    if |t| > 0 && key(x) < key(t[0]) {
      InsertAtMost(x, t[1..], key, bound);
    }
  }

  /** Insertion keeps a descending sequence descending. */
  lemma {:induction false} InsertSorted<T>(x: T, t: seq<T>, key: T -> int)
    requires SortedDesc(t, key)
    ensures SortedDesc(Insert(x, t, key), key)
    decreases |t|
  {
    if |t| > 0 && key(x) < key(t[0]) {
      InsertSorted(x, t[1..], key);
      InsertAtMost(x, t[1..], key, key(t[0]));
    }
  }

  /** Insertion sort, largest key first. */
  function SortDesc<T>(s: seq<T>, key: T -> int): (r: seq<T>)
    ensures multiset(r) == multiset(s)
    ensures |r| == |s|
    ensures SortedDesc(r, key)
    decreases |s|
  {
    if |s| == 0 then []
    else
      assert s == [s[0]] + s[1..];
      InsertSorted(s[0], SortDesc(s[1..], key), key);
      Insert(s[0], SortDesc(s[1..], key), key)
  }

  /** Inserting a new element into a sequence without repeats keeps it
      without repeats. */
  lemma {:induction false} InsertNoDuplicates<T>(x: T, t: seq<T>, key: T -> int)
    requires Seqs.NoDuplicates(t) && x !in t
    ensures Seqs.NoDuplicates(Insert(x, t, key))
    decreases |t|
  {
    if |t| > 0 && key(x) >= key(t[0]) {
    } else if |t| > 0 {
      var rest := Insert(x, t[1..], key);
      assert t == [t[0]] + t[1..];
      InsertNoDuplicates(x, t[1..], key);
      assert t[0] !in multiset(t[1..]) + multiset{x};
      assert t[0] !in rest;
    }
  }

  /** Sorting a sequence without repeats gives one without repeats. */
  lemma {:induction false} SortNoDuplicates<T>(s: seq<T>, key: T -> int)
    requires Seqs.NoDuplicates(s)
    ensures Seqs.NoDuplicates(SortDesc(s, key))
    decreases |s|
  {
    if |s| > 0 {
      assert s == [s[0]] + s[1..];
      SortNoDuplicates(s[1..], key);
      var t := SortDesc(s[1..], key);
      assert s[0] !in multiset(t);
      InsertNoDuplicates(s[0], t, key);
    }
  }

  /** The first `n` of a descending sort leave out only elements whose key is
      no larger than that of any element kept, and leave one out only when
      `n` elements are kept. */
  lemma TopOfSortedOmits<T>(s: seq<T>, key: T -> int, n: nat, x: T)
    requires x in s
    requires x !in Seqs.Take(SortDesc(s, key), n)
    ensures |Seqs.Take(SortDesc(s, key), n)| == n
    ensures forall y :: y in Seqs.Take(SortDesc(s, key), n) ==> key(y) >= key(x)
  {
    var r := SortDesc(s, key);
    var t := Seqs.Take(r, n);
    assert x in multiset(r);
    var p :| 0 <= p < |r| && r[p] == x;
    assert forall i :: 0 <= i < |t| ==> r[i] != x;
    assert p >= |t|;
    forall y | y in t
      ensures key(y) >= key(x)
    {
      var i :| 0 <= i < |t| && t[i] == y;
      assert r[i] == y;
    }
  }

  /** The first `n` of a descending sort are in descending order and each
      comes from the input. */
  lemma TopOfSorted<T>(s: seq<T>, key: T -> int, n: nat)
    ensures SortedDesc(Seqs.Take(SortDesc(s, key), n), key)
    ensures multiset(Seqs.Take(SortDesc(s, key), n)) <= multiset(s)
    ensures |Seqs.Take(SortDesc(s, key), n)| == if |s| <= n then |s| else n
  {
    var r := SortDesc(s, key);
    var t := Seqs.Take(r, n);
    PrefixSorted(r, key, |t|);
    PrefixMultiset(r, |t|);
  }

  lemma PrefixSorted<T>(r: seq<T>, key: T -> int, k: nat)
    requires SortedDesc(r, key) && k <= |r|
    ensures SortedDesc(r[..k], key)
  {
  }

  lemma PrefixMultiset<T>(r: seq<T>, k: nat)
    requires k <= |r|
    ensures multiset(r[..k]) <= multiset(r)
  {
    assert r == r[..k] + r[k..];
    assert multiset(r) == multiset(r[..k]) + multiset(r[k..]);
  }
}
