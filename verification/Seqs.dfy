/** Queues as sequences: removal, duplicates, first-best selection, pigeonhole. */
module Seqs {

  datatype Option<+T> = None | Some(value: T)

  ghost predicate NoDup<T>(q: seq<T>) {
    forall i, j :: 0 <= i < j < |q| ==> q[i] != q[j]
  }

  /** What unlinking the entry at position k leaves of a queue. */
  function RemoveAt<T>(q: seq<T>, k: nat): (r: seq<T>)
    requires k < |q|
    ensures |r| == |q| - 1
  {
    q[..k] + q[k + 1..]
  }

  lemma RemoveAtKeepsOthers<T>(q: seq<T>, k: nat)
    requires k < |q| && NoDup(q)
    ensures NoDup(RemoveAt(q, k))
    ensures forall x :: x in RemoveAt(q, k) <==> x in q && x != q[k]
  {
    var r := RemoveAt(q, k);
    forall x | x in q && x != q[k] ensures x in r {
      var j :| 0 <= j < |q| && q[j] == x;
      assert r[if j < k then j else j - 1] == x;
    }
    forall x | x in r ensures x in q && x != q[k] {
      var j :| 0 <= j < |r| && r[j] == x;
      assert q[if j < k then j else j + 1] == x;
    }
  }

  lemma RemoveAtMultiset<T>(q: seq<T>, k: nat)
    requires k < |q|
    ensures multiset(q) == multiset(RemoveAt(q, k)) + multiset{q[k]}
  {
    assert q == q[..k] + [q[k]] + q[k + 1..];
  }

  lemma AppendNoDup<T>(q: seq<T>, x: T)
    requires NoDup(q) && x !in q
    ensures NoDup(q + [x])
    ensures forall y :: y in q + [x] <==> y in q || y == x
  {
  }

  /** `k` is the earliest position holding the largest key. */
  ghost predicate IsFirstMax(keys: seq<int>, k: nat) {
    k < |keys|
    && (forall j :: 0 <= j < |keys| ==> keys[j] <= keys[k])
    && (forall j :: 0 <= j < k ==> keys[j] < keys[k])
  }

  /** The running-best scan of the schedulers: keep the best so far, replace it only by a strictly better one. */
  function FirstMax(keys: seq<int>): (k: nat)
    requires |keys| > 0
    ensures IsFirstMax(keys, k)
  {
    var last := |keys| - 1;
    if last == 0 then 0
    else
      var k := FirstMax(keys[..last]);
      if keys[k] < keys[last] then last else k
  }

  /** Position k is the best of the first i keys; before the scan has started it is the first. */
  ghost predicate BestSoFar(keys: seq<int>, i: nat, k: nat) {
    i <= |keys| && k < |keys| && if i == 0 then k == 0 else k == FirstMax(keys[..i])
  }

  lemma BestAtStart(keys: seq<int>)
    requires |keys| > 0
    ensures BestSoFar(keys, 0, 0)
  {
  }

  lemma BestSoFarStep(keys: seq<int>, i: nat, k: nat)
    requires i < |keys| && BestSoFar(keys, i, k)
    ensures BestSoFar(keys, i + 1, if keys[k] < keys[i] then i else k)
    ensures k <= i
  {
    assert keys[..i + 1][..i] == keys[..i];
  }

  lemma BestOfAll(keys: seq<int>, k: nat)
    requires |keys| > 0 && BestSoFar(keys, |keys|, k)
    ensures k == FirstMax(keys)
  {
    assert keys[..|keys|] == keys;
  }

  /** A sequence of n + 1 numbers below n repeats one of them. */
  lemma Pigeonhole(q: seq<nat>, n: nat)
    requires |q| == n + 1 && forall i :: 0 <= i < |q| ==> q[i] < n
    ensures exists i, j :: 0 <= i < j < |q| && q[i] == q[j]
  {
    if NoDup(q) {
      DistinctCount(q, n);
    }
  }

  lemma {:induction false} DistinctCount(q: seq<nat>, n: nat)
    requires NoDup(q) && forall i :: 0 <= i < |q| ==> q[i] < n
    ensures |q| <= n
  {
    var elems := set i | 0 <= i < |q| :: q[i];
    DistinctSetSize(q);
    BoundedSetSize(elems, n);
  }

  lemma {:induction false} DistinctSetSize<T>(q: seq<T>)
    requires NoDup(q)
    ensures |set i | 0 <= i < |q| :: q[i]| == |q|
  {
    if |q| > 0 {
      var last := |q| - 1;
      DistinctSetSize(q[..last]);
      var front := set i | 0 <= i < last :: q[..last][i];
      assert (set i | 0 <= i < |q| :: q[i]) == front + {q[last]};
      assert q[last] !in front;
    }
  }

  lemma {:induction false} BoundedSetSize(s: set<nat>, n: nat)
    requires forall x :: x in s ==> x < n
    ensures |s| <= n
  {
    if n == 0 {
      assert s == {};
    } else {
      BoundedSetSize(s - {n - 1}, n - 1);
      assert s <= (s - {n - 1}) + {n - 1};
    }
  }

  lemma SubsetSize<T>(a: set<T>, b: set<T>)
    requires a <= b
    ensures |a| <= |b|
    ensures a != b ==> |a| < |b|
  {
    assert b == a + (b - a);
    if a != b {
      assert b - a != {};
    }
  }

  lemma Associates<T>(a: seq<T>, b: seq<T>, c: seq<T>)
    ensures a + (b + c) == (a + b) + c
  {
  }
}
