/**
 The intrusive doubly linked list: nodes that point to each other in a ring, one of them the head.
 A ring stands for the sequence of its nodes; each operation is proved to act on it as the matching
 sequence operation, touching only the nodes next to the change.
 */
module ListHead {
  import opened Seqs

  class Node {
    /** Null stands for the poison a deleted entry is left with. */
    var next: Node?
    var prev: Node?

    constructor ()
      ensures Ring([this])
    {
      next, prev := this, this;
    }
  }

  // ----- What a ring stands for -----

  ghost predicate Linked(a: Node, b: Node)
    reads a, b
  {
    a.next == b && b.prev == a
  }

  ghost predicate Distinct(r: seq<Node>) {
    forall i, j :: 0 <= i < j < |r| ==> r[i] != r[j]
  }

  ghost predicate Chain(r: seq<Node>)
    reads r
  {
    forall i, j :: 0 <= i && j == i + 1 < |r| ==> Linked(r[i], r[j])
  }

  /** The nodes r[0], r[1], ... point to each other in this order, forwards and backwards, and around. */
  ghost predicate Ring(r: seq<Node>)
    reads r
  {
    |r| > 0 && Distinct(r) && Chain(r) && Linked(r[|r| - 1], r[0])
  }

  /** The list at `head` has the entries s. */
  ghost predicate IsList(head: Node, s: seq<Node>)
    reads {head}, s
  {
    Ring([head] + s)
  }

  /** A ring may be read from any of its nodes. */
  lemma RingTurns(r: seq<Node>, k: nat)
    requires Ring(r) && k < |r|
    ensures Ring(r[k..] + r[..k])
  {
    var t := r[k..] + r[..k];
    forall i, j | 0 <= i && j == i + 1 < |t| ensures Linked(t[i], t[j]) {
    }
  }

  /** A ring determines its sequence: two rings that start at the same node are the same. */
  lemma {:induction false} RingUnique(r: seq<Node>, t: seq<Node>, n: nat)
    requires Ring(r) && Ring(t) && r[0] == t[0] && n <= |r|
    ensures n <= |t| && r[..n] == t[..n]
  {
    if n > 1 {
      RingUnique(r, t, n - 1);
      assert Linked(r[n - 2], r[n - 1]);
      assert r[..n - 1][n - 2] == t[..n - 1][n - 2];
      assert n - 1 != |t|;
      assert Linked(t[n - 2], t[n - 1]);
    }
  }

  /** The entries of a list are determined by its head. */
  lemma SameList(head: Node, s: seq<Node>, t: seq<Node>)
    requires IsList(head, s) && IsList(head, t)
    ensures s == t
  {
    var r, q := [head] + s, [head] + t;
    RingUnique(r, q, |r|);
    RingUnique(q, r, |q|);
    assert r[..|r|] == r && q[..|q|] == q;
    assert s == r[1..] && t == q[1..];
  }

  // ----- Tests -----

  predicate ListEmpty(head: Node)
    reads head
  {
    head.next == head
  }

  predicate ListIsLast(entry: Node, head: Node)
    reads entry
  {
    entry.next == head
  }

  predicate ListIsSingular(head: Node)
    reads head
  {
    !ListEmpty(head) && head.next == head.prev
  }

  /** What the pointer tests say about the sequence. */
  lemma TestsMean(head: Node, s: seq<Node>)
    requires IsList(head, s)
    ensures ListEmpty(head) <==> s == []
    ensures ListIsSingular(head) <==> |s| == 1
    ensures forall k :: 0 <= k < |s| ==> (ListIsLast(s[k], head) <==> k == |s| - 1)
  {
    var r := [head] + s;
    if s != [] {
      assert Linked(r[0], r[1]);
      assert r[1] == s[0] && r[|r| - 1] == s[|s| - 1];
    }
    forall k | 0 <= k < |s| ensures ListIsLast(s[k], head) <==> k == |s| - 1 {
      assert r[k + 1] == s[k];
      if k + 1 < |s| {
        assert Linked(r[k + 1], r[k + 2]);
      }
    }
  }

  // ----- Adding -----

  method InitListHead(list: Node)
    modifies list
    ensures Ring([list])
  {
    list.next := list;
    list.prev := list;
  }

  /** __list_add: the new entry goes between the neighbours r[i] and the node after it. */
  method LinkBetween(entry: Node, prev: Node, next: Node, ghost r: seq<Node>, ghost i: nat)
    requires Ring(r) && i < |r| && entry !in r && prev == r[i] && next == if i + 1 < |r| then r[i + 1] else r[0]
    modifies entry, prev, next
    ensures Ring(r[..i + 1] + [entry] + r[i + 1..])
  {
    next.prev := entry;
    entry.next := next;
    entry.prev := prev;
    prev.next := entry;
    ghost var t := r[..i + 1] + [entry] + r[i + 1..];
    forall a, b | 0 <= a && b == a + 1 < |t| ensures Linked(t[a], t[b]) {
      if a < i {
        assert Linked(r[a], r[a + 1]);
      } else if a > i + 1 {
        assert Linked(r[a - 1], r[a]);
      }
    }
  }

  /** What comes after the head, read off the ring. */
  lemma FirstAndLast(head: Node, s: seq<Node>)
    requires IsList(head, s)
    ensures head.next == (if s == [] then head else s[0]) && head.prev == (if s == [] then head else s[|s| - 1])
  {
    var r := [head] + s;
    if s != [] {
      assert Linked(r[0], r[1]);
      assert Linked(r[|s|], r[0]);
    }
  }

  method ListAdd(entry: Node, head: Node, ghost s: seq<Node>)
    requires IsList(head, s) && entry != head && entry !in s
    modifies entry, head, head.next
    ensures IsList(head, [entry] + s)
  {
    FirstAndLast(head, s);
    ghost var r := [head] + s;
    LinkBetween(entry, head, head.next, r, 0);
    assert r[..1] + [entry] + r[1..] == [head] + ([entry] + s);
  }

  method ListAddTail(entry: Node, head: Node, ghost s: seq<Node>)
    requires IsList(head, s) && entry != head && entry !in s
    modifies entry, head, head.prev
    ensures IsList(head, s + [entry])
  {
    FirstAndLast(head, s);
    ghost var r := [head] + s;
    LinkBetween(entry, head.prev, head, r, |s|);
    assert r[..|s| + 1] + [entry] + r[|s| + 1..] == [head] + (s + [entry]);
  }

  // ----- Deleting -----

  /** __list_del_entry on the entry at position k: its neighbours close the gap. */
  method UnlinkEntry(entry: Node, head: Node, ghost s: seq<Node>, ghost k: nat)
    requires IsList(head, s) && k < |s| && entry == s[k]
    modifies entry.prev, entry.next
    ensures IsList(head, RemoveAt(s, k)) && entry !in [head] + RemoveAt(s, k)
  {
    ghost var r, t := [head] + s, [head] + RemoveAt(s, k);
    Neighbours(r, k + 1);
    assert r[k + 1] == entry && t == RemoveAt(r, k + 1);
    Removed(r, t, k + 1);
    var prev, next := entry.prev, entry.next;
    assert prev == t[k] && next == if k + 1 < |s| then t[k + 1] else t[0];
    next.prev := prev;
    prev.next := next;
    forall a, b | 0 <= a && b == a + 1 < |t| ensures Linked(t[a], t[b]) {
      if a < k {
        assert old(Linked(r[a], r[a + 1]));
      } else if a > k {
        assert old(Linked(r[a + 1], r[a + 2]));
      }
    }
    assert k + 1 < |s| ==> old(Linked(r[|s|], r[0]));
  }

  lemma Removed(r: seq<Node>, t: seq<Node>, k: nat)
    requires Distinct(r) && k < |r| && t == RemoveAt(r, k)
    ensures Distinct(t) && r[k] !in t
    ensures |t| == |r| - 1 && (forall a :: 0 <= a < k ==> t[a] == r[a]) && forall a :: k <= a < |t| ==> t[a] == r[a + 1]
  {
    assert forall a :: 0 <= a < |t| ==> t[a] == if a < k then r[a] else r[a + 1];
    assert forall a :: 0 <= a < |t| ==> t[a] != r[k];
  }

  lemma Neighbours(r: seq<Node>, i: nat)
    requires Ring(r) && i < |r|
    ensures r[i].prev == (if i == 0 then r[|r| - 1] else r[i - 1])
    ensures r[i].next == (if i == |r| - 1 then r[0] else r[i + 1])
  {
    if i > 0 {
      assert Linked(r[i - 1], r[i]);
    }
    if i < |r| - 1 {
      assert Linked(r[i], r[i + 1]);
    }
  }

  method ListDel(entry: Node, head: Node, ghost s: seq<Node>, ghost k: nat)
    requires IsList(head, s) && k < |s| && entry == s[k]
    modifies entry, entry.prev, entry.next
    ensures IsList(head, RemoveAt(s, k)) && entry.next == null && entry.prev == null
  {
    UnlinkEntry(entry, head, s, k);
    entry.next := null;
    entry.prev := null;
  }

  method ListDelInit(entry: Node, head: Node, ghost s: seq<Node>, ghost k: nat)
    requires IsList(head, s) && k < |s| && entry == s[k]
    modifies entry, entry.prev, entry.next
    ensures IsList(head, RemoveAt(s, k)) && IsList(entry, [])
  {
    UnlinkEntry(entry, head, s, k);
    InitListHead(entry);
  }

  // ----- Moving and replacing -----

  ghost predicate Apart(r: seq<Node>, t: seq<Node>) {
    forall x :: x in r ==> x !in t
  }

  lemma NeighboursInside(r: seq<Node>, i: nat)
    requires Ring(r) && i < |r|
    ensures r[i].prev in r && r[i].next in r
  {
    Neighbours(r, i);
  }

  /** The list `head` without the entry that is about to move there from the list `from`. */
  ghost predicate Target(from: Node, s: seq<Node>, k: nat, head: Node, t: seq<Node>)
    reads {from}, s, {head}, t
  {
    && IsList(from, s) && k < |s|
    && if head == from then t == RemoveAt(s, k) else IsList(head, t) && Apart([from] + s, [head] + t)
  }

  /** Unlinking an entry leaves it ready to enter its target, be that another list or the same one. */
  method UnlinkForMove(entry: Node, from: Node, head: Node, ghost s: seq<Node>, ghost k: nat, ghost t: seq<Node>)
    requires Target(from, s, k, head, t) && entry == s[k]
    modifies entry.prev, entry.next
    ensures IsList(from, RemoveAt(s, k)) && IsList(head, t) && entry != head && entry !in t
    ensures head != from ==> Apart([from] + RemoveAt(s, k), [head] + t) && entry !in [from] + RemoveAt(s, k)
    ensures head.prev == old(head.prev) || head.prev == old(entry.prev)
    ensures head.next == old(head.next) || head.next == old(entry.next)
  {
    ghost var r := [from] + s;
    assert r[k + 1] == entry;
    NeighboursInside(r, k + 1);
    Neighbours(r, k + 1);
    FirstAndLast(from, s);
    assert head != from ==> head in [head] + t;
    UnlinkEntry(entry, from, s, k);
    FirstAndLast(from, RemoveAt(s, k));
    assert forall x :: x in [from] + RemoveAt(s, k) ==> x in r;
    assert entry in r && head in [head] + t && forall x :: x in t ==> x in [head] + t;
  }

  method ListMove(entry: Node, from: Node, head: Node, ghost s: seq<Node>, ghost k: nat, ghost t: seq<Node>)
    requires Target(from, s, k, head, t) && entry == s[k]
    modifies entry, entry.prev, entry.next, head, head.next
    ensures IsList(head, [entry] + t) && (head != from ==> IsList(from, RemoveAt(s, k)))
  {
    UnlinkForMove(entry, from, head, s, k, t);
    FirstAndLast(head, t);
    assert head in [head] + t && forall x :: x in t ==> x in [head] + t;
    ghost var u := [from] + RemoveAt(s, k);
    assert head != from ==> Ring(u) && entry !in u && head !in u && head.next !in u;
    ListAdd(entry, head, t);
    assert head != from ==> Ring(u);
  }

  /** How a waiter goes from a resource's wait queue to the tail of the ready queue. */
  method ListMoveTail(entry: Node, from: Node, head: Node, ghost s: seq<Node>, ghost k: nat, ghost t: seq<Node>)
    requires Target(from, s, k, head, t) && entry == s[k]
    modifies entry, entry.prev, entry.next, head, head.prev
    ensures IsList(head, t + [entry]) && (head != from ==> IsList(from, RemoveAt(s, k)))
  {
    UnlinkForMove(entry, from, head, s, k, t);
    FirstAndLast(head, t);
    assert head in [head] + t && forall x :: x in t ==> x in [head] + t;
    ghost var u := [from] + RemoveAt(s, k);
    assert head != from ==> Ring(u) && entry !in u && head !in u && head.prev !in u;
    ListAddTail(entry, head, t);
    assert head != from ==> Ring(u);
  }

  method ListRotateLeft(head: Node, ghost s: seq<Node>)
    requires IsList(head, s)
    modifies head, head.prev, head.next, if head.next == null then {} else {head.next.next}
    ensures IsList(head, if s == [] then [] else s[1..] + [s[0]])
  {
    TestsMean(head, s);
    FirstAndLast(head, s);
    if !ListEmpty(head) {
      Neighbours([head] + s, 1);
      var first := head.next;
      assert RemoveAt(s, 0) == s[1..];
      ListMoveTail(first, head, head, s, 0, s[1..]);
    }
  }

  /** The new node takes the old one's place in its ring; a node alone in its ring is replaced by one alone in its own. */
  method ListReplace(was: Node, entry: Node, ghost r: seq<Node>, ghost i: nat)
    requires Ring(r) && i < |r| && was == r[i] && entry !in r && was.next != null && was.prev != null
    modifies entry, was.next, was.prev
    ensures Ring(r[i := entry])
  {
    Neighbours(r, i);
    entry.next := was.next;
    entry.next.prev := entry;
    entry.prev := was.prev;
    entry.prev.next := entry;
    ghost var t := r[i := entry];
    forall a, b | 0 <= a && b == a + 1 < |t| ensures Linked(t[a], t[b]) {
      assert old(Linked(r[a], r[b]));
    }
    assert old(Linked(r[|r| - 1], r[0]));
  }

  method ListReplaceInit(was: Node, entry: Node, ghost r: seq<Node>, ghost i: nat)
    requires Ring(r) && i < |r| && was == r[i] && entry !in r && was.next != null && was.prev != null
    modifies entry, was, was.next, was.prev
    ensures Ring(r[i := entry]) && Ring([was])
  {
    ghost var t := r[i := entry];
    ListReplace(was, entry, r, i);
    assert forall a :: 0 <= a < |t| ==> t[a] != was;
    InitListHead(was);
  }

  // ----- Cutting -----

  /** list_cut_position moves nothing from an empty list, nor from one with a single entry other than the one asked for. */
  predicate CutsNothing(head: Node, entry: Node)
    reads head
  {
    ListEmpty(head) || (ListIsSingular(head) && head.next != entry && head != entry)
  }

  /** The pointer surgery of a cut: everything up to and including entry k moves to `list`. */
  method CutUpTo(list: Node, head: Node, entry: Node, ghost s: seq<Node>, ghost k: nat)
    requires IsList(head, s) && k < |s| && entry == s[k] && list != head && list !in s
    modifies list, head, entry, entry.next, head.next
    ensures IsList(list, s[..k + 1]) && IsList(head, s[k + 1..])
  {
    ghost var r := [head] + s;
    Neighbours(r, k + 1);
    Neighbours(r, 0);
    var newFirst := entry.next;
    list.next := head.next;
    list.next.prev := list;
    list.prev := entry;
    entry.next := list;
    head.next := newFirst;
    newFirst.prev := head;
    CutPieces(list, head, s, k, r);
    ghost var a, b := [list] + s[..k + 1], [head] + s[k + 1..];
    forall i, j | 0 <= i && j == i + 1 < |a| ensures Linked(a[i], a[j]) {
      if i > 0 {
        assert old(Linked(r[i], r[j]));
      }
    }
    forall i, j | 0 <= i && j == i + 1 < |b| ensures Linked(b[i], b[j]) {
      if i > 0 {
        assert old(Linked(r[i + k + 1], r[j + k + 1]));
      }
    }
    assert old(Linked(r[|s|], r[0]));
  }

  lemma CutPieces(list: Node, head: Node, s: seq<Node>, k: nat, r: seq<Node>)
    requires r == [head] + s && k < |s| && Distinct(r) && list !in r
    ensures var a := [list] + s[..k + 1];
      Distinct(a) && |a| == k + 2 && a[0] == list && forall i :: 0 < i < |a| ==> a[i] == r[i]
    ensures var b := [head] + s[k + 1..];
      Distinct(b) && |b| == |s| - k && b[0] == head && forall i :: 0 < i < |b| ==> b[i] == r[i + k + 1]
  {
    var a, b := [list] + s[..k + 1], [head] + s[k + 1..];
    assert r[0] == head;
    forall i, j | 0 <= i < j < |a| ensures a[i] != a[j] {
      assert a[j] == r[j] && (i > 0 ==> a[i] == r[i]);
    }
    forall i, j | 0 <= i < j < |b| ensures b[i] != b[j] {
      assert b[j] == r[j + k + 1] && b[i] == r[if i == 0 then 0 else i + k + 1];
    }
  }

  /** `list` gets the entries up to and including `entry`; if there is nothing to move it is not even written to. */
  method ListCutPosition(list: Node, head: Node, entry: Node, ghost s: seq<Node>, ghost k: nat)
    requires IsList(head, s) && list != head && list !in s && k <= |s|
    requires |s| > 1 ==> entry == ([head] + s)[k]
    requires |s| == 1 && (entry == head || entry == s[0]) ==> entry == ([head] + s)[k]
    modifies list, head, entry, entry.next, head.next
    ensures old(CutsNothing(head, entry)) ==>
      IsList(head, s) && list.next == old(list.next) && list.prev == old(list.prev)
    ensures !old(CutsNothing(head, entry)) ==> IsList(list, s[..k]) && IsList(head, s[k..])
  {
    TestsMean(head, s);
    FirstAndLast(head, s);
    if ListEmpty(head) {
      return;
    }
    if ListIsSingular(head) && head.next != entry && head != entry {
      return;
    }
    ghost var r := [head] + s;
    assert entry == r[k] && (k > 0 ==> r[k] == s[k - 1]);
    if entry == head {
      assert k == 0;
      InitListHead(list);
    } else {
      CutUpTo(list, head, entry, s, k - 1);
    }
  }

  /** `list` gets the entries before `entry`; all of them if `entry` is the head. */
  method ListCutBefore(list: Node, head: Node, entry: Node, ghost s: seq<Node>, ghost k: nat)
    requires IsList(head, s) && list != head && list !in s && k <= |s|
    requires entry == if k < |s| then s[k] else head
    requires head.next != null && entry.prev != null
    modifies list, head, entry, head.next, entry.prev
    ensures IsList(list, s[..k]) && IsList(head, s[k..])
  {
    ghost var r := [head] + s;
    Neighbours(r, 0);
    Neighbours(r, if k < |s| then k + 1 else 0);
    if head.next == entry {
      assert k == 0;
      InitListHead(list);
      return;
    }
    list.next := head.next;
    list.next.prev := list;
    list.prev := entry.prev;
    list.prev.next := list;
    head.next := entry;
    entry.prev := head;
    CutPieces(list, head, s, k - 1, r);
    ghost var a, b := [list] + s[..k], [head] + s[k..];
    forall i, j | 0 <= i && j == i + 1 < |a| ensures Linked(a[i], a[j]) {
      if i > 0 {
        assert old(Linked(r[i], r[j]));
      }
    }
    forall i, j | 0 <= i && j == i + 1 < |b| ensures Linked(b[i], b[j]) {
      if i > 0 {
        assert old(Linked(r[i + k], r[j + k]));
      }
    }
    assert old(Linked(r[|s|], r[0]));
  }

  // ----- Splicing -----

  /** __list_splice: the entries a of `list` go between the neighbours r[i] and the node after it. */
  method SpliceBetween(list: Node, prev: Node, next: Node, ghost a: seq<Node>, ghost r: seq<Node>, ghost i: nat)
    requires IsList(list, a) && a != [] && Ring(r) && i < |r| && Apart([list] + a, r)
    requires prev == r[i] && next == if i + 1 < |r| then r[i + 1] else r[0]
    modifies list.next, list.prev, prev, next
    ensures Ring(r[..i + 1] + a + r[i + 1..])
    ensures list.next == old(list.next) && list.prev == old(list.prev)
  {
    FirstAndLast(list, a);
    assert list in [list] + a && forall x :: x in a ==> x in [list] + a;
    assert forall x :: 0 <= x < |r| ==> r[x] !in a && r[x] != list;
    assert prev !in a && next !in a;
    var first, last := list.next, list.prev;
    assert first == a[0] && last == a[|a| - 1];
    first.prev := prev;
    prev.next := first;
    last.next := next;
    next.prev := last;
    ghost var q, t := [list] + a, r[..i + 1] + a + r[i + 1..];
    SplicePieces(list, a, r, i);
    forall x, y | 0 <= x && y == x + 1 < |t| ensures Linked(t[x], t[y]) {
      if y <= i {
        assert old(Linked(r[x], r[y]));
      } else if i < x && y <= i + |a| {
        assert old(Linked(q[x - i], q[y - i]));
        assert t[x] in a && t[y] in a && t[i + 1] == first && t[i + |a|] == last;
      } else if x > i + |a| {
        assert old(Linked(r[x - |a|], r[y - |a|]));
      } else if x == i {
        assert t[x] == prev && t[y] == first;
      } else {
        assert t[x] == last && t[y] == next && last in a;
      }
    }
    assert old(Linked(r[|r| - 1], r[0]));
  }

  /** The entries of `list` go before those of `head`; the node `list` itself is left dangling. */
  method ListSplice(list: Node, head: Node, ghost a: seq<Node>, ghost b: seq<Node>)
    requires IsList(list, a) && IsList(head, b) && Apart([list] + a, [head] + b)
    modifies list.next, list.prev, head, head.next
    ensures IsList(head, a + b)
    ensures a != [] ==> list.next == old(list.next) && list.prev == old(list.prev)
    ensures a == [] ==> IsList(list, [])
  {
    TestsMean(list, a);
    FirstAndLast(head, b);
    if !ListEmpty(list) {
      ghost var r := [head] + b;
      assert b != [] ==> r[1] == b[0];
      SpliceBetween(list, head, head.next, a, r, 0);
      assert r[..1] + a + r[1..] == [head] + (a + b);
    } else {
      assert a + b == b;
    }
  }

  /** The entries of `list` go after those of `head`. */
  method ListSpliceTail(list: Node, head: Node, ghost a: seq<Node>, ghost b: seq<Node>)
    requires IsList(list, a) && IsList(head, b) && Apart([list] + a, [head] + b)
    modifies list.next, list.prev, head, head.prev
    ensures IsList(head, b + a)
    ensures a != [] ==> list.next == old(list.next) && list.prev == old(list.prev)
    ensures a == [] ==> IsList(list, [])
  {
    TestsMean(list, a);
    FirstAndLast(head, b);
    if !ListEmpty(list) {
      ghost var r := [head] + b;
      assert r[|b|] == head.prev;
      SpliceBetween(list, head.prev, head, a, r, |b|);
      assert r[..|b| + 1] + a + r[|b| + 1..] == [head] + (b + a);
    } else {
      assert b + a == b;
    }
  }

  /** The node a list was spliced from is not in the joined list. */
  lemma ListLeftOut(list: Node, head: Node, a: seq<Node>, b: seq<Node>)
    requires Distinct([list] + a) && Apart([list] + a, [head] + b)
    ensures list !in [head] + (a + b) && list !in [head] + (b + a)
  {
    var q, r := [list] + a, [head] + b;
    assert list in q && head in r && (forall x :: x in b ==> x in r);
    assert forall i :: 0 <= i < |a| ==> a[i] == q[i + 1] && q[0] == list;
  }

  method ListSpliceInit(list: Node, head: Node, ghost a: seq<Node>, ghost b: seq<Node>)
    requires IsList(list, a) && IsList(head, b) && Apart([list] + a, [head] + b)
    modifies list, list.next, list.prev, head, head.next
    ensures IsList(head, a + b) && IsList(list, [])
  {
    TestsMean(list, a);
    ListLeftOut(list, head, a, b);
    if !ListEmpty(list) {
      ListSplice(list, head, a, b);
      InitListHead(list);
    } else {
      assert a + b == b;
    }
  }

  method ListSpliceTailInit(list: Node, head: Node, ghost a: seq<Node>, ghost b: seq<Node>)
    requires IsList(list, a) && IsList(head, b) && Apart([list] + a, [head] + b)
    modifies list, list.next, list.prev, head, head.prev
    ensures IsList(head, b + a) && IsList(list, [])
  {
    TestsMean(list, a);
    ListLeftOut(list, head, a, b);
    if !ListEmpty(list) {
      ListSpliceTail(list, head, a, b);
      InitListHead(list);
    } else {
      assert b + a == b;
    }
  }

  // ----- Round trip -----

  /** The two halves of a cut have nothing in common. */
  lemma HalvesApart(list: Node, head: Node, s: seq<Node>, k: nat)
    requires Distinct([head] + s) && list != head && list !in s && k <= |s|
    ensures Apart([list] + s[..k], [head] + s[k..])
  {
    var r := [head] + s;
    assert r[0] == head && forall i :: 0 <= i < |s| ==> s[i] == r[i + 1];
    forall x | x in [list] + s[..k] ensures x !in [head] + s[k..] {
    }
  }

  /** Cutting a prefix off into an empty list and splicing it back at the head restores the list, wherever the cut falls. */
  method CutAndSpliceBack(list: Node, head: Node, entry: Node, ghost s: seq<Node>, ghost k: nat)
    requires IsList(head, s) && IsList(list, []) && list != head && list !in s && k <= |s| && entry == ([head] + s)[k]
    modifies list, head, s
    ensures IsList(head, s)
  {
    Inside(head, s, 0);
    Inside(head, s, k);
    TestsMean(head, s);
    FirstAndLast(head, s);
    ghost var cut := if CutsNothing(head, entry) then 0 else k;
    HalvesApart(list, head, s, cut);
    ListCutPosition(list, head, entry, s, k);
    assert s[..0] == [] && s[0..] == s && s[..cut] + s[cut..] == s;
    FirstAndLast(list, s[..cut]);
    FirstAndLast(head, s[cut..]);
    ListSplice(list, head, s[..cut], s[cut..]);
  }

  lemma Inside(head: Node, s: seq<Node>, k: nat)
    requires IsList(head, s) && k <= |s|
    ensures var r := [head] + s; (r[k].next == head || r[k].next in s) && (r[k].prev == head || r[k].prev in s)
  {
    Neighbours([head] + s, k);
  }

  lemma SplicePieces(list: Node, a: seq<Node>, r: seq<Node>, i: nat)
    requires i < |r| && Distinct([list] + a) && Distinct(r) && Apart([list] + a, r)
    ensures var t := r[..i + 1] + a + r[i + 1..];
      && Distinct(t) && |t| == |a| + |r|
      && (forall x :: 0 <= x <= i ==> t[x] == r[x])
      && (forall x :: i < x <= i + |a| ==> t[x] == a[x - i - 1] == ([list] + a)[x - i])
      && (forall x :: i + |a| < x < |t| ==> t[x] == r[x - |a|])
    ensures forall x :: 0 <= x < |a| ==> a[x] != list
  {
    var q := [list] + a;
    assert forall x :: 0 <= x < |a| ==> a[x] == q[x + 1] && q[0] == list;
    var t := r[..i + 1] + a + r[i + 1..];
    forall x, y | 0 <= x < y < |t| ensures t[x] != t[y] {
      if i < x <= i + |a| || i < y <= i + |a| {
        assert i < x <= i + |a| ==> t[x] in q;
        assert i < y <= i + |a| ==> t[y] in q;
        assert !(i < x <= i + |a|) ==> t[x] in r;
        assert !(i < y <= i + |a|) ==> t[y] in r;
      }
    }
  }
}
