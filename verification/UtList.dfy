/** Singly linked lists: the macros the scheduler and the hook keep their lists with, and
    the bottom-up merge sort on them. */
module UtList {

  class Node<T> {
    const value: T
    var next: Node?<T>

    constructor (value: T)
      ensures this.value == value && next == null
    {
      this.value := value;
      next := null;
    }
  }

  ghost predicate Distinct<T>(s: seq<Node<T>>) {
    forall i, j :: 0 <= i < j < |s| ==> s[i] != s[j]
  }

  /** The successor that node i of the list s has. */
  ghost function Successor<T>(s: seq<Node<T>>, i: nat): Node?<T> {
    if i + 1 < |s| then s[i + 1] else null
  }

  ghost function First<T>(s: seq<Node<T>>): Node?<T> {
    if s == [] then null else s[0]
  }

  /** The null-terminated list that starts at head holds exactly the nodes s, in order. */
  ghost predicate IsList<T>(head: Node?<T>, s: seq<Node<T>>)
    reads s
  {
    && Distinct(s)
    && head == First(s)
    && forall i :: 0 <= i < |s| ==> s[i].next == Successor(s, i)
  }

  /** A list holds only one sequence of nodes. */
  lemma {:induction false} ListIsUnique<T>(head: Node?<T>, s: seq<Node<T>>, t: seq<Node<T>>, k: nat)
    requires IsList(head, s) && IsList(head, t) && k <= |s|
    ensures k <= |t| && s[..k] == t[..k]
  {
    if k > 0 {
      ListIsUnique(head, s, t, k - 1);
      if k >= 2 {
        assert s[k - 2] == s[..k - 1][k - 2] == t[..k - 1][k - 2] == t[k - 2];
        assert s[k - 1] == Successor(s, k - 2) == Successor(t, k - 2);
      }
      assert s[..k] == s[..k - 1] + [s[k - 1]];
      assert t[..k] == t[..k - 1] + [t[k - 1]];
    }
  }

  // ---------------------------------------------------------------- insertion and deletion

  method Prepend<T>(head: Node?<T>, add: Node<T>, ghost s: seq<Node<T>>)
    requires IsList(head, s) && add !in s
    modifies add
    ensures IsList(add, [add] + s)
  {
    add.next := head;
  }

  method Append<T>(head: Node?<T>, add: Node<T>, ghost s: seq<Node<T>>) returns (newHead: Node<T>)
    requires IsList(head, s) && add !in s
    modifies add, s
    ensures IsList(newHead, s + [add])
  {
    add.next := null;
    if head == null {
      newHead := add;
    } else {
      newHead := head;
      var tmp: Node<T> := head;
      ghost var i := 0;
      while tmp.next != null
        invariant 0 <= i < |s| && tmp == s[i]
        decreases |s| - i
      {
        tmp := tmp.next;
        i := i + 1;
      }
      tmp.next := add;
    }
  }

  /** The list without a node. */
  ghost function Removed<T>(s: seq<Node<T>>, del: Node<T>): seq<Node<T>> {
    if s == [] then [] else if s[0] == del then s[1..] else [s[0]] + Removed(s[1..], del)
  }

  lemma {:induction false} RemovedAt<T>(s: seq<Node<T>>, del: Node<T>, i: nat)
    requires i <= |s| && del !in s[..i]
    ensures i == |s| ==> Removed(s, del) == s
    ensures i < |s| && s[i] == del ==> Removed(s, del) == s[..i] + s[i + 1..]
  {
    if i > 0 {
      assert s[..i] == [s[0]] + s[1..][..i - 1];
      RemovedAt(s[1..], del, i - 1);
    }
  }

  method Delete<T>(head: Node<T>, del: Node<T>, ghost s: seq<Node<T>>) returns (newHead: Node?<T>)
    requires IsList(head, s)
    modifies s
    ensures IsList(newHead, Removed(s, del))
  {
    if head == del {
      newHead := head.next;
    } else {
      newHead := head;
      var tmp: Node<T> := head;
      ghost var i := 0;
      while tmp.next != null && tmp.next != del
        invariant 0 <= i < |s| && tmp == s[i] && del !in s[..i + 1]
        decreases |s| - i
      {
        tmp := tmp.next;
        i := i + 1;
      }
      RemovedAt(s, del, i + 1);
      if tmp.next != null {
        tmp.next := del.next;
        CutOut(s, i);
      }
    }
  }

  /** Deletes a node whose neighbours are known. */
  method Unlink<T>(head: Node?<T>, del: Node<T>, ghost s: seq<Node<T>>, ghost done: seq<Node<T>>, ghost rest: seq<Node<T>>)
    returns (newHead: Node?<T>)
    requires IsList(head, s) && s == done + [del] + rest
    modifies s
    ensures IsList(newHead, done + rest)
  {
    ghost var i := |done|;
    assert s[i] == del && s[..i] == done && s[i + 1..] == rest;
    RemovedAt(s, del, i);
    newHead := Delete(head, del, s);
  }

  /** Bypassing the node after node i cuts it out of the list. */
  lemma CutOut<T>(s: seq<Node<T>>, i: nat)
    requires Distinct(s) && i + 1 < |s| && s[i].next == Successor(s, i + 1)
    requires forall k :: 0 <= k < |s| && k != i ==> s[k].next == Successor(s, k)
    ensures IsList(s[0], s[..i + 1] + s[i + 2..])
  {
    var r := s[..i + 1] + s[i + 2..];
    forall k | 0 <= k < |r| ensures r[k].next == Successor(r, k) {
      assert r[k] == if k <= i then s[k] else s[k + 1];
      assert Successor(r, k) == if k < i then Successor(s, k) else Successor(s, k + 1);
    }
  }

  // ---------------------------------------------------------------- the order

  /** cmp is a total preorder: x may stand before y when it is not positive. */
  ghost predicate IsOrder<T(!new)>(cmp: (T, T) -> int) {
    && (forall x, y :: cmp(x, y) <= 0 || cmp(y, x) <= 0)
    && (forall x, y, z :: cmp(x, y) <= 0 && cmp(y, z) <= 0 ==> cmp(x, z) <= 0)
  }

  /** Where the nodes stood in the list that is sorted. */
  type Places<!T> = map<Node<T>, int>

  /** Node x belongs before node y: by cmp, and by the original place among equals. */
  ghost predicate Before<T(!new)>(cmp: (T, T) -> int, at: Places<T>, x: Node<T>, y: Node<T>) {
    && cmp(x.value, y.value) <= 0
    && (cmp(y.value, x.value) <= 0 ==> x in at && y in at && at[x] < at[y])
  }

  lemma BeforeTransitive<T(!new)>(cmp: (T, T) -> int, at: Places<T>, x: Node<T>, y: Node<T>, z: Node<T>)
    requires IsOrder(cmp) && Before(cmp, at, x, y) && Before(cmp, at, y, z)
    ensures Before(cmp, at, x, z)
  {
    if cmp(z.value, x.value) <= 0 {
      assert cmp(y.value, x.value) <= 0;
      assert cmp(z.value, y.value) <= 0;
    }
  }

  /** Every node of s belongs before every later one. */
  ghost predicate Ordered<T(!new)>(cmp: (T, T) -> int, at: Places<T>, s: seq<Node<T>>) {
    forall i, j :: 0 <= i < j < |s| ==> Before(cmp, at, s[i], s[j])
  }

  /** The nodes of s come from the places lo..hi. */
  ghost predicate From<T(!new)>(at: Places<T>, s: seq<Node<T>>, lo: int, hi: int) {
    forall x :: x in s ==> x in at && lo <= at[x] < hi
  }

  // ---------------------------------------------------------------- merging

  ghost function Upto(n: nat, size: nat): nat {
    if n < size then n else size
  }

  /** The merge of two runs that takes from p on a tie. */
  ghost function Merge<T>(cmp: (T, T) -> int, p: seq<Node<T>>, q: seq<Node<T>>): (r: seq<Node<T>>)
    ensures |r| == |p| + |q|
  {
    if p == [] then q
    else if q == [] then p
    else if cmp(p[0].value, q[0].value) <= 0 then [p[0]] + Merge(cmp, p[1..], q)
    else [q[0]] + Merge(cmp, p, q[1..])
  }

  lemma ConsMultiset<T>(s: seq<Node<T>>)
    requires s != []
    ensures multiset(s) == multiset{s[0]} + multiset(s[1..])
  {
    assert s == [s[0]] + s[1..];
  }

  lemma {:induction false} MergePermutes<T>(cmp: (T, T) -> int, p: seq<Node<T>>, q: seq<Node<T>>)
    ensures multiset(Merge(cmp, p, q)) == multiset(p) + multiset(q)
    decreases |p| + |q|
  {
    if p != [] && q != [] {
      ConsMultiset(Merge(cmp, p, q));
      if cmp(p[0].value, q[0].value) <= 0 {
        MergePermutes(cmp, p[1..], q);
        ConsMultiset(p);
      } else {
        MergePermutes(cmp, p, q[1..]);
        ConsMultiset(q);
      }
    }
  }

  lemma OrderedCons<T(!new)>(cmp: (T, T) -> int, at: Places<T>, x: Node<T>, s: seq<Node<T>>)
    requires Ordered(cmp, at, s) && forall y :: y in s ==> Before(cmp, at, x, y)
    ensures Ordered(cmp, at, [x] + s)
  {
    var t := [x] + s;
    forall i, j | 0 <= i < j < |t| ensures Before(cmp, at, t[i], t[j]) {
      assert t[j] == s[j - 1];
      if i > 0 { assert t[i] == s[i - 1]; }
    }
  }

  lemma MergeMembers<T>(cmp: (T, T) -> int, p: seq<Node<T>>, q: seq<Node<T>>, y: Node<T>)
    ensures y in Merge(cmp, p, q) <==> y in p || y in q
  {
    MergePermutes(cmp, p, q);
    assert y in Merge(cmp, p, q) <==> y in multiset(Merge(cmp, p, q));
    assert y in p <==> y in multiset(p);
    assert y in q <==> y in multiset(q);
  }

  /** x stands before everything in a run that it stands before the head of. */
  lemma BeforeRun<T(!new)>(cmp: (T, T) -> int, at: Places<T>, x: Node<T>, s: seq<Node<T>>)
    requires IsOrder(cmp) && Ordered(cmp, at, s) && s != [] && Before(cmp, at, x, s[0])
    ensures forall y :: y in s ==> Before(cmp, at, x, y)
  {
    forall y | y in s ensures Before(cmp, at, x, y) {
      var j :| 0 <= j < |s| && s[j] == y;
      if j > 0 { BeforeTransitive(cmp, at, x, s[0], y); }
    }
  }

  /** Merging a run with a run that came after it gives a run. */
  lemma {:induction false} MergeOrders<T(!new)>(cmp: (T, T) -> int, at: Places<T>, p: seq<Node<T>>, q: seq<Node<T>>,
                                                lo: int, mid: int, hi: int)
    requires IsOrder(cmp) && Ordered(cmp, at, p) && Ordered(cmp, at, q)
    requires From(at, p, lo, mid) && From(at, q, mid, hi)
    ensures Ordered(cmp, at, Merge(cmp, p, q))
    decreases |p| + |q|
  {
    if p != [] && q != [] {
      if cmp(p[0].value, q[0].value) <= 0 {
        MergeOrders(cmp, at, p[1..], q, lo, mid, hi);
        BeforeRun(cmp, at, p[0], q);
        forall y | y in Merge(cmp, p[1..], q) ensures Before(cmp, at, p[0], y) {
          MergeMembers(cmp, p[1..], q, y);
        }
        OrderedCons(cmp, at, p[0], Merge(cmp, p[1..], q));
      } else {
        MergeOrders(cmp, at, p, q[1..], lo, mid, hi);
        BeforeRun(cmp, at, q[0], p);
        forall y | y in Merge(cmp, p, q[1..]) ensures Before(cmp, at, q[0], y) {
          MergeMembers(cmp, p, q[1..], y);
        }
        OrderedCons(cmp, at, q[0], Merge(cmp, p, q[1..]));
      }
    }
  }

  // ---------------------------------------------------------------- one pass over the list

  /** One pass: neighbouring runs of the given size are merged in pairs. */
  ghost function Pass<T>(cmp: (T, T) -> int, s: seq<Node<T>>, size: nat): (r: seq<Node<T>>)
    requires size > 0
    ensures |r| == |s|
    decreases |s|
  {
    if s == [] then [] else
      var p, rest := s[..Upto(|s|, size)], s[Upto(|s|, size)..];
      var q := Upto(|rest|, size);
      Merge(cmp, p, rest[..q]) + Pass(cmp, rest[q..], size)
  }

  lemma SplitMultiset<T>(s: seq<Node<T>>, k: nat)
    requires k <= |s|
    ensures multiset(s) == multiset(s[..k]) + multiset(s[k..])
  {
    assert s == s[..k] + s[k..];
  }

  lemma {:induction false} PassPermutes<T>(cmp: (T, T) -> int, s: seq<Node<T>>, size: nat)
    requires size > 0
    ensures multiset(Pass(cmp, s, size)) == multiset(s)
    decreases |s|
  {
    if s != [] {
      var p, rest := s[..Upto(|s|, size)], s[Upto(|s|, size)..];
      var q := Upto(|rest|, size);
      PassPermutes(cmp, rest[q..], size);
      MergePermutes(cmp, p, rest[..q]);
      SplitMultiset(s, Upto(|s|, size));
      SplitMultiset(rest, q);
    }
  }

  /** The number of merges a pass makes over n nodes. */
  ghost function Merges(n: nat, size: nat): nat
    requires size > 0
    decreases n
  {
    if n == 0 then 0 else 1 + Merges(n - Upto(n, size) - Upto(n - Upto(n, size), size), size)
  }

  /** s, whose nodes came from the places from `base` on, consists of runs of the given
      size; the last one may be shorter. */
  ghost predicate Runs<T(!new)>(cmp: (T, T) -> int, at: Places<T>, s: seq<Node<T>>, size: nat, base: int)
    requires size > 0
    decreases |s|
  {
    s != [] ==>
      var k := Upto(|s|, size);
      Ordered(cmp, at, s[..k]) && From(at, s[..k], base, base + k) && Runs(cmp, at, s[k..], size, base + k)
  }

  /** A merged pair of runs in front of longer runs makes longer runs. */
  lemma RunsPrepend<T(!new)>(cmp: (T, T) -> int, at: Places<T>, m: seq<Node<T>>, rest: seq<Node<T>>, size: nat, base: int)
    requires size > 0 && Ordered(cmp, at, m) && From(at, m, base, base + |m|)
    requires Runs(cmp, at, rest, size, base + |m|) && |m| <= size && (|m| < size ==> rest == [])
    ensures Runs(cmp, at, m + rest, size, base)
  {
    var s := m + rest;
    if s != [] {
      var k := Upto(|s|, size);
      assert k == |m| && s[..k] == m && s[k..] == rest;
    }
  }

  /** The first run and the rest. */
  lemma RunsSplit<T(!new)>(cmp: (T, T) -> int, at: Places<T>, s: seq<Node<T>>, size: nat, base: int)
    requires size > 0 && Runs(cmp, at, s, size, base)
    ensures var k := Upto(|s|, size);
            Ordered(cmp, at, s[..k]) && From(at, s[..k], base, base + k) && Runs(cmp, at, s[k..], size, base + k)
  {}

  /** The first pair of runs, merged. */
  ghost function FirstPair<T>(cmp: (T, T) -> int, s: seq<Node<T>>, size: nat): seq<Node<T>> {
    var p, rest := s[..Upto(|s|, size)], s[Upto(|s|, size)..];
    Merge(cmp, p, rest[..Upto(|rest|, size)])
  }

  lemma PassIs<T>(cmp: (T, T) -> int, s: seq<Node<T>>, size: nat)
    requires size > 0 && s != []
    ensures Pass(cmp, s, size) == FirstPair(cmp, s, size) + Pass(cmp, AfterPair(s, size), size)
  {}

  /** The first pair becomes one run of up to twice the size, and runs are what is left. */
  lemma FirstPairRuns<T(!new)>(cmp: (T, T) -> int, at: Places<T>, s: seq<Node<T>>, size: nat, base: int)
    requires size > 0 && IsOrder(cmp) && Runs(cmp, at, s, size, base)
    ensures var m := FirstPair(cmp, s, size);
            && |m| + |AfterPair(s, size)| == |s| && |m| <= 2 * size && (|m| < 2 * size ==> AfterPair(s, size) == [])
            && Ordered(cmp, at, m) && From(at, m, base, base + |m|)
            && Runs(cmp, at, AfterPair(s, size), size, base + |m|)
  {
    var p := Upto(|s|, size);
    var tail := s[p..];
    var q := Upto(|tail|, size);
    RunsSplit(cmp, at, s, size, base);
    RunsSplit(cmp, at, tail, size, base + p);
    PairMerges(cmp, at, s[..p], tail[..q], base);
  }

  /** A pass doubles the length of the runs. */
  lemma {:induction false} PassDoublesRuns<T(!new)>(cmp: (T, T) -> int, at: Places<T>, s: seq<Node<T>>, size: nat, base: int)
    requires size > 0 && IsOrder(cmp) && Runs(cmp, at, s, size, base)
    ensures Runs(cmp, at, Pass(cmp, s, size), 2 * size, base)
    decreases |s|
  {
    if s != [] {
      var m, rest := FirstPair(cmp, s, size), AfterPair(s, size);
      FirstPairRuns(cmp, at, s, size, base);
      MergesStep(s, size);
      PassDoublesRuns(cmp, at, rest, size, base + |m|);
      PassIs(cmp, s, size);
      RunsPrepend(cmp, at, m, Pass(cmp, rest, size), 2 * size, base);
    }
  }

  lemma PairMerges<T(!new)>(cmp: (T, T) -> int, at: Places<T>, p: seq<Node<T>>, q: seq<Node<T>>, base: int)
    requires IsOrder(cmp) && Ordered(cmp, at, p) && Ordered(cmp, at, q)
    requires From(at, p, base, base + |p|) && From(at, q, base + |p|, base + |p| + |q|)
    ensures Ordered(cmp, at, Merge(cmp, p, q)) && From(at, Merge(cmp, p, q), base, base + |p| + |q|)
  {
    MergeOrders(cmp, at, p, q, base, base + |p|, base + |p| + |q|);
    forall x | x in Merge(cmp, p, q) ensures x in at && base <= at[x] < base + |p| + |q| {
      MergeMembers(cmp, p, q, x);
    }
  }

  // ---------------------------------------------------------------- the pass on the heap

  /** The nodes of s are chained in order. */
  ghost predicate Linked<T>(s: seq<Node<T>>)
    reads s
  {
    forall i :: 0 <= i < |s| - 1 ==> s[i].next == s[i + 1]
  }

  /** No node occurs twice among the three sequences. */
  ghost predicate Apart<T>(out: seq<Node<T>>, ps: seq<Node<T>>, qs: seq<Node<T>>) {
    && Distinct(out) && Distinct(ps) && Distinct(qs)
    && (forall x :: x in out ==> x !in ps && x !in qs)
    && (forall x :: x in ps ==> x !in qs)
  }

  /** What a merge works on: the output so far, ending in tail, what is left of the first
      run, and the rest of the input. */
  ghost predicate Merging<T>(list: Node?<T>, tail: Node?<T>, out: seq<Node<T>>,
                             ps: seq<Node<T>>, q: Node?<T>, qs: seq<Node<T>>)
    reads out, ps, qs
  {
    && Apart(out, ps, qs)
    && list == First(out) && Linked(out)
    && tail == (if out == [] then null else out[|out| - 1])
    && Linked(ps)
    && q == First(qs) && forall i :: 0 <= i < |qs| ==> qs[i].next == Successor(qs, i)
  }

  /** Walks over the first run: q is left at its end. */
  method SplitRun<T>(p: Node<T>, size: nat, ghost s: seq<Node<T>>) returns (q: Node?<T>, psize: nat)
    requires size > 0 && IsList(p, s)
    ensures psize == Upto(|s|, size) && q == First(s[psize..])
  {
    q, psize := p, 0;
    for i := 0 to size
      invariant psize == i <= |s| && q == First(s[i..])
      invariant i < size ==> q != null
    {
      psize := psize + 1;
      q := q.next;
      if q == null { break; }
    }
  }

  /** Appends a node that has left the input to the output. */
  method Emit<T>(list: Node?<T>, tail: Node?<T>, e: Node<T>, ghost out: seq<Node<T>>,
                 ghost ps: seq<Node<T>>, q: Node?<T>, ghost qs: seq<Node<T>>, ghost nodes: set<Node<T>>)
    returns (newList: Node<T>)
    requires tail == null || tail in nodes
    requires Merging(list, tail, out, ps, q, qs)
    requires e !in out && e !in ps && e !in qs
    modifies nodes
    ensures Merging(newList, e, out + [e], ps, q, qs)
  {
    if tail != null {
      assert tail in out;
      tail.next := e;
      newList := list;
    } else {
      newList := e;
    }
  }

  /** Taking the head of the first run leaves a merge state without it. */
  lemma DropP<T>(list: Node?<T>, tail: Node?<T>, out: seq<Node<T>>, ps: seq<Node<T>>, q: Node?<T>, qs: seq<Node<T>>)
    requires Merging(list, tail, out, ps, q, qs) && ps != []
    ensures Merging(list, tail, out, ps[1..], q, qs)
    ensures ps[0] !in out && ps[0] !in ps[1..] && ps[0] !in qs
    ensures |ps| > 1 ==> ps[0].next == ps[1..][0]
  {
    assert ps[0] in ps;
  }

  lemma DropQ<T>(list: Node?<T>, tail: Node?<T>, out: seq<Node<T>>, ps: seq<Node<T>>, q: Node?<T>, qs: seq<Node<T>>)
    requires Merging(list, tail, out, ps, q, qs) && qs != []
    ensures q != null && Merging(list, tail, out, ps, q.next, qs[1..])
    ensures qs[0] !in out && qs[0] !in ps && qs[0] !in qs[1..]
  {
    assert qs[0] in qs;
    var rest := qs[1..];
    forall i | 0 <= i < |rest| ensures rest[i].next == Successor(rest, i) {
      assert rest[i] == qs[i + 1] && Successor(rest, i) == Successor(qs, i + 1);
    }
  }

  /** The merge takes from the first run. */
  lemma TakeP<T>(cmp: (T, T) -> int, goal: seq<Node<T>>, out: seq<Node<T>>, p: seq<Node<T>>, q: seq<Node<T>>)
    requires p != [] && (q == [] || cmp(p[0].value, q[0].value) <= 0) && goal == out + Merge(cmp, p, q)
    ensures goal == out + [p[0]] + Merge(cmp, p[1..], q)
  {
    if q == [] {
      assert Merge(cmp, p[1..], q) == p[1..];
      assert p == [p[0]] + p[1..];
    }
  }

  /** The merge takes from the second run. */
  lemma TakeQ<T>(cmp: (T, T) -> int, goal: seq<Node<T>>, out: seq<Node<T>>, p: seq<Node<T>>, q: seq<Node<T>>)
    requires q != [] && (p == [] || cmp(p[0].value, q[0].value) > 0) && goal == out + Merge(cmp, p, q)
    ensures goal == out + [q[0]] + Merge(cmp, p, q[1..])
  {
    if p == [] { assert q == [q[0]] + q[1..]; }
  }

  /** What a merge keeps: the state on the heap, and the output it leads to. */
  ghost predicate MergingTo<T>(cmp: (T, T) -> int, goal: seq<Node<T>>, rest: seq<Node<T>>, out: seq<Node<T>>,
                               p: Node?<T>, psize: int, ps: seq<Node<T>>, qsize: int, qs: seq<Node<T>>)
  {
    && |ps| == psize && (psize > 0 ==> p == ps[0])
    && qsize >= 0 && qs[Upto(|qs|, qsize)..] == rest
    && goal == out + Merge(cmp, ps, qs[..Upto(|qs|, qsize)])
  }

  /** Takes the next node from one of the two runs. */
  method TakeNext<T(!new)>(cmp: (T, T) -> int, list: Node?<T>, tail: Node?<T>, p0: Node?<T>, psize0: nat, q0: Node?<T>, qsize0: nat,
                           ghost goal: seq<Node<T>>, ghost rest: seq<Node<T>>,
                           ghost out: seq<Node<T>>, ghost ps0: seq<Node<T>>, ghost qs0: seq<Node<T>>)
    returns (e: Node<T>, p: Node?<T>, psize: nat, q: Node?<T>, qsize: nat, ghost ps: seq<Node<T>>, ghost qs: seq<Node<T>>)
    requires Merging(list, tail, out, ps0, q0, qs0) && MergingTo(cmp, goal, rest, out, p0, psize0, ps0, qsize0, qs0)
    requires psize0 > 0 || (qsize0 > 0 && q0 != null)
    ensures Merging(list, tail, out, ps, q, qs) && MergingTo(cmp, goal, rest, out + [e], p, psize, ps, qsize, qs)
    ensures e !in out && e !in ps && e !in qs && psize + qsize < psize0 + qsize0
    ensures (e in ps0 || e in qs0) && (forall x :: x in ps ==> x in ps0) && (forall x :: x in qs ==> x in qs0)
  {
    p, psize, q, qsize, ps, qs := p0, psize0, q0, qsize0, ps0, qs0;
    if psize > 0 && (qsize == 0 || q == null || cmp(p.value, q.value) <= 0) {
      DropP(list, tail, out, ps, q, qs);
      TakeP(cmp, goal, out, ps, qs[..Upto(|qs|, qsize)]);
      e, p, psize := p, p.next, psize - 1;
      ps := ps[1..];
    } else {
      DropQ(list, tail, out, ps, q, qs);
      TakeQ(cmp, goal, out, ps, qs[..Upto(|qs|, qsize)]);
      TakeRest(qs, qsize);
      e, q, qsize := q, q.next, qsize - 1;
      qs := qs[1..];
    }
  }

  /** Merges the run ps with the run of at most `size` nodes at q. */
  method MergeRuns<T(!new)>(cmp: (T, T) -> int, list0: Node?<T>, tail0: Node?<T>, p0: Node<T>, psize0: nat, q0: Node?<T>, size: nat,
                            ghost out0: seq<Node<T>>, ghost ps0: seq<Node<T>>, ghost qs0: seq<Node<T>>, ghost nodes: set<Node<T>>)
    returns (list: Node?<T>, tail: Node?<T>, q: Node?<T>, ghost out: seq<Node<T>>)
    requires Merging(list0, tail0, out0, ps0, q0, qs0) && |ps0| == psize0 > 0 && p0 == ps0[0]
    requires forall x :: x in out0 || x in ps0 || x in qs0 ==> x in nodes
    modifies nodes
    ensures var k := Upto(|qs0|, size);
            && Merging(list, tail, out, [], q, qs0[k..])
            && (forall x :: x in out ==> x in nodes)
            && out == out0 + Merge(cmp, ps0, qs0[..k])
  {
    list, tail, q, out := list0, tail0, q0, out0;
    var p: Node?<T>, psize, qsize := p0, psize0, size;
    ghost var ps, qs := ps0, qs0;
    ghost var goal, rest := out0 + Merge(cmp, ps0, qs0[..Upto(|qs0|, size)]), qs0[Upto(|qs0|, size)..];
    while psize > 0 || (qsize > 0 && q != null)
      invariant Merging(list, tail, out, ps, q, qs) && MergingTo(cmp, goal, rest, out, p, psize, ps, qsize, qs)
      invariant forall x :: x in out || x in ps || x in qs ==> x in nodes
      decreases psize + qsize
    {
      var e;
      e, p, psize, q, qsize, ps, qs := TakeNext(cmp, list, tail, p, psize, q, qsize, goal, rest, out, ps, qs);
      list := Emit(list, tail, e, out, ps, q, qs, nodes);
      tail, out := e, out + [e];
    }
  }

  lemma TakeRest<T>(qs: seq<Node<T>>, qsize: nat)
    requires qs != [] && qsize > 0
    ensures var k := Upto(|qs|, qsize);
            Upto(|qs| - 1, qsize - 1) == k - 1 && qs[1..][..k - 1] == qs[..k][1..] && qs[1..][k - 1..] == qs[k..]
  {}

  /** A list, cut after k nodes, is the start of a merge. */
  lemma StartMerge<T>(list: Node?<T>, tail: Node?<T>, out: seq<Node<T>>, p: Node<T>, s: seq<Node<T>>, k: nat)
    requires Merging(list, tail, out, [], p, s) && 0 < k <= |s|
    ensures Merging(list, tail, out, s[..k], First(s[k..]), s[k..])
    ensures IsList(p, s)
  {
    var qs := s[k..];
    forall i | 0 <= i < |qs| ensures qs[i].next == Successor(qs, i) {
      assert qs[i] == s[k + i] && Successor(qs, i) == Successor(s, k + i);
    }
    forall x | x in s[..k] ensures x !in qs {
      var i :| 0 <= i < k && s[i] == x;
    }
  }

  /** What is left of a list after a merge has taken two runs from it. */
  ghost function AfterPair<T>(s: seq<Node<T>>, size: nat): seq<Node<T>> {
    var rest := s[Upto(|s|, size)..];
    rest[Upto(|rest|, size)..]
  }

  /** Cuts the next two runs off the input and merges them onto the output. */
  method MergePair<T(!new)>(cmp: (T, T) -> int, list0: Node?<T>, tail0: Node?<T>, p0: Node<T>, size: nat,
                            ghost out0: seq<Node<T>>, ghost s: seq<Node<T>>, ghost nodes: set<Node<T>>)
    returns (list: Node?<T>, tail: Node?<T>, p: Node?<T>, ghost out: seq<Node<T>>)
    requires size > 0 && Merging(list0, tail0, out0, [], p0, s)
    requires forall x :: x in out0 || x in s ==> x in nodes
    modifies nodes
    ensures Merging(list, tail, out, [], p, AfterPair(s, size))
    ensures forall x :: x in out ==> x in nodes
    ensures out + Pass(cmp, AfterPair(s, size), size) == out0 + Pass(cmp, s, size)
  {
    ghost var k := Upto(|s|, size);
    StartMerge(list0, tail0, out0, p0, s, k);
    var q, psize := SplitRun(p0, size, s);
    PairInPass(cmp, out0, s, size);
    list, tail, p, out := MergeRuns(cmp, list0, tail0, p0, psize, q, size, out0, s[..k], s[k..], nodes);
  }

  lemma PairInPass<T>(cmp: (T, T) -> int, out: seq<Node<T>>, s: seq<Node<T>>, size: nat)
    requires size > 0 && s != []
    ensures var k, rest := Upto(|s|, size), s[Upto(|s|, size)..];
            out + Merge(cmp, s[..k], rest[..Upto(|rest|, size)]) + Pass(cmp, AfterPair(s, size), size) == out + Pass(cmp, s, size)
  {}

  lemma MergesStep<T>(s: seq<Node<T>>, size: nat)
    requires size > 0 && s != []
    ensures |AfterPair(s, size)| < |s| && Merges(|s|, size) == 1 + Merges(|AfterPair(s, size)|, size)
    ensures forall x :: x in AfterPair(s, size) ==> x in s
  {}

  /** Ends the output. */
  method Terminate<T>(list: Node?<T>, tail: Node?<T>, ghost r: seq<Node<T>>, ghost nodes: set<Node<T>>)
    requires Merging(list, tail, r, [], null, []) && forall x :: x in r ==> x in nodes
    modifies nodes
    ensures IsList(list, r)
  {
    if tail != null {
      assert tail in r;
      tail.next := null;
    }
  }

  /** One pass of the outer loop. */
  method MergePass<T(!new)>(cmp: (T, T) -> int, head: Node<T>, size: nat, ghost s: seq<Node<T>>, ghost nodes: set<Node<T>>)
    returns (list: Node?<T>, nmerges: nat, ghost r: seq<Node<T>>)
    requires size > 0 && IsList(head, s) && forall x :: x in s ==> x in nodes
    modifies nodes
    ensures r == Pass(cmp, s, size) && IsList(list, r)
    ensures nmerges == Merges(|s|, size)
    ensures forall x :: x in r ==> x in nodes
  {
    var p: Node?<T>, tail: Node?<T> := head, null;
    list, nmerges, r := null, 0, [];
    ghost var rest := s;
    while p != null
      invariant Merging(list, tail, r, [], p, rest)
      invariant r + Pass(cmp, rest, size) == Pass(cmp, s, size)
      invariant nmerges + Merges(|rest|, size) == Merges(|s|, size)
      invariant forall x :: x in r || x in rest ==> x in nodes
      decreases |rest|
    {
      nmerges := nmerges + 1;
      MergesStep(rest, size);
      list, tail, p, r := MergePair(cmp, list, tail, p, size, r, rest, nodes);
      rest := AfterPair(rest, size);
    }
    Terminate(list, tail, r, nodes);
  }

  /** A pass that makes at most one merge leaves a single run. */
  lemma {:induction false} OneMerge(n: nat, size: nat)
    requires size > 0
    ensures Merges(n, size) <= 1 <==> n <= 2 * size
  {
    if n > 0 {
      var rest := n - Upto(n, size) - Upto(n - Upto(n, size), size);
      assert rest == 0 <==> n <= 2 * size;
      assert rest > 0 ==> Merges(rest, size) >= 1;
    }
  }

  ghost function PlacesOf<T(!new)>(s: seq<Node<T>>): (at: Places<T>)
    requires Distinct(s)
    ensures forall i :: 0 <= i < |s| ==> s[i] in at && at[s[i]] == i
  {
    map x | x in s :: PlaceOf(s, x)
  }

  ghost function PlaceOf<T>(s: seq<Node<T>>, x: Node<T>): (i: int)
    requires x in s
    ensures 0 <= i < |s| && s[i] == x
  {
    var i :| 0 <= i < |s| && s[i] == x; i
  }

  /** Single nodes are runs. */
  lemma {:induction false} SinglesAreRuns<T(!new)>(cmp: (T, T) -> int, at: Places<T>, s: seq<Node<T>>, base: int)
    requires forall i :: 0 <= i < |s| ==> s[i] in at && at[s[i]] == base + i
    ensures Runs(cmp, at, s, 1, base)
    decreases |s|
  {
    if s != [] {
      SinglesAreRuns(cmp, at, s[1..], base + 1);
      assert s[..1] == [s[0]];
    }
  }

  /** r is s sorted: the same nodes, in order, and nodes that compare equal keep the order
      they had. */
  ghost predicate Sorts<T(!new)>(cmp: (T, T) -> int, s: seq<Node<T>>, r: seq<Node<T>>) {
    && multiset(r) == multiset(s)
    && (forall i, j :: 0 <= i < j < |r| ==> cmp(r[i].value, r[j].value) <= 0)
    && (forall i, j, a, b :: 0 <= i < j < |r| && 0 <= a < |s| && 0 <= b < |s| && r[i] == s[a] && r[j] == s[b] ==>
          cmp(r[j].value, r[i].value) <= 0 ==> a < b)
  }

  /** A single run of all the nodes is the sorted list. */
  lemma OneRunSorts<T(!new)>(cmp: (T, T) -> int, s: seq<Node<T>>, r: seq<Node<T>>, size: nat)
    requires Distinct(s) && size > 0 && multiset(r) == multiset(s) && |r| <= size
    requires Runs(cmp, PlacesOf(s), r, size, 0)
    ensures Sorts(cmp, s, r)
  {
    var at := PlacesOf(s);
    RunsSplit(cmp, at, r, size, 0);
    assert r[..|r|] == r;
    assert Ordered(cmp, at, r);
    forall i, j | 0 <= i < j < |r| ensures cmp(r[i].value, r[j].value) <= 0 {
      assert Before(cmp, at, r[i], r[j]);
    }
    forall i, j, a, b | 0 <= i < j < |r| && 0 <= a < |s| && 0 <= b < |s| && r[i] == s[a] && r[j] == s[b]
      ensures cmp(r[j].value, r[i].value) <= 0 ==> a < b
    {
      assert Before(cmp, at, r[i], r[j]);
    }
  }

  /** What one more pass makes of the runs, and what its number of merges says. */
  lemma OnePassMore<T(!new)>(cmp: (T, T) -> int, s: seq<Node<T>>, r: seq<Node<T>>, size: nat)
    requires Distinct(s) && size > 0 && IsOrder(cmp) && multiset(r) == multiset(s) && Runs(cmp, PlacesOf(s), r, size, 0)
    ensures multiset(Pass(cmp, r, size)) == multiset(s)
    ensures Runs(cmp, PlacesOf(s), Pass(cmp, r, size), 2 * size, 0)
    ensures Merges(|r|, size) <= 1 <==> |r| <= 2 * size
  {
    PassDoublesRuns(cmp, PlacesOf(s), r, size, 0);
    PassPermutes(cmp, r, size);
    OneMerge(|r|, size);
  }

  lemma SameNodes<T>(s: seq<Node<T>>, r: seq<Node<T>>)
    requires multiset(r) == multiset(s)
    ensures |r| == |s| && forall x :: x in r ==> x in s
  {
    assert |r| == |multiset(r)|;
    forall x | x in r ensures x in s { assert x in multiset(r); }
  }

  /** A stage of the sort: the same nodes, in runs of the given size. */
  ghost predicate Stage<T(!new)>(cmp: (T, T) -> int, s: seq<Node<T>>, list: Node?<T>, r: seq<Node<T>>, size: nat)
    requires Distinct(s) && size > 0
    reads r
  {
    IsList(list, r) && multiset(r) == multiset(s) && Runs(cmp, PlacesOf(s), r, size, 0)
  }

  /** One turn of the outer loop. */
  method SortPass<T(!new)>(cmp: (T, T) -> int, list0: Node<T>, insize: nat, ghost s: seq<Node<T>>, ghost r0: seq<Node<T>>, ghost nodes: set<Node<T>>)
    returns (list: Node?<T>, nmerges: nat, ghost r: seq<Node<T>>)
    requires Distinct(s) && insize > 0 && IsOrder(cmp) && Stage(cmp, s, list0, r0, insize)
    requires forall x :: x in s ==> x in nodes
    modifies nodes
    ensures Stage(cmp, s, list, r, 2 * insize) && (nmerges <= 1 <==> |s| <= 2 * insize)
  {
    SameNodes(s, r0);
    OnePassMore(cmp, s, r0, insize);
    list, nmerges, r := MergePass(cmp, list0, insize, r0, nodes);
  }

  /** Sorts a list in place. */
  method Sort<T(!new)>(head: Node?<T>, cmp: (T, T) -> int, ghost s: seq<Node<T>>)
    returns (list: Node?<T>, ghost r: seq<Node<T>>)
    requires IsList(head, s) && IsOrder(cmp)
    modifies s
    ensures IsList(list, r) && Sorts(cmp, s, r)
  {
    list, r := head, s;
    if list != null {
      ghost var nodes := set x | x in s;
      SinglesAreRuns(cmp, PlacesOf(s), s, 0);
      var insize, looping := 1, true;
      while looping
        invariant insize > 0 && Stage(cmp, s, list, r, insize) && list != null
        invariant !looping ==> |s| <= insize
        decreases looping, |s| - insize
      {
        var nmerges;
        SameNodes(s, r);
        list, nmerges, r := SortPass(cmp, list, insize, s, r, nodes);
        SameNodes(s, r);
        if nmerges <= 1 { looping := false; }
        insize := insize * 2;
      }
      SameNodes(s, r);
      OneRunSorts(cmp, s, r, insize);
    }
  }
}
