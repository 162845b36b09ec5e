/** The allocation ledger of a client and the memory checks based on it. */
module Allocations {
  import opened UtList

  const RESERVE: nat := 1536 * 1024 * 1024
  const SIZE_MODULUS: nat := 0x1_0000_0000_0000_0000

  datatype Allocation = Allocation(ptr: nat, size: nat)

  /** What the client keeps; `reported` is the usage it told the scheduler last. */
  datatype Ledger = Ledger(
    entries: seq<Allocation>,
    sum: int,
    reported: int,
    limit: nat,             // 0: no limit
    allocatable: nat,       // what the first allocation found to be free
    gotAllocatable: bool,
    oversubscribe: bool)

  function Total(a: seq<Allocation>): nat {
    if a == [] then 0 else a[0].size + Total(a[1..])
  }

  /** The entries that do not start at ptr. */
  function Others(a: seq<Allocation>, ptr: nat): seq<Allocation> {
    if a == [] then [] else if a[0].ptr == ptr then Others(a[1..], ptr) else [a[0]] + Others(a[1..], ptr)
  }

  function Insert(b: Ledger, a: Allocation): Ledger {
    b.(entries := b.entries + [a], sum := b.sum + a.size, reported := b.sum + a.size)
  }

  /** The ledger after the entries that start at ptr are gone. */
  function Remove(b: Ledger, ptr: nat): Ledger {
    var rest := Others(b.entries, ptr);
    var sum := b.sum - Total(b.entries) + Total(rest);
    b.(entries := rest, sum := sum, reported := if |rest| == |b.entries| then b.reported else sum)
  }

  /** The free memory cuMemGetInfo reports, when the device has `total`. */
  function Free(b: Ledger, total: nat): nat {
    if b.limit > 0 then if b.limit > b.sum then b.limit - b.sum else 0
    else if total >= RESERVE then total - RESERVE
    else (total - RESERVE) % SIZE_MODULUS
  }

  /** With a limit the client is told what the limit leaves, without one what the device has
      but for 1536 MiB, as a 64-bit number that wraps around on a smaller device. */
  lemma FreeMeans(b: Ledger, total: nat)
    requires total < 0x1_0000_0000_0000_0000
    ensures b.limit > 0 ==> Free(b, total) == if b.sum <= b.limit then b.limit - b.sum else 0
    ensures b.limit == 0 && total >= 0x6000_0000 ==> Free(b, total) + 0x6000_0000 == total
    ensures b.limit == 0 && total < 0x6000_0000 ==> Free(b, total) + 0x6000_0000 == total + 0x1_0000_0000_0000_0000
  {
    assert total < RESERVE ==> (total - RESERVE + SIZE_MODULUS) % SIZE_MODULUS == (total - RESERVE) % SIZE_MODULUS;
  }

  /** The first allocation asks how much memory there is. */
  function Sized(b: Ledger, total: nat): Ledger {
    if b.gotAllocatable then b else b.(allocatable := Free(b, total), gotAllocatable := true)
  }

  /** The checks of cuMemAlloc. */
  predicate Passes(b: Ledger, size: nat) {
    && !(b.limit > 0 && b.sum + size > b.limit)
    && (b.sum + size > b.allocatable ==> b.oversubscribe)
  }

  /** An allocation; `driver` is the pointer the driver returns, if it succeeds. */
  function Alloc(b: Ledger, size: nat, total: nat, ok: bool, driver: nat): Ledger {
    var s := Sized(b, total);
    if Passes(s, size) && ok then Insert(s, Allocation(driver, size)) else s
  }

  /** An allocation is entered exactly if the driver grants it, the limit, if there is one,
      leaves room for it, and so does what the first allocation finds to be free, unless
      oversubscription is on; otherwise the entries stay as they are. */
  lemma AllocEnters(b: Ledger, size: nat, total: nat, ok: bool, driver: nat)
    ensures var free := if b.gotAllocatable then b.allocatable else Free(b, total);
            var fits := (b.limit == 0 || b.sum + size <= b.limit) && (b.oversubscribe || b.sum + size <= free);
            var r := Alloc(b, size, total, ok, driver);
            && r.entries == (if ok && fits then b.entries + [Allocation(driver, size)] else b.entries)
            && r.gotAllocatable && r.allocatable == free && r.limit == b.limit
  {}

  /** A free that the driver grants takes exactly the entries that start at the pointer off; any
      other changes nothing. */
  lemma FreeRemoves(b: Ledger, ptr: nat, ok: bool, x: Allocation)
    ensures x in Step(b, Release(ptr, ok)).entries <==> x in b.entries && (ok ==> x.ptr != ptr)
    ensures !ok ==> Step(b, Release(ptr, ok)) == b
  {
    OthersHolds(b.entries, ptr, x);
  }

  lemma {:induction false} OthersHolds(a: seq<Allocation>, ptr: nat, x: Allocation)
    ensures x in Others(a, ptr) <==> x in a && x.ptr != ptr
  {
    if a != [] {
      OthersHolds(a[1..], ptr, x);
      assert a == [a[0]] + a[1..];
    }
  }

  lemma {:induction false} TotalAppend(a: seq<Allocation>, x: Allocation)
    ensures Total(a + [x]) == Total(a) + x.size
  {
    if a != [] {
      TotalAppend(a[1..], x);
      assert (a + [x])[1..] == a[1..] + [x];
    }
  }

  lemma {:induction false} OthersAppend(a: seq<Allocation>, x: Allocation, ptr: nat)
    ensures Others(a + [x], ptr) == Others(a, ptr) + if x.ptr == ptr then [] else [x]
  {
    if a != [] {
      OthersAppend(a[1..], x, ptr);
      assert (a + [x])[1..] == a[1..] + [x];
    }
  }

  lemma {:induction false} OthersShorter(a: seq<Allocation>, ptr: nat)
    ensures |Others(a, ptr)| <= |a| && Total(Others(a, ptr)) <= Total(a)
    ensures |Others(a, ptr)| == |a| ==> Others(a, ptr) == a
    ensures (forall x :: x in a ==> x.ptr != ptr) <==> |Others(a, ptr)| == |a|
  {
    if a != [] {
      OthersShorter(a[1..], ptr);
      assert a == [a[0]] + a[1..];
    }
  }

  // ---------------------------------------------------------------- the linked ledger

  ghost function Values(s: seq<Node<Allocation>>): (v: seq<Allocation>)
    ensures |v| == |s|
  {
    if s == [] then [] else [s[0].value] + Values(s[1..])
  }

  lemma {:induction false} ValuesAppend(s: seq<Node<Allocation>>, x: Node<Allocation>)
    ensures Values(s + [x]) == Values(s) + [x.value]
  {
    if s != [] {
      ValuesAppend(s[1..], x);
      assert (s + [x])[1..] == s[1..] + [x];
    }
  }

  /** The nodes that do not start at ptr. */
  ghost function Kept(s: seq<Node<Allocation>>, ptr: nat): (r: seq<Node<Allocation>>)
    ensures |r| <= |s|
  {
    if s == [] then [] else
      (if s[0].value.ptr == ptr then [] else [s[0]]) + Kept(s[1..], ptr)
  }

  /** How much the nodes that start at ptr add up to. */
  ghost function Gone(s: seq<Node<Allocation>>, ptr: nat): nat {
    if s == [] then 0 else
      (if s[0].value.ptr == ptr then s[0].value.size else 0) + Gone(s[1..], ptr)
  }

  lemma {:induction false} KeptIsOthers(s: seq<Node<Allocation>>, ptr: nat)
    ensures Values(Kept(s, ptr)) == Others(Values(s), ptr)
    ensures Total(Values(s)) == Total(Others(Values(s), ptr)) + Gone(s, ptr)
  {
    if s != [] {
      KeptIsOthers(s[1..], ptr);
      var rest := Kept(s[1..], ptr);
      assert ([s[0]] + rest)[1..] == rest;
      assert Kept(s, ptr) == if s[0].value.ptr == ptr then rest else [s[0]] + rest;
      assert Values(s)[1..] == Values(s[1..]);
    }
  }

  lemma NextInList(list: Node?<Allocation>, done: seq<Node<Allocation>>, todo: seq<Node<Allocation>>)
    requires IsList(list, done + todo) && todo != []
    ensures todo[0].next == First(todo[1..])
  {
    var s := done + todo;
    assert s[|done|] == todo[0] && Successor(s, |done|) == First(todo[1..]);
  }

  class Tracker {
    var list: Node?<Allocation>
    var sumAllocated: int
    var reported: int
    var limit: nat
    var allocatable: nat
    var gotAllocatable: bool
    const oversubscribe: bool
    ghost var nodes: seq<Node<Allocation>>

    ghost predicate Valid()
      reads this, nodes
    {
      IsList(list, nodes)
    }

    ghost function View(): Ledger
      reads this
    {
      Ledger(Values(nodes), sumAllocated, reported, limit, allocatable, gotAllocatable, oversubscribe)
    }

    constructor (limit: nat, oversubscribe: bool)
      ensures Valid() && View() == Ledger([], 0, 0, limit, 0, false, oversubscribe)
      ensures nodes == []
    {
      list, nodes, sumAllocated, reported := null, [], 0, 0;
      this.limit, allocatable, gotAllocatable := limit, 0, false;
      this.oversubscribe := oversubscribe;
    }

    method InsertAllocation(ptr: nat, size: nat)
      requires Valid()
      modifies this, nodes
      ensures Valid() && View() == Insert(old(View()), Allocation(ptr, size))
      ensures forall x :: x in nodes ==> x in old(nodes) || fresh(x)
    {
      var l, allocation := AppendNew(list, Allocation(ptr, size), nodes);
      ValuesAppend(nodes, allocation);
      Update(l, sumAllocated + size, sumAllocated + size, nodes + [allocation]);
    }

    method Update(l: Node?<Allocation>, sum: int, report: int, ghost s: seq<Node<Allocation>>)
      requires IsList(l, s)
      modifies this
      ensures Valid() && nodes == s
      ensures View() == old(View()).(entries := Values(s), sum := sum, reported := report)
    {
      list, sumAllocated, reported, nodes := l, sum, report, s;
    }

    /** Takes the entries that start at ptr off the list. */
    method RemoveAllocation(ptr: nat)
      requires Valid()
      modifies this, nodes
      ensures Valid() && View() == Remove(old(View()), ptr)
      ensures forall x :: x in nodes ==> x in old(nodes)
    {
      KeptIsOthers(nodes, ptr);
      var l, sum, report := RemoveLoop(list, sumAllocated, reported, ptr, nodes);
      Update(l, sum, report, Kept(nodes, ptr));
    }

    method MemGetInfo(deviceTotal: nat) returns (free: nat, total: nat)
      ensures free == Free(View(), deviceTotal)
      ensures total == if limit > 0 then limit else deviceTotal
    {
      if limit > 0 {
        total := limit;
        free := if limit > sumAllocated then limit - sumAllocated else 0;
      } else {
        total := deviceTotal;
        free := if deviceTotal >= RESERVE then deviceTotal - RESERVE else (deviceTotal - RESERVE) % SIZE_MODULUS;
      }
    }

    method MemAlloc(size: nat, deviceTotal: nat, driverOk: bool, driverPtr: nat) returns (ok: bool)
      requires Valid()
      modifies this, nodes
      ensures Valid() && View() == Alloc(old(View()), size, deviceTotal, driverOk, driverPtr)
      ensures ok == (driverOk && Passes(Sized(old(View()), deviceTotal), size))
      ensures forall x :: x in nodes ==> x in old(nodes) || fresh(x)
    {
      if !gotAllocatable {
        var free, _ := MemGetInfo(deviceTotal);
        allocatable, gotAllocatable := free, true;
      }
      if limit > 0 && sumAllocated + size > limit {
        return false;
      }
      if sumAllocated + size > allocatable && !oversubscribe {
        return false;
      }
      ok := driverOk;
      if ok { InsertAllocation(driverPtr, size); }
    }

    method MemFree(ptr: nat, driverOk: bool)
      requires Valid()
      modifies this, nodes
      ensures Valid() && View() == Step(old(View()), Release(ptr, driverOk))
      ensures forall x :: x in nodes ==> x in old(nodes)
    {
      if driverOk { RemoveAllocation(ptr); }
    }

    method UpdateMemoryLimit(newLimit: nat)
      requires Valid()
      modifies this
      ensures Valid() && View() == Step(old(View()), UpdateLimit(newLimit)) && nodes == old(nodes)
    {
      limit := newLimit;
    }
  }

  /** Appends a new entry to the list. */
  method AppendNew(list: Node?<Allocation>, a: Allocation, ghost s: seq<Node<Allocation>>)
    returns (newList: Node?<Allocation>, ghost node: Node<Allocation>)
    requires IsList(list, s)
    modifies s
    ensures IsList(newList, s + [node]) && node.value == a && fresh(node)
  {
    var allocation := new Node(a);
    newList := Append(list, allocation, s);
    node := allocation;
  }

  /** How far the loop has come: `done` was visited and kept, `todo` is still to be visited. */
  ghost predicate Removing(all: seq<Node<Allocation>>, done: seq<Node<Allocation>>, todo: seq<Node<Allocation>>, ptr: nat,
                           sum0: int, sum: int, reported0: int, reported: int)
  {
    && done + Kept(todo, ptr) == Kept(all, ptr)
    && sum - Gone(todo, ptr) == sum0 - Gone(all, ptr)
    && |done| + |todo| <= |all|
    && reported == if |done| + |todo| == |all| then reported0 else sum
  }

  lemma RemovingEnds(all: seq<Node<Allocation>>, done: seq<Node<Allocation>>, ptr: nat, sum0: int, sum: int, reported0: int, reported: int)
    requires Removing(all, done, [], ptr, sum0, sum, reported0, reported)
    ensures done == Kept(all, ptr) && done + [] == done && sum == sum0 - Gone(all, ptr)
    ensures reported == if |Kept(all, ptr)| == |all| then reported0 else sum
  {
    assert Kept([], ptr) == [];
  }

  method RemoveLoop(list0: Node?<Allocation>, sum0: int, reported0: int, ptr: nat, ghost all: seq<Node<Allocation>>)
    returns (list: Node?<Allocation>, sum: int, reported: int)
    requires IsList(list0, all)
    modifies all
    ensures IsList(list, Kept(all, ptr)) && sum == sum0 - Gone(all, ptr)
    ensures reported == if |Kept(all, ptr)| == |all| then reported0 else sum
    ensures forall x :: x in Kept(all, ptr) ==> x in all
  {
    list, sum, reported := list0, sum0, reported0;
    var a := list;
    ghost var done: seq<Node<Allocation>> := [];
    ghost var todo := all;
    ghost var nodes := set x | x in all;
    assert done + todo == all && done + Kept(todo, ptr) == Kept(all, ptr);
    while a != null
      invariant IsList(list, done + todo) && a == First(todo)
      invariant Removing(all, done, todo, ptr, sum0, sum, reported0, reported)
      invariant forall x :: x in done + todo ==> x in nodes
      decreases |todo|
    {
      a, list, sum, reported, done := Visit(list, a, sum, reported, ptr, done, todo, nodes);
      todo := todo[1..];
    }
    assert todo == [];
    RemovingEnds(all, done, ptr, sum0, sum, reported0, reported);
  }

  /** One round: the entry is taken off if it starts at ptr. */
  method Visit(list0: Node?<Allocation>, a: Node<Allocation>, sum0: int, reported0: int, ptr: nat,
               ghost done: seq<Node<Allocation>>, ghost todo: seq<Node<Allocation>>, ghost nodes: set<Node<Allocation>>)
    returns (tmp: Node?<Allocation>, list: Node?<Allocation>, sum: int, reported: int,
             ghost seen: seq<Node<Allocation>>)
    requires IsList(list0, done + todo) && todo != [] && a == todo[0]
    requires forall x :: x in done + todo ==> x in nodes
    modifies nodes
    ensures tmp == First(todo[1..])
    ensures seen == (if a.value.ptr == ptr then done else done + [a]) && IsList(list, seen + todo[1..])
    ensures seen + Kept(todo[1..], ptr) == done + Kept(todo, ptr)
    ensures forall x :: x in seen + todo[1..] ==> x in done + todo
    ensures sum == sum0 - if a.value.ptr == ptr then a.value.size else 0
    ensures reported == if a.value.ptr == ptr then sum else reported0
  {
    NextInList(list0, done, todo);
    assert done + [a] + todo[1..] == done + todo;
    tmp, list, sum, reported, seen := a.next, list0, sum0, reported0, done + [a];
    if a.value.ptr == ptr {
      sum := sum - a.value.size;
      list := Unlink(list, a, done + todo, done, todo[1..]);
      reported := sum;
      seen := done;
    }
  }

  // ---------------------------------------------------------------- whole runs

  /** What a client does with memory, with what the driver answers. */
  datatype Event =
    | Allocate(size: nat, total: nat, ok: bool, ptr: nat)
    | Release(ptr: nat, ok: bool)
    | UpdateLimit(limit: nat)

  function Step(b: Ledger, e: Event): Ledger {
    match e
    case Allocate(size, total, ok, ptr) => Alloc(b, size, total, ok, ptr)
    case Release(ptr, ok) => if ok then Remove(b, ptr) else b
    case UpdateLimit(limit) => b.(limit := limit)
  }

  function New(limit: nat, oversubscribe: bool): Ledger {
    Ledger([], 0, 0, limit, 0, false, oversubscribe)
  }

  function After(b: Ledger, run: seq<Event>): Ledger
    decreases |run|
  {
    if run == [] then b else Step(After(b, run[..|run| - 1]), run[|run| - 1])
  }

  /** Whatever is allocated, freed and reconfigured, the sum is the total of the listed sizes
      and what the scheduler was told last. */
  lemma {:induction false} SumIsTotal(limit: nat, oversubscribe: bool, run: seq<Event>)
    ensures var b := After(New(limit, oversubscribe), run);
            b.sum == Total(b.entries) == b.reported
    decreases |run|
  {
    if run != [] {
      var e := run[|run| - 1];
      var b := After(New(limit, oversubscribe), run[..|run| - 1]);
      SumIsTotal(limit, oversubscribe, run[..|run| - 1]);
      match e
      case Allocate(size, total, ok, ptr) => TotalAppend(b.entries, Allocation(ptr, size));
      case Release(ptr, ok) => OthersShorter(b.entries, ptr);
      case UpdateLimit(_) =>
    }
  }

  /** A limit that is set at the start and not changed is never exceeded, and it is what the
      first allocation finds to be free. */
  lemma {:induction false} LimitHolds(limit: nat, oversubscribe: bool, run: seq<Event>)
    requires limit > 0 && forall i :: 0 <= i < |run| ==> !run[i].UpdateLimit?
    ensures var b := After(New(limit, oversubscribe), run);
            && b.limit == limit && b.oversubscribe == oversubscribe
            && b.sum <= limit && (if b.gotAllocatable then b.allocatable == limit else b.sum == 0 && b.entries == [])
    decreases |run|
  {
    if run != [] {
      var n := |run| - 1;
      var b := After(New(limit, oversubscribe), run[..n]);
      LimitHolds(limit, oversubscribe, run[..n]);
      assert !run[n].UpdateLimit?;
      if run[n].Release? { OthersShorter(b.entries, run[n].ptr); }
    }
  }

  /** The checks of an allocation agree with the free memory that the client is told. */
  ghost predicate Agrees(b: Ledger, total: nat) {
    forall size: nat :: Passes(Sized(b, total), size) <==> size <= Free(b, total)
  }

  /** With a limit that is set at the start and not changed, cuMemAlloc lets through exactly
      the sizes up to the free amount that cuMemGetInfo reports. */
  lemma AllocMatchesInfo(limit: nat, oversubscribe: bool, run: seq<Event>, total: nat)
    requires limit > 0 && forall i :: 0 <= i < |run| ==> !run[i].UpdateLimit?
    ensures Agrees(After(New(limit, oversubscribe), run), total)
  {
    LimitHolds(limit, oversubscribe, run);
  }

  /** In every state with a limit, they agree exactly when the limit is not below what is
      allocated and not above what the first allocation saw, or sees now. */
  lemma AgreesWithLimit(b: Ledger, total: nat)
    requires b.limit > 0 && b.sum >= 0
    ensures Agrees(b, total)
            <==> b.sum <= b.limit && (b.oversubscribe || b.limit <= Sized(b, total).allocatable)
  {
    if Agrees(b, total) {
      assert Passes(Sized(b, total), 0) <==> 0 <= Free(b, total);
      var rest := Free(b, total);
      assert Passes(Sized(b, total), rest) <==> rest <= Free(b, total);
    }
  }

  /** In every state without a limit, they agree exactly when oversubscription is off and the
      sum makes up the difference between the amount seen first and the amount reported now.
      The reported amount does not depend on what is allocated, so on a device whose total
      does not change that is when nothing is allocated. */
  lemma AgreesWithoutLimit(b: Ledger, total: nat)
    requires b.limit == 0 && b.sum >= 0
    ensures Agrees(b, total)
            <==> !b.oversubscribe && b.sum + Free(b, total) == Sized(b, total).allocatable
  {
    if Agrees(b, total) {
      var free := Free(b, total);
      assert Passes(Sized(b, total), free) <==> free <= Free(b, total);
      assert Passes(Sized(b, total), free + 1) <==> free + 1 <= Free(b, total);
    }
  }

  /** Raising the limit later reports memory that cannot be allocated. */
  lemma RaisedLimitIsNotUsable()
    ensures var run := [Allocate(1, 4096, true, 7), UpdateLimit(20)];
            var b := After(New(10, false), run);
            Free(b, 4096) == 19 && !Passes(b, 10)
  {
    var run := [Allocate(1, 4096, true, 7), UpdateLimit(20)];
    var first := run[..1];
    assert first[..0] == [];
    assert After(New(10, false), first) == Step(New(10, false), run[0]);
  }

  /** Freeing a fresh pointer undoes its allocation. */
  lemma FreeUndoesAlloc(b: Ledger, size: nat, total: nat, ptr: nat)
    requires b.gotAllocatable && Passes(b, size) && b.reported == b.sum
    requires forall a :: a in b.entries ==> a.ptr != ptr
    ensures Remove(Alloc(b, size, total, true, ptr), ptr) == b
  {
    var x := Allocation(ptr, size);
    OthersAppend(b.entries, x, ptr);
    OthersShorter(b.entries, ptr);
    assert Others(b.entries + [x], ptr) == b.entries;
    TotalAppend(b.entries, x);
  }
}
