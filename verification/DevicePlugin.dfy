/** The choice of virtual devices for a container: from the least loaded GPU first. */
module DevicePlugin {

  // ---------------------------------------------------------------- device identifiers

  /** "__" stands at position i. */
  predicate SeparatorAt(s: string, i: int) {
    0 <= i < |s| - 1 && s[i] == '_' && s[i + 1] == '_'
  }

  /** The parts of s between separators, found from the left. */
  function Split(s: string, from: nat, i: nat): (parts: seq<string>)
    requires from <= i <= |s|
    decreases |s| - i
  {
    if i == |s| then [s[from..]]
    else if SeparatorAt(s, i) then [s[from..i]] + Split(s, i + 2, i + 2)
    else Split(s, from, i + 1)
  }

  /** A device identifier has two parts; the first one names the GPU. */
  predicate WellFormed(id: string) {
    |Split(id, 0, 0)| == 2
  }

  function Uuid(id: string): string
    requires WellFormed(id)
  {
    Split(id, 0, 0)[0]
  }

  predicate On(id: string, gpu: string) {
    WellFormed(id) && Uuid(id) == gpu
  }

  lemma {:induction false} SplitsApart(s: string, from: nat, i: nat, at: nat)
    requires from <= i <= at < |s| && SeparatorAt(s, at)
    requires forall k :: i <= k < at ==> !SeparatorAt(s, k)
    requires forall k :: at + 2 <= k < |s| ==> !SeparatorAt(s, k)
    ensures Split(s, from, i) == [s[from..at], s[at + 2..]]
    decreases at - i
  {
    if i < at {
      SplitsApart(s, from, i + 1, at);
    } else {
      NoSeparator(s, at + 2, at + 2);
    }
  }

  lemma {:induction false} NoSeparator(s: string, from: nat, i: nat)
    requires from <= i <= |s| && forall k :: i <= k < |s| ==> !SeparatorAt(s, k)
    ensures Split(s, from, i) == [s[from..]]
    decreases |s| - i
  {
    if i < |s| { NoSeparator(s, from, i + 1); }
  }

  /** An identifier made of a GPU's name and an ordinal, neither with an underscore, names
      that GPU. */
  lemma MadeIdentifier(gpu: string, ordinal: string)
    requires '_' !in gpu && '_' !in ordinal
    ensures On(gpu + "__" + ordinal, gpu)
  {
    var id := gpu + "__" + ordinal;
    assert id[..|gpu|] == gpu;
    assert forall k :: 0 <= k < |gpu| ==> id[k] in gpu;
    assert forall k :: |gpu| + 2 <= k < |id| ==> id[k] in ordinal;
    SplitsApart(id, 0, 0, |gpu|);
  }

  // ---------------------------------------------------------------- groups

  /** The identifiers of one GPU, in order. */
  function Of(ids: seq<string>, gpu: string): seq<string> {
    if ids == [] then []
    else Of(ids[..|ids| - 1], gpu) + if On(ids[|ids| - 1], gpu) then [ids[|ids| - 1]] else []
  }

  /** The well-formed identifiers. */
  function Formed(ids: seq<string>): seq<string> {
    if ids == [] then []
    else Formed(ids[..|ids| - 1]) + if WellFormed(ids[|ids| - 1]) then [ids[|ids| - 1]] else []
  }

  lemma {:induction false} OfCounts(ids: seq<string>, gpu: string, id: string)
    ensures multiset(Of(ids, gpu))[id] == if On(id, gpu) then multiset(ids)[id] else 0
  {
    if ids != [] {
      OfCounts(ids[..|ids| - 1], gpu, id);
      assert ids == ids[..|ids| - 1] + [ids[|ids| - 1]];
    }
  }

  lemma {:induction false} FormedCounts(ids: seq<string>, id: string)
    ensures multiset(Formed(ids))[id] == if WellFormed(id) then multiset(ids)[id] else 0
  {
    if ids != [] {
      FormedCounts(ids[..|ids| - 1], id);
      assert ids == ids[..|ids| - 1] + [ids[|ids| - 1]];
    }
  }

  predicate Distinct(s: seq<string>) {
    forall i, j :: 0 <= i < j < |s| ==> s[i] != s[j]
  }

  /** order names every GPU that has an available device, once; the order is arbitrary, as
      the iteration over a map is. */
  ghost predicate Enumerates(order: seq<string>, ids: seq<string>) {
    && Distinct(order)
    && forall u :: u in order <==> Of(ids, u) != []
  }

  /** The groups of the GPUs, one after the other. */
  function Concat(ids: seq<string>, order: seq<string>): seq<string> {
    if order == [] then []
    else Concat(ids, order[..|order| - 1]) + Of(ids, order[|order| - 1])
  }

  lemma {:induction false} ConcatCounts(ids: seq<string>, order: seq<string>, id: string)
    requires Distinct(order)
    ensures multiset(Concat(ids, order))[id] == if WellFormed(id) && Uuid(id) in order then multiset(ids)[id] else 0
  {
    if order != [] {
      var n := |order| - 1;
      assert order == order[..n] + [order[n]];
      ConcatCounts(ids, order[..n], id);
      OfCounts(ids, order[n], id);
    }
  }

  /** Whatever the order, the groups hold exactly the well-formed identifiers. */
  lemma ConcatHoldsAll(ids: seq<string>, order: seq<string>)
    requires Enumerates(order, ids)
    ensures multiset(Concat(ids, order)) == multiset(Formed(ids))
    ensures |Concat(ids, order)| == |Formed(ids)|
  {
    forall id: string ensures multiset(Concat(ids, order))[id] == multiset(Formed(ids))[id] {
      ConcatCounts(ids, order, id);
      FormedCounts(ids, id);
      if WellFormed(id) { OfCounts(ids, Uuid(id), id); }
    }
    assert multiset(Concat(ids, order)) == multiset(Formed(ids));
    assert |multiset(Concat(ids, order))| == |multiset(Formed(ids))|;
  }

  lemma {:induction false} ConcatPrefix(ids: seq<string>, order: seq<string>, k: nat)
    requires k <= |order|
    ensures Concat(ids, order[..k]) <= Concat(ids, order)
  {
    if k < |order| {
      var n := |order| - 1;
      ConcatPrefix(ids, order[..n], k);
      assert order[..n][..k] == order[..k];
    } else {
      assert order[..k] == order;
    }
  }

  // ---------------------------------------------------------------- the promise

  function Count(ids: seq<string>, gpu: string): nat {
    |Of(ids, gpu)|
  }

  /** The load of a GPU: how many of its devices are not available. */
  function Load(virtualDevices: int, ids: seq<string>, gpu: string): int {
    if virtualDevices < Count(ids, gpu) then 0 else virtualDevices - Count(ids, gpu)
  }

  function Wanted(size: int, available: nat): nat {
    if size < 0 then 0 else if size < available then size else available
  }

  /** r is a good choice of `size` devices. */
  ghost predicate Preferred(virtualDevices: int, ids: seq<string>, size: int, r: seq<string>) {
    && multiset(r) <= multiset(Formed(ids))
    && |r| == Wanted(size, |Formed(ids)|)
    && forall low, high :: Load(virtualDevices, ids, low) < Load(virtualDevices, ids, high)
                           && (exists id :: id in r && On(id, high))
                           ==> multiset(Of(ids, low)) <= multiset(r)
  }

  /** The GPUs stand in the order of their loads. */
  ghost predicate ByLoad(virtualDevices: int, ids: seq<string>, order: seq<string>) {
    forall i, j :: 0 <= i < j < |order| ==> Load(virtualDevices, ids, order[i]) <= Load(virtualDevices, ids, order[j])
  }

  /** Taking devices from the groups in the order of their loads is a good choice. */
  lemma GreedyIsPreferred(virtualDevices: int, ids: seq<string>, order: seq<string>, size: int)
    requires Enumerates(order, ids) && ByLoad(virtualDevices, ids, order)
    ensures |Concat(ids, order)| == |Formed(ids)|
    ensures Preferred(virtualDevices, ids, size, Concat(ids, order)[..Wanted(size, |Formed(ids)|)])
  {
    ConcatHoldsAll(ids, order);
    var all := Concat(ids, order);
    var r := all[..Wanted(size, |all|)];
    PartOf([], r, all);
    forall low, high | Load(virtualDevices, ids, low) < Load(virtualDevices, ids, high)
                       && (exists id :: id in r && On(id, high))
      ensures multiset(Of(ids, low)) <= multiset(r)
    {
      var id :| id in r && On(id, high);
      if Of(ids, low) != [] {
        LowerIsTaken(virtualDevices, ids, order, r, low, high, id);
      }
    }
  }

  /** A good choice has the size asked for, or takes all there are; and it takes a device of a
      GPU that is in use only if it takes all devices of every GPU that has more available. */
  lemma PreferredMeans(virtualDevices: int, ids: seq<string>, size: int, r: seq<string>, low: string, high: string)
    requires Preferred(virtualDevices, ids, size, r)
    ensures |r| == if size < 0 then 0 else if size <= |Formed(ids)| then size else |Formed(ids)|
    ensures Count(ids, high) < Count(ids, low) && Count(ids, high) < virtualDevices && (exists id :: id in r && On(id, high))
            ==> multiset(Of(ids, low)) <= multiset(r)
  {
    if Count(ids, high) < Count(ids, low) && Count(ids, high) < virtualDevices {
      assert Load(virtualDevices, ids, low) < Load(virtualDevices, ids, high);
    }
  }

  lemma PartOf(s: seq<string>, t: seq<string>, all: seq<string>)
    requires s + t <= all
    ensures multiset(t) <= multiset(all)
  {
    assert all == s + t + all[|s + t|..];
  }

  /** When a device of a GPU is taken, so are all devices of the GPUs before it. */
  lemma EarlierIsTaken(ids: seq<string>, order: seq<string>, r: seq<string>, l: nat, id: string)
    requires Distinct(order) && l < |order| && r <= Concat(ids, order)
    requires id in r && (WellFormed(id) ==> Uuid(id) !in order[..l + 1])
    ensures Concat(ids, order[..l + 1]) <= r
  {
    var c := Concat(ids, order[..l + 1]);
    ConcatPrefix(ids, order, l + 1);
    assert id !in c by {
      ConcatCounts(ids, order[..l + 1], id);
      assert id in c <==> id in multiset(c);
    }
    assert |r| < |c| ==> r <= c;
  }

  lemma HigherIsLater(virtualDevices: int, ids: seq<string>, order: seq<string>, l: nat, high: string)
    requires ByLoad(virtualDevices, ids, order) && l < |order|
    requires Load(virtualDevices, ids, order[l]) < Load(virtualDevices, ids, high)
    ensures high !in order[..l + 1]
  {
    forall j | 0 <= j <= l ensures order[j] != high {
      assert Load(virtualDevices, ids, order[j]) <= Load(virtualDevices, ids, order[l]);
    }
  }

  lemma ConcatStep(ids: seq<string>, order: seq<string>, l: nat)
    requires l < |order|
    ensures Concat(ids, order[..l + 1]) == Concat(ids, order[..l]) + Of(ids, order[l])
  {
    assert order[..l + 1][..l] == order[..l];
  }

  lemma LowerIsTaken(virtualDevices: int, ids: seq<string>, order: seq<string>, r: seq<string>,
                     low: string, high: string, id: string)
    requires Enumerates(order, ids) && Of(ids, low) != []
    requires ByLoad(virtualDevices, ids, order) && r <= Concat(ids, order)
    requires Load(virtualDevices, ids, low) < Load(virtualDevices, ids, high)
    requires id in r && On(id, high)
    ensures multiset(Of(ids, low)) <= multiset(r)
  {
    assert low in order;
    var l :| 0 <= l < |order| && order[l] == low;
    HigherIsLater(virtualDevices, ids, order, l, high);
    EarlierIsTaken(ids, order, r, l, id);
    ConcatStep(ids, order, l);
    PartOf(Concat(ids, order[..l]), Of(ids, low), r);
  }

  // ---------------------------------------------------------------- the algorithm

  datatype GpuLoad = GpuLoad(uuid: string, count: int)

  /** Groups the available devices by GPU. */
  method Group(ids: seq<string>) returns (devices: map<string, seq<string>>, available: map<string, int>)
    ensures forall u :: u in devices <==> Of(ids, u) != []
    ensures available.Keys == devices.Keys
    ensures forall u :: u in devices ==> devices[u] == Of(ids, u) && available[u] == Count(ids, u)
  {
    devices, available := map[], map[];
    for i := 0 to |ids|
      invariant forall u :: u in devices <==> Of(ids[..i], u) != []
      invariant available.Keys == devices.Keys
      invariant forall u :: u in devices ==> devices[u] == Of(ids[..i], u) && available[u] == Count(ids[..i], u)
    {
      assert ids[..i + 1][..i] == ids[..i];
      var parts := Split(ids[i], 0, 0);
      if |parts| == 2 {
        var u := parts[0];
        devices := devices[u := (if u in devices then devices[u] else []) + [ids[i]]];
        available := available[u := (if u in available then available[u] else 0) + 1];
      }
    }
    assert ids[..|ids|] == ids;
  }

  ghost predicate SortedLoads(s: seq<GpuLoad>) {
    forall i, j :: 0 <= i < j < |s| ==> s[i].count <= s[j].count
  }

  /** The place of a smallest load from i on. */
  method MinIndex(a: array<GpuLoad>, i: nat) returns (m: nat)
    requires i < a.Length
    ensures i <= m < a.Length && forall j :: i <= j < a.Length ==> a[m].count <= a[j].count
  {
    m := i;
    for j := i + 1 to a.Length
      invariant i <= m < a.Length && forall k :: i <= k < j ==> a[m].count <= a[k].count
    {
      if a[j].count < a[m].count { m := j; }
    }
  }

  /** Selection sort. */
  method SortLoads(a: array<GpuLoad>)
    modifies a
    ensures SortedLoads(a[..]) && multiset(a[..]) == multiset(old(a[..]))
  {
    var i := 0;
    while i < a.Length - 1
      invariant 0 <= i <= a.Length
      invariant multiset(a[..]) == multiset(old(a[..]))
      invariant forall j, k :: 0 <= j < i && j < k < a.Length ==> a[j].count <= a[k].count
    {
      var m := MinIndex(a, i);
      Swapped(a[..], i, m);
      a[i], a[m] := a[m], a[i];
      i := i + 1;
    }
  }

  lemma Swapped(s: seq<GpuLoad>, i: nat, m: nat)
    requires i <= m < |s|
    ensures multiset(s[i := s[m]][m := s[i]]) == multiset(s)
  {}

  // ---------------------------------------------------------------- the allocation counters

  class Plugin {
    const virtualDevices: int
    var allocationCount: map<string, int>

    constructor (virtualDevices: int)
      ensures this.virtualDevices == virtualDevices && allocationCount == map[]
    {
      this.virtualDevices := virtualDevices;
      allocationCount := map[];
    }

    /** Sets the counter of every GPU with an available device to its load. */
    method SyncCounts(available: map<string, int>, order: seq<string>, ghost ids: seq<string>)
      requires Enumerates(order, ids)
      requires forall u :: u in order ==> u in available && available[u] == Count(ids, u)
      modifies this
      ensures allocationCount.Keys == old(allocationCount).Keys + (set u | u in order)
      ensures forall u :: u in order ==> allocationCount[u] == Load(virtualDevices, ids, u)
      ensures forall u :: u in old(allocationCount) && u !in order ==> allocationCount[u] == old(allocationCount)[u]
    {
      for i := 0 to |order|
        invariant allocationCount.Keys == old(allocationCount).Keys + (set u | u in order[..i])
        invariant forall u :: u in order[..i] ==> allocationCount[u] == Load(virtualDevices, ids, u)
        invariant forall u :: u in old(allocationCount) && u !in order[..i] ==> allocationCount[u] == old(allocationCount)[u]
      {
        assert order[..i + 1] == order[..i] + [order[i]];
        var busy := virtualDevices - available[order[i]];
        if busy < 0 { busy := 0; }
        allocationCount := allocationCount[order[i] := busy];
      }
      assert order[..|order|] == order;
    }

    /** Lists the loads. */
    method Loads(order: seq<string>) returns (a: array<GpuLoad>)
      requires forall u :: u in order ==> u in allocationCount
      ensures fresh(a) && a.Length == |order|
      ensures forall i :: 0 <= i < |order| ==> a[i] == GpuLoad(order[i], allocationCount[order[i]])
    {
      a := new GpuLoad[|order|];
      for i := 0 to |order|
        invariant forall k :: 0 <= k < i ==> a[k] == GpuLoad(order[k], allocationCount[order[k]])
      {
        a[i] := GpuLoad(order[i], allocationCount[order[i]]);
      }
    }

    /** Takes devices of one GPU until there are enough.  Before it, what was taken is the
        start of `before`. */
    method PickFrom(gpu: string, devices: seq<string>, size: int, taken: seq<string>, ghost before: seq<string>)
      returns (preferred: seq<string>)
      requires gpu in allocationCount && forall id :: id in devices ==> On(id, gpu)
      requires taken == Take(before, size)
      modifies this
      ensures preferred == Take(before + devices, size)
      ensures Tallied(old(allocationCount), taken, allocationCount, preferred)
    {
      preferred := taken;
      assert before + devices[..0] == before;
      for i := 0 to |devices|
        invariant preferred == Take(before + devices[..i], size)
        invariant Tallied(old(allocationCount), taken, allocationCount, preferred)
      {
        assert before + devices[..i + 1] == before + devices[..i] + [devices[i]];
        if |preferred| >= size {
          assert before + devices == before + devices[..i] + devices[i..];
          return;
        }
        TallyOne(preferred, devices[i], gpu);
        preferred := preferred + [devices[i]];
        allocationCount := allocationCount[gpu := allocationCount[gpu] + 1];
      }
      assert devices[..|devices|] == devices;
    }

    /** Takes devices of the GPUs in the order of the list. */
    method Pick(loads: array<GpuLoad>, devices: map<string, seq<string>>, size: int, ghost ids: seq<string>, ghost order: seq<string>)
      returns (preferred: seq<string>)
      requires loads.Length == |order| && forall i :: 0 <= i < |order| ==> loads[i].uuid == order[i]
      requires forall u :: u in order ==> u in devices && devices[u] == Of(ids, u) && u in allocationCount
      modifies this
      ensures preferred == Take(Concat(ids, order), size)
      ensures Tallied(old(allocationCount), [], allocationCount, preferred)
    {
      preferred := [];
      for i := 0 to loads.Length
        invariant preferred == Take(Concat(ids, order[..i]), size)
        invariant Tallied(old(allocationCount), [], allocationCount, preferred)
      {
        if |preferred| >= size {
          ConcatPrefix(ids, order, i);
          return;
        }
        ConcatStep(ids, order, i);
        AllOn(ids, order[i]);
        preferred := PickFrom(loads[i].uuid, devices[loads[i].uuid], size, preferred, Concat(ids, order[..i]));
      }
      assert order[..|order|] == order;
    }

    /** Lists the GPUs in the order of their loads. */
    method SortedLoadsOf(listed: seq<string>, ghost ids: seq<string>) returns (loads: array<GpuLoad>, ghost order: seq<string>)
      requires Enumerates(listed, ids)
      requires forall u :: u in listed ==> u in allocationCount && allocationCount[u] == Load(virtualDevices, ids, u)
      ensures fresh(loads) && loads.Length == |order| && forall i :: 0 <= i < |order| ==> loads[i].uuid == order[i]
      ensures Enumerates(order, ids) && ByLoad(virtualDevices, ids, order)
    {
      loads := Loads(listed);
      ghost var before := loads[..];
      SortLoads(loads);
      order := Names(loads[..]);
      SortedOrder(virtualDevices, ids, listed, before, loads[..]);
    }

    /** One container's request.  The two orders are those in which a map is walked. */
    method PreferredAllocation(ids: seq<string>, size: int, order1: seq<string>, order2: seq<string>)
      returns (preferred: seq<string>)
      requires Enumerates(order1, ids) && Enumerates(order2, ids)
      modifies this
      ensures Preferred(virtualDevices, ids, size, preferred)
      ensures allocationCount.Keys == old(allocationCount).Keys + (set u | u in order1)
      ensures forall u :: u in order1 ==> allocationCount[u] == Load(virtualDevices, ids, u) + Count(preferred, u)
      ensures forall u :: u in old(allocationCount) && u !in order1 ==> allocationCount[u] == old(allocationCount)[u]
    {
      var devices, available := Group(ids);
      SyncCounts(available, order1, ids);
      var loads, order := SortedLoadsOf(order2, ids);
      preferred := Pick(loads, devices, size, ids, order);
      PickIsPreferred(virtualDevices, ids, order, size);
    }
  }

  /** The first elements of s, at most `size` of them. */
  function Take(s: seq<string>, size: int): seq<string> {
    s[..Wanted(size, |s|)]
  }

  /** Between two points of the choice, every counter grew by the devices of its GPU chosen
      in between. */
  ghost predicate Tallied(count: map<string, int>, taken: seq<string>, count': map<string, int>, taken': seq<string>) {
    && count'.Keys == count.Keys
    && forall u :: u in count ==> count'[u] - Count(taken', u) == count[u] - Count(taken, u)
  }

  lemma TallyOne(taken: seq<string>, id: string, gpu: string)
    requires On(id, gpu)
    ensures forall u :: Count(taken + [id], u) == Count(taken, u) + if u == gpu then 1 else 0
  {
    assert (taken + [id])[..|taken|] == taken;
  }

  lemma {:induction false} AllOn(ids: seq<string>, gpu: string)
    ensures forall id :: id in Of(ids, gpu) ==> On(id, gpu)
  {
    if ids != [] { AllOn(ids[..|ids| - 1], gpu); }
  }

  ghost function Names(s: seq<GpuLoad>): (r: seq<string>)
    ensures |r| == |s| && forall i :: 0 <= i < |s| ==> r[i] == s[i].uuid
  {
    seq(|s|, i requires 0 <= i < |s| => s[i].uuid)
  }

  /** A list of loads, one for each GPU. */
  ghost predicate LoadsOf(virtualDevices: int, ids: seq<string>, order: seq<string>, listed: seq<GpuLoad>) {
    && Distinct(order) && |listed| == |order|
    && forall i :: 0 <= i < |order| ==> listed[i] == GpuLoad(order[i], Load(virtualDevices, ids, order[i]))
  }

  lemma ListedLoad(virtualDevices: int, ids: seq<string>, order: seq<string>, listed: seq<GpuLoad>, x: GpuLoad)
    requires LoadsOf(virtualDevices, ids, order, listed) && x in listed
    ensures x.uuid in order && x.count == Load(virtualDevices, ids, x.uuid)
  {}

  lemma SortedNamesDiffer(virtualDevices: int, ids: seq<string>, order: seq<string>, listed: seq<GpuLoad>, sorted: seq<GpuLoad>, i: nat, j: nat)
    requires LoadsOf(virtualDevices, ids, order, listed) && multiset(sorted) == multiset(listed) && i < j < |sorted|
    ensures sorted[i].uuid != sorted[j].uuid
  {
    SameElements(listed, sorted);
    if sorted[i].uuid == sorted[j].uuid {
      ListedLoad(virtualDevices, ids, order, listed, sorted[i]);
      ListedLoad(virtualDevices, ids, order, listed, sorted[j]);
      AtMostOnce(listed, sorted[i]);
      Twice(sorted, i, j);
      assert false;
    }
  }

  lemma SortedNamesSame(virtualDevices: int, ids: seq<string>, order: seq<string>, listed: seq<GpuLoad>, sorted: seq<GpuLoad>, u: string)
    requires LoadsOf(virtualDevices, ids, order, listed) && multiset(sorted) == multiset(listed)
    ensures u in Names(sorted) <==> u in order
  {
    SameElements(listed, sorted);
    if u in order {
      var i :| 0 <= i < |order| && order[i] == u;
      assert listed[i] in sorted;
      var k :| 0 <= k < |sorted| && sorted[k] == listed[i];
      assert Names(sorted)[k] == u;
    }
    if u in Names(sorted) {
      var k :| 0 <= k < |sorted| && Names(sorted)[k] == u;
      assert sorted[k] in listed;
      ListedLoad(virtualDevices, ids, order, listed, sorted[k]);
    }
  }

  /** Sorting the loads puts the GPUs in the order of their loads. */
  lemma SortedOrder(virtualDevices: int, ids: seq<string>, order: seq<string>, listed: seq<GpuLoad>, sorted: seq<GpuLoad>)
    requires Enumerates(order, ids) && LoadsOf(virtualDevices, ids, order, listed)
    requires SortedLoads(sorted) && multiset(sorted) == multiset(listed)
    ensures Enumerates(Names(sorted), ids) && ByLoad(virtualDevices, ids, Names(sorted))
  {
    var r := Names(sorted);
    forall i, j | 0 <= i < j < |r| ensures r[i] != r[j] {
      SortedNamesDiffer(virtualDevices, ids, order, listed, sorted, i, j);
    }
    forall u ensures u in r <==> u in order {
      SortedNamesSame(virtualDevices, ids, order, listed, sorted, u);
    }
    SameElements(listed, sorted);
    forall i | 0 <= i < |r| ensures sorted[i].count == Load(virtualDevices, ids, r[i]) {
      ListedLoad(virtualDevices, ids, order, listed, sorted[i]);
    }
  }

  lemma SameElements(s: seq<GpuLoad>, t: seq<GpuLoad>)
    requires multiset(s) == multiset(t)
    ensures forall x :: x in s <==> x in t
  {
    assert forall x :: x in s <==> x in multiset(s);
    assert forall x :: x in t <==> x in multiset(t);
  }

  lemma {:induction false} AtMostOnce<T>(s: seq<T>, x: T)
    requires forall i, j :: 0 <= i < j < |s| ==> s[i] != s[j]
    ensures multiset(s)[x] <= 1
  {
    if s != [] {
      var n := |s| - 1;
      AtMostOnce(s[..n], x);
      assert s == s[..n] + [s[n]];
      assert s[n] !in multiset(s[..n]);
    }
  }

  lemma Twice<T>(s: seq<T>, i: nat, j: nat)
    requires i < j < |s| && s[i] == s[j]
    ensures multiset(s)[s[i]] >= 2
  {
    assert s == s[..j] + s[j..];
    assert s[i] in s[..j] && s[j] in s[j..];
    assert s[i] in multiset(s[..j]) && s[j] in multiset(s[j..]);
  }

  lemma PickIsPreferred(virtualDevices: int, ids: seq<string>, order: seq<string>, size: int)
    requires Enumerates(order, ids) && ByLoad(virtualDevices, ids, order)
    ensures Preferred(virtualDevices, ids, size, Take(Concat(ids, order), size))
    ensures forall u :: Of(ids, u) == [] ==> Count(Take(Concat(ids, order), size), u) == 0
  {
    GreedyIsPreferred(virtualDevices, ids, order, size);
    forall u | Of(ids, u) == [] ensures Count(Take(Concat(ids, order), size), u) == 0 {
      assert u !in order;
      TakenFrom(ids, order, Take(Concat(ids, order), size), u);
    }
  }

  lemma TakenFrom(ids: seq<string>, order: seq<string>, r: seq<string>, gpu: string)
    requires Enumerates(order, ids) && r <= Concat(ids, order) && gpu !in order
    ensures Count(r, gpu) == 0
  {
    if Of(r, gpu) != [] {
      var id := Of(r, gpu)[0];
      AllOn(r, gpu);
      OfCounts(r, gpu, id);
      assert id in multiset(Of(r, gpu));
      assert id in r && id in Concat(ids, order);
      ConcatCounts(ids, order, id);
      assert false;
    }
  }

  /** From distinct identifiers, a good choice takes distinct, available, well-formed ones. */
  lemma ChoiceIsDistinct(virtualDevices: int, ids: seq<string>, size: int, r: seq<string>)
    requires Distinct(ids) && Preferred(virtualDevices, ids, size, r)
    ensures Distinct(r) && forall id :: id in r ==> id in ids && WellFormed(id)
  {
    forall id | id in r ensures id in ids && WellFormed(id) {
      FormedCounts(ids, id);
      assert id in multiset(r);
    }
    forall i, j | 0 <= i < j < |r| ensures r[i] != r[j] {
      if r[i] == r[j] {
        FormedCounts(ids, r[i]);
        AtMostOnce(ids, r[i]);
        Twice(r, i, j);
        assert false;
      }
    }
  }
}
