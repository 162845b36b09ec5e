/** The scheduler of one GPU as it runs: lists and client records changed in place, one
    handler at a time.  Every method computes the function of GpuModel that its contract
    names, so what is proved about those functions holds of the methods. */
module GpuScheduler {
  import opened Lists
  import opened GpuModel
  import opened Arith
  import opened Sums
  import opened Departures
  import opened GpuInvariants
  import opened Timer

  /** The table m, with the entries of the clients in s taken from another table. */
  ghost function Patch(m: map<ClientId, Client>, s: seq<ClientId>, other: map<ClientId, Client>): (r: map<ClientId, Client>)
    ensures r.Keys == m.Keys
  {
    map c | c in m :: if c in s && c in other then other[c] else m[c]
  }

  /** A loop that rewrites the entries of a list one by one. */
  lemma PatchStep(m: map<ClientId, Client>, s: seq<ClientId>, other: map<ClientId, Client>, i: nat)
    requires i < |s| && Distinct(s) && s[i] in m && s[i] in other
    ensures Patch(m, s[..i], other)[s[i]] == m[s[i]]
    ensures Patch(m, s[..i + 1], other) == Patch(m, s[..i], other)[s[i] := other[s[i]]]
    ensures other[s[i]] == m[s[i]] ==> Patch(m, s[..i + 1], other) == Patch(m, s[..i], other)
  {
    assert s[..i + 1] == s[..i] + [s[i]] && s[i] !in s[..i];
  }

  lemma PatchDone(m: map<ClientId, Client>, s: seq<ClientId>, other: map<ClientId, Client>)
    requires m.Keys == other.Keys && forall c :: c in m && c !in s ==> other[c] == m[c]
    ensures Patch(m, s[..|s|], other) == other
    ensures Patch(m, s[..0], other) == m
  {
    assert s[..|s|] == s;
  }

  lemma SameKeysListed(g: Gpu, g': Gpu)
    requires Listed(g) && g' == g.(clients := g'.clients, billed := g'.billed)
    requires g'.clients.Keys == g.clients.Keys
    ensures Listed(g')
  {}

  lemma WeighStep(s: seq<ClientId>, i: nat, m: map<ClientId, Client>, what: Measure)
    requires i < |s|
    ensures Weigh(s[..i + 1], m, what) == Weigh(s[..i], m, what) + (if s[i] in m then Weight(m[s[i]], what) else 0)
  {
    assert s[..i + 1][..i] == s[..i];
  }

  // The three loops that change client records and read them back, each as a fold over a
  // list, and each fold as the function of GpuModel it computes.

  ghost function SettleNth(g: Gpu, c: ClientId, n: int, now: nat, exclude: set<ClientId>): Gpu
    requires n >= 1
  {
    if c in exclude || c !in g.clients then g
    else g.(clients := g.clients[c := Settle(g.clients[c], n, now)],
            billed := g.billed + Weight(g.clients[c], Share(now, n)))
  }

  ghost function SettleFirst(g: Gpu, now: nat, exclude: set<ClientId>, i: nat): (r: Gpu)
    requires i <= |g.running|
    ensures r == g.(clients := r.clients, billed := r.billed) && r.clients.Keys == g.clients.Keys
  {
    if i == 0 then g
    else SettleNth(SettleFirst(g, now, exclude, i - 1), g.running[i - 1], Concurrency(g), now, exclude)
  }

  lemma {:induction false} SettleFirstIs(g: Gpu, now: nat, exclude: set<ClientId>, i: nat)
    requires Listed(g) && i <= |g.running|
    ensures SettleFirst(g, now, exclude, i).clients
            == Patch(g.clients, g.running[..i], Accrue(g, now, exclude).clients)
    ensures SettleFirst(g, now, exclude, i).billed
            == g.billed + Weigh(g.running[..i], g.clients - exclude, Share(now, Concurrency(g)))
  {
    var goal := Accrue(g, now, exclude).clients;
    if i == 0 {
      PatchDone(g.clients, g.running, goal);
    } else {
      SettleFirstIs(g, now, exclude, i - 1);
      PatchStep(g.clients, g.running, goal, i - 1);
      WeighStep(g.running, i - 1, g.clients - exclude, Share(now, Concurrency(g)));
    }
  }

  lemma SettleAllIsAccrue(g: Gpu, now: nat, exclude: set<ClientId>)
    requires Listed(g)
    ensures SettleFirst(g, now, exclude, |g.running|) == Accrue(g, now, exclude)
  {
    SettleFirstIs(g, now, exclude, |g.running|);
    PatchDone(g.clients, g.running, Accrue(g, now, exclude).clients);
    assert g.running[..|g.running|] == g.running;
  }

  ghost function CloseNth(cfg: Config, g: Gpu, c: ClientId): Gpu {
    if c !in g.clients then g
    else g.(clients := g.clients[c := CloseWindow(cfg, QuotaOf(cfg, g, g.clients[c]), g.clients[c])])
  }

  ghost function CloseFirst(cfg: Config, g: Gpu, i: nat): (r: Gpu)
    requires i <= |g.order|
    ensures r == g.(clients := r.clients) && r.clients.Keys == g.clients.Keys
  {
    if i == 0 then g else CloseNth(cfg, CloseFirst(cfg, g, i - 1), g.order[i - 1])
  }

  ghost function Closed(cfg: Config, g: Gpu): (r: map<ClientId, Client>)
    ensures r.Keys == g.clients.Keys
  {
    map c | c in g.clients :: CloseWindow(cfg, QuotaOf(cfg, g, g.clients[c]), g.clients[c])
  }

  lemma {:induction false} CloseFirstIs(cfg: Config, g: Gpu, i: nat)
    requires Listed(g) && i <= |g.order|
    ensures CloseFirst(cfg, g, i).clients == Patch(g.clients, g.order[..i], Closed(cfg, g))
  {
    if i == 0 {
      PatchDone(g.clients, g.order, Closed(cfg, g));
    } else {
      CloseFirstIs(cfg, g, i - 1);
      PatchStep(g.clients, g.order, Closed(cfg, g), i - 1);
      CloseKeepsQuotas(cfg, g, i - 1);
    }
  }

  lemma CloseKeepsQuotas(cfg: Config, g: Gpu, i: nat)
    requires i <= |g.order| && CloseFirst(cfg, g, i).clients == Patch(g.clients, g.order[..i], Closed(cfg, g))
    ensures TotalQuota(CloseFirst(cfg, g, i)) == TotalQuota(g)
  {
    QuotaUnaffected(g, CloseFirst(cfg, g, i));
  }

  lemma CloseAllIs(cfg: Config, g: Gpu)
    requires Listed(g)
    ensures CloseFirst(cfg, g, |g.order|) == g.(clients := Closed(cfg, g))
  {
    CloseFirstIs(cfg, g, |g.order|);
    PatchDone(g.clients, g.order, Closed(cfg, g));
  }

  ghost function CutNth(cfg: Config, g: Gpu, c: ClientId, n: int, now: nat): Gpu
    requires n >= 1
  {
    if c in g.clients && Overrun(cfg, g, g.clients[c], n, now)
    then g.(clients := g.clients[c := Cut(g.clients[c], n, now)],
            billed := g.billed + Weight(g.clients[c], Segment(now, n)))
    else g
  }

  ghost function CutFirst(cfg: Config, g: Gpu, now: nat, i: nat): (r: Gpu)
    requires i <= |g.running|
    ensures r == g.(clients := r.clients, billed := r.billed) && r.clients.Keys == g.clients.Keys
  {
    if i == 0 then g else CutNth(cfg, CutFirst(cfg, g, now, i - 1), g.running[i - 1], Concurrency(g), now)
  }

  ghost function Due(cfg: Config, g: Gpu, now: nat): map<ClientId, Client> {
    map c | c in g.clients && c in OverrunRunners(cfg, g, now) :: g.clients[c]
  }

  lemma {:induction false} CutFirstIs(cfg: Config, g: Gpu, now: nat, i: nat)
    requires Listed(g) && i <= |g.running|
    ensures CutFirst(cfg, g, now, i).clients == Patch(g.clients, g.running[..i], Throttle(cfg, g, now).clients)
  {
    var goal := Throttle(cfg, g, now).clients;
    if i == 0 {
      PatchDone(g.clients, g.running, goal);
    } else {
      CutFirstIs(cfg, g, now, i - 1);
      PatchStep(g.clients, g.running, goal, i - 1);
      CutEntry(cfg, g, now, i - 1);
    }
  }

  lemma {:induction false} CutFirstBills(cfg: Config, g: Gpu, now: nat, i: nat)
    requires Listed(g) && i <= |g.running|
    ensures CutFirst(cfg, g, now, i).billed
            == g.billed + Weigh(g.running[..i], Due(cfg, g, now), Segment(now, Concurrency(g)))
  {
    if i > 0 {
      CutFirstBills(cfg, g, now, i - 1);
      WeighStep(g.running, i - 1, Due(cfg, g, now), Segment(now, Concurrency(g)));
      CutFirstIs(cfg, g, now, i - 1);
      PatchStep(g.clients, g.running, Throttle(cfg, g, now).clients, i - 1);
      CutEntry(cfg, g, now, i - 1);
    }
  }

  /** What the loop does to entry i. */
  lemma CutEntry(cfg: Config, g: Gpu, now: nat, i: nat)
    requires Listed(g) && i < |g.running|
    requires CutFirst(cfg, g, now, i).clients == Patch(g.clients, g.running[..i], Throttle(cfg, g, now).clients)
    requires Patch(g.clients, g.running[..i], Throttle(cfg, g, now).clients)[g.running[i]] == g.clients[g.running[i]]
    ensures var f, r, c := CutFirst(cfg, g, now, i), CutFirst(cfg, g, now, i + 1), g.running[i];
            && r.clients == f.clients[c := Throttle(cfg, g, now).clients[c]]
            && r.billed == f.billed + if c in Due(cfg, g, now) then Weight(Due(cfg, g, now)[c], Segment(now, Concurrency(g))) else 0
  {
    CutKeepsQuotas(cfg, g, now, i);
    var c := g.running[i];
    ThrottledEntry(cfg, g, now, c);
    SameOverrun(cfg, g, CutFirst(cfg, g, now, i), g.clients[c], Concurrency(g), now);
  }

  lemma SameOverrun(cfg: Config, g: Gpu, g': Gpu, k: Client, n: int, now: nat)
    requires n >= 1 && TotalQuota(g') == TotalQuota(g)
    ensures Overrun(cfg, g', k, n, now) == Overrun(cfg, g, k, n, now)
  {}

  lemma ThrottledEntry(cfg: Config, g: Gpu, now: nat, c: ClientId)
    requires c in g.running && c in g.clients
    ensures c in Due(cfg, g, now) <==> Overrun(cfg, g, g.clients[c], Concurrency(g), now)
    ensures c in Due(cfg, g, now) ==> Due(cfg, g, now)[c] == g.clients[c]
    ensures Throttle(cfg, g, now).clients[c]
            == if c in Due(cfg, g, now) then Cut(g.clients[c], Concurrency(g), now) else g.clients[c]
  {}

  lemma CutKeepsQuotas(cfg: Config, g: Gpu, now: nat, i: nat)
    requires i <= |g.running|
    requires CutFirst(cfg, g, now, i).clients == Patch(g.clients, g.running[..i], Throttle(cfg, g, now).clients)
    ensures TotalQuota(CutFirst(cfg, g, now, i)) == TotalQuota(g)
  {
    QuotaUnaffected(g, CutFirst(cfg, g, now, i));
  }

  lemma CutAllIsThrottle(cfg: Config, g: Gpu, now: nat)
    requires Listed(g)
    ensures CutFirst(cfg, g, now, |g.running|) == Throttle(cfg, g, now)
  {
    CutFirstIs(cfg, g, now, |g.running|);
    CutFirstBills(cfg, g, now, |g.running|);
    PatchDone(g.clients, g.running, Throttle(cfg, g, now).clients);
    assert g.running[..|g.running|] == g.running;
  }

  /** The fields of the state after runner c was taken off. */
  lemma TakenOff(cfg: Config, g: Gpu, c: ClientId, now: nat, r: Gpu)
    requires c in g.clients
    requires var k, fee := g.clients[c], LeaveFee(cfg, g.clients[c], Concurrency(g), now);
             && r.running == Without(g.running, c) && r.lockHeld == (g.lockHeld && r.running != [])
             && r.clients == g.clients[c := Leave(k, fee)]
             && r.billed == g.billed + (if IsActive(k) then fee else 0)
             && r.runningMemory == (if g.runningMemory >= k.memory then g.runningMemory - k.memory else 0)
    requires r.requests == g.requests && r.waitQueue == g.waitQueue && r.order == g.order
    requires r.totalMemory == g.totalMemory && r.overloaded == g.overloaded && r.windowStart == g.windowStart
    ensures r == TakeOff(cfg, g, c, now)
  {}

  lemma RotatedEntry(g: Gpu, now: nat, c: ClientId)
    requires c in g.running && c in g.clients
    ensures c in Rotate(g, now).clients && Rotate(g, now).clients[c] == Ask(g.clients[c], Concurrency(g), now)
  {}

  lemma RotatedAll(g: Gpu, now: nat)
    ensures Patch(g.clients, g.running[..|g.running|], Rotate(g, now).clients) == Rotate(g, now).clients
  {
    assert g.running[..|g.running|] == g.running;
  }

  /** The index of the first waiting client from i on that may run. */
  ghost function FirstFrom(cfg: Config, w: Gpu, i: nat): nat
    requires i <= |w.waitQueue|
    decreases |w.waitQueue| - i
  {
    if i == |w.waitQueue| || Admissible(cfg, w, w.waitQueue[i]) then i else FirstFrom(cfg, w, i + 1)
  }

  lemma {:induction false} FirstFromIs(cfg: Config, w: Gpu, i: nat)
    requires i <= |w.waitQueue|
    ensures FirstFrom(cfg, w, i) == i + FirstAdmissible(cfg, w, w.waitQueue[i..])
    decreases |w.waitQueue| - i
  {
    if i < |w.waitQueue| {
      FirstFromIs(cfg, w, i + 1);
      assert w.waitQueue[i..][1..] == w.waitQueue[i + 1..];
    }
  }

  lemma FirstFromStart(cfg: Config, w: Gpu)
    ensures FirstFrom(cfg, w, 0) == FirstAdmissible(cfg, w, w.waitQueue)
  {
    FirstFromIs(cfg, w, 0);
    assert w.waitQueue[0..] == w.waitQueue;
  }

  class Scheduler {
    const cfg: Config
    const totalMemory: nat
    var requests: seq<ClientId>
    var waitQueue: seq<ClientId>
    var running: seq<ClientId>
    var lockHeld: bool
    var runningMemory: nat
    var overloaded: bool
    var windowStart: nat
    var order: seq<ClientId>
    var clients: map<ClientId, Client>
    ghost var billed: int

    ghost function View(): Gpu
      reads this
    {
      Gpu(requests, waitQueue, running, lockHeld, totalMemory, runningMemory, overloaded, windowStart,
          order, clients, billed)
    }

    ghost predicate Valid()
      reads this
    {
      ValidConfig(cfg) && Listed(View())
    }

    /** All that the sums over the lists rely on. */
    ghost predicate Indexed()
      reads this
    {
      forall c :: c in order || c in running ==> c in clients
    }

    constructor (cfg: Config, totalMemory: nat)
      requires ValidConfig(cfg)
      ensures Valid() && this.cfg == cfg
      ensures View() == Gpu([], [], [], false, totalMemory, 0, false, 0, [], map[], 0)
    {
      this.cfg, this.totalMemory := cfg, totalMemory;
      requests, waitQueue, running, order := [], [], [], [];
      lockHeld, overloaded := false, false;
      runningMemory, windowStart := 0, 0;
      clients := map[];
      billed := 0;
    }

    // -------------------------------------------------------------- sums

    method CalculateTotalQuota() returns (total: int)
      requires Indexed()
      ensures total == TotalQuota(View())
    {
      total := 0;
      for i := 0 to |order|
        invariant total == Weigh(order[..i], clients, Quota)
      {
        assert order[..i + 1][..i] == order[..i];
        var k := clients[order[i]];
        if k.coreLimit < 100 {
          total := total + k.coreLimit;
        }
      }
      assert order[..|order|] == order;
      if total <= 0 {
        total := 100;
      }
    }

    method CountRunningClients() returns (count: int)
      requires Indexed()
      ensures count == Concurrency(View())
    {
      count := 0;
      for i := 0 to |running|
        invariant count == Weigh(running[..i], clients, Limited)
      {
        assert running[..i + 1][..i] == running[..i];
        if clients[running[i]].coreLimit < 100 {
          count := count + 1;
        }
      }
      assert running[..|running|] == running;
      if count <= 0 {
        count := 1;
      }
    }

    method GetEffectiveQuota(c: ClientId) returns (quota: int)
      requires Indexed() && c in clients
      ensures quota == QuotaOf(cfg, View(), clients[c])
    {
      var total := CalculateTotalQuota();
      quota := cfg.windowMs * clients[c].coreLimit / 100;
      if total > 100 {
        quota := quota * 100 / total;
      }
    }

    // -------------------------------------------------------------- billing

    /** Body of the billing loop for one runner. */
    method SettleRunner(c: ClientId, n: int, now: nat)
      requires c in clients && n >= 1
      modifies this`clients, this`billed
      ensures clients == old(clients)[c := Settle(old(clients)[c], n, now)]
      ensures billed == old(billed) + Weight(old(clients)[c], Share(now, n))
    {
      var k := clients[c];
      if k.coreLimit < 100 && !k.pendingDrop && k.runStart > 0 {
        var duration := now - k.runStart;
        if duration > 0 {
          var fee := duration / n;
          clients := clients[c := k.(runTime := k.runTime + fee, runStart := now, charged := k.charged + fee)];
          billed := billed + fee;
        }
      }
    }

    method AccrueRunningUsage(now: nat, exclude: set<ClientId>)
      requires Valid()
      modifies this`clients, this`billed
      ensures View() == Accrue(old(View()), now, exclude)
      ensures Valid()
    {
      var n := CountRunningClients();
      ghost var was := View();
      for i := 0 to |running|
        invariant View() == SettleFirst(was, now, exclude, i)
      {
        if running[i] !in exclude {
          SettleRunner(running[i], n, now);
        }
      }
      SettleAllIsAccrue(was, now, exclude);
    }

    /** Body of the window loop for one client. */
    method CloseClientWindow(c: ClientId)
      requires Indexed() && c in clients
      modifies this`clients
      ensures View() == CloseNth(cfg, old(View()), c)
    {
      var k := clients[c];
      if k.coreLimit < 100 {
        var limit := GetEffectiveQuota(c);
        var over := 0;
        if k.runTime > limit {
          over := k.runTime - limit;
        }
        var carry := over * cfg.carryPercent / 100;
        clients := clients[c := k.(debt := carry, runTime := carry, throttled := false,
                                   consumed := k.consumed + Min(k.runTime, limit),
                                   forgiven := k.forgiven + (over - carry))];
      } else {
        clients := clients[c := k.(debt := 0, runTime := 0, throttled := false, consumed := k.consumed + k.runTime)];
      }
    }

    method CloseWindows()
      requires Valid()
      modifies this`clients
      ensures View() == old(View()).(clients := Closed(cfg, old(View())))
      ensures Valid()
    {
      CloseEachWindow();
      CloseAllIs(cfg, old(View()));
      SameKeysListed(old(View()), View());
    }

    method CloseEachWindow()
      requires Indexed()
      modifies this`clients
      ensures View() == CloseFirst(cfg, old(View()), |order|)
    {
      ghost var was := View();
      for i := 0 to |order|
        invariant View() == CloseFirst(cfg, was, i)
      {
        CloseClientWindow(order[i]);
      }
    }

    method CheckAndResetWindow(now: nat) returns (reset: bool)
      requires Valid()
      modifies this`clients, this`billed, this`windowStart
      ensures View() == ResetWindow(cfg, old(View()), now)
      ensures reset == WindowDue(cfg, old(View()), now)
      ensures Valid()
    {
      reset := false;
      if windowStart == 0 {
        windowStart := now;
      }
      if now - windowStart >= cfg.windowMs {
        windowStart := now;
        AccrueRunningUsage(now, {});
        CloseWindows();
        assert clients == ResetWindow(cfg, old(View()), now).clients;
        reset := true;
      }
    }

    // -------------------------------------------------------------- admission

    method CanRun(c: ClientId, now: nat) returns (ok: bool)
      requires Valid() && c in clients
      modifies this`clients, this`billed, this`windowStart
      ensures View() == ResetWindow(cfg, old(View()), now)
      ensures ok == Admissible(cfg, View(), c)
      ensures Valid()
    {
      var _ := CheckAndResetWindow(now);
      if clients[c].coreLimit < 100 {
        if clients[c].throttled {
          return false;
        }
        var limit := GetEffectiveQuota(c);
        if clients[c].runTime >= limit {
          return false;
        }
      }
      ok := CanRunWithMemory(c);
    }

    method CanRunWithMemory(c: ClientId) returns (ok: bool)
      requires c in clients
      ensures ok == MemoryOk(cfg, View(), clients[c])
    {
      var safeLimit := totalMemory * (100 - cfg.reservePercent) / 100;
      if overloaded {
        return !lockHeld;
      }
      if cfg.mode == Serial {
        return !lockHeld;
      }
      if runningMemory == 0 {
        return true;
      }
      var fits := runningMemory + clients[c].memory <= safeLimit;
      if cfg.mode == Concurrent {
        return fits;
      }
      ok := fits || !lockHeld;
    }

    method SendTo(c: ClientId, kind: Kind)
      requires c in clients
      modifies this`clients
      ensures clients == old(clients)[c := Send(old(clients)[c], kind)]
    {
      var k := clients[c];
      clients := clients[c := k.(socket := k.socket + [Message(kind, k.grants)])];
    }

    method MoveHeadToWaitQueue()
      requires Valid() && requests != []
      modifies this`requests, this`waitQueue, this`clients
      ensures View() == MoveToWaitQueue(old(View()))
      ensures Valid()
    {
      var c := requests[0];
      requests := requests[1..];
      waitQueue := waitQueue + [c];
      if !(clients[c].coreLimit < 100 && clients[c].throttled) {
        SendTo(c, WaitForMem);
      }
      assert View() == MoveToWaitQueue(old(View()));
    }

    method PromoteWaiting(now: nat)
      requires Valid()
      modifies this
      ensures View() == CheckWaitQueue(cfg, old(View()), now)
      ensures Valid()
    {
      if waitQueue != [] {
        var i := FindAdmissible(now);
        if i < |waitQueue| {
          PromoteEntry(i);
        }
      }
    }

    /** Walks the wait queue up to the first client that may run. */
    method FindAdmissible(now: nat) returns (i: nat)
      requires Valid() && waitQueue != []
      modifies this
      ensures View() == ResetWindow(cfg, old(View()), now)
      ensures i == FirstAdmissible(cfg, View(), waitQueue)
      ensures Valid()
    {
      ghost var w := ResetWindow(cfg, View(), now);
      ResetWindowIdempotent(cfg, View(), now);
      i := 0;
      var ok := CanRun(waitQueue[0], now);
      while !ok && i + 1 < |waitQueue|
        invariant 0 <= i < |waitQueue| && View() == w && Valid()
        invariant ok == Admissible(cfg, w, w.waitQueue[i])
        invariant FirstFrom(cfg, w, 0) == FirstFrom(cfg, w, i)
      {
        i := i + 1;
        ok := CanRun(waitQueue[i], now);
      }
      if !ok {
        i := i + 1;
      }
      FirstFromStart(cfg, w);
    }

    method PromoteEntry(i: nat)
      requires Valid() && i < |waitQueue|
      modifies this`requests, this`waitQueue, this`clients
      ensures View() == Promote(old(View()), i)
      ensures Valid()
    {
      var c := waitQueue[i];
      waitQueue := waitQueue[..i] + waitQueue[i + 1..];
      requests := [c] + requests;
      SendTo(c, MemAvailable);
      assert View() == Promote(old(View()), i);
    }

    method StartRunner(c: ClientId, now: nat)
      requires c in clients
      modifies this`clients
      ensures clients == old(clients)[c := Start(old(clients)[c], now)]
    {
      var k := clients[c];
      clients := clients[c := k.(isRunning := true, pendingDrop := false, dropConcurrency := 1, runStart := now,
                                 grants := k.grants + 1, timerDrops := 0)];
      SendTo(c, LockOk);
    }

    method PlaceHead(now: nat)
      requires Valid() && requests != []
      modifies this`requests, this`running, this`lockHeld, this`runningMemory, this`clients
      ensures View() == Place(old(View()), now)
      ensures Valid()
    {
      var c := requests[0];
      requests := requests[1..];
      running := running + [c];
      lockHeld := true;
      runningMemory := runningMemory + clients[c].memory;
      StartRunner(c, now);
      assert View() == Place(old(View()), now);
    }

    method GrantHead(now: nat)
      requires Valid() && requests != []
      modifies this
      ensures View() == Grant(old(View()), now)
      ensures Valid()
    {
      if running != [] {
        AccrueRunningUsage(now, {});
      }
      PlaceHead(now);
    }

    method Schedule(now: nat)
      requires Valid()
      modifies this
      ensures View() == TrySchedule(cfg, old(View()), now)
      ensures Valid()
    {
      var done := false;
      while !done
        invariant Valid()
        invariant done ==> View() == TrySchedule(cfg, old(View()), now)
        invariant !done ==> TrySchedule(cfg, View(), now) == TrySchedule(cfg, old(View()), now)
        decreases !done, |requests| + |waitQueue|, |requests|
      {
        ghost var before := View();
        if requests == [] {
          PromoteWaiting(now);
        }
        if requests == [] {
          done := true;
        } else {
          var ok := CanRun(requests[0], now);
          if ok {
            GrantHead(now);
            done := cfg.mode == Serial;
          } else {
            MoveHeadToWaitQueue();
          }
        }
        assert (View(), done) == Pass(cfg, before, now);
      }
    }

    // -------------------------------------------------------------- leaving

    method FilterOut(list: seq<ClientId>, c: ClientId) returns (rest: seq<ClientId>)
      ensures rest == Without(list, c)
    {
      rest := [];
      for i := 0 to |list|
        invariant rest == Without(list[..i], c)
      {
        assert list[..i + 1][..i] == list[..i];
        if list[i] != c {
          rest := rest + [list[i]];
        }
      }
      assert list[..|list|] == list;
    }

    method IndexOf(list: seq<ClientId>, c: ClientId) returns (i: nat)
      ensures i <= |list| && c !in list[..i]
      ensures i < |list| ==> list[i] == c
    {
      i := 0;
      while i < |list| && list[i] != c
        invariant i <= |list| && c !in list[..i]
      {
        assert list[..i + 1] == list[..i] + [list[i]];
        i := i + 1;
      }
    }

    /** The bill of a client that leaves the running list, and its flags. */
    method BillLeaver(c: ClientId, now: nat)
      requires Indexed() && c in clients
      modifies this`clients, this`billed
      ensures var k := old(clients)[c];
              var fee := LeaveFee(cfg, k, Concurrency(old(View())), now);
              && clients == old(clients)[c := Leave(k, fee)]
              && billed == old(billed) + (if IsActive(k) then fee else 0)
    {
      var k := clients[c];
      var fee := 0;
      var duration := now - k.runStart;
      if duration > 0 {
        if k.pendingDrop {
          var share := if k.dropConcurrency > 0 then k.dropConcurrency else 1;
          fee := duration / share * cfg.tailPercent / 100;
        } else {
          var n := CountRunningClients();
          fee := duration / n;
        }
      }
      clients := clients[c := k.(runTime := k.runTime + fee, charged := k.charged + fee, isRunning := false,
                                 pendingDrop := false, dropConcurrency := 1, lastDropSent := 0)];
      if k.coreLimit < 100 && !k.pendingDrop {
        billed := billed + fee;
      }
    }

    method DropEntry(i: nat)
      requires i < |running| && Distinct(running)
      modifies this`running, this`lockHeld
      ensures running == Without(old(running), old(running)[i])
      ensures lockHeld == (old(lockHeld) && running != [])
    {
      WithoutAt(running, i);
      running := running[..i] + running[i + 1..];
      if running == [] {
        lockHeld := false;
      }
    }

    method TakeOffEntry(i: nat, now: nat)
      requires Indexed() && Distinct(running) && i < |running|
      modifies this
      ensures View() == TakeOff(cfg, old(View()), old(running)[i], now)
    {
      var c := running[i];
      var freed := clients[c].memory;
      ghost var g := View();
      BillLeaver(c, now);
      runningMemory := if runningMemory >= freed then runningMemory - freed else 0;
      DropEntry(i);
      TakenOff(cfg, g, c, now, View());
    }

    /** The part of `remove_req` that takes entry i off the running list. */
    method ReleaseEntry(i: nat, now: nat)
      requires Valid() && i < |running|
      modifies this
      ensures View() == Release(cfg, old(View()), old(running)[i], now)
      ensures Valid()
    {
      AccrueRunningUsage(now, {running[i]});
      TakeOffEntry(i, now);
    }

    method RemoveRequest(c: ClientId, now: nat)
      requires Valid() && c in clients
      modifies this
      ensures View() == RemoveReq(cfg, old(View()), c, now)
      ensures Valid()
    {
      ghost var before := View();
      var i := IndexOf(running, c);
      if i < |running| {
        ReleaseEntry(i, now);
      } else {
        assert running[..i] == running;
        if running == [] {
          lockHeld := false;
        }
      }
      ghost var released := View();
      assert released == Release(cfg, before, c, now);
      if running == [] {
        PromoteWaiting(now);
        Schedule(now);
      }
      ghost var admitted := View();
      requests := FilterOut(requests, c);
      waitQueue := FilterOut(waitQueue, c);
      assert View() == Forget(admitted, c);
    }

    // -------------------------------------------------------------- messages

    method OnRequest(c: ClientId, now: nat)
      requires Valid() && c in clients && c !in waitQueue && c !in running
      modifies this
      ensures View() == OnReqLock(cfg, old(View()), c, now)
      ensures Valid()
    {
      ghost var before := View();
      var i := IndexOf(requests, c);
      if i == |requests| {
        assert requests[..i] == requests;
        requests := requests + [c];
      }
      InsertQuiet(before, c);
      assert View() == InsertReq(before, c);
      if cfg.mode == Serial {
        if !lockHeld {
          Schedule(now);
        }
      } else {
        Schedule(now);
      }
    }

    method OnReleased(c: ClientId, now: nat)
      requires Valid() && c in clients
      modifies this
      ensures View() == OnLockReleased(cfg, old(View()), c, now)
      ensures Valid()
    {
      RemoveRequest(c, now);
      if !lockHeld {
        Schedule(now);
      }
    }

    method PreemptAll(now: nat)
      requires Valid()
      modifies this`clients
      ensures View() == ForcePreemption(old(View()), now)
      ensures Valid()
    {
      ghost var was, goal := clients, ForcePreemption(View(), now).clients;
      PatchDone(was, running, goal);
      for i := 0 to |running|
        invariant clients == Patch(was, running[..i], goal)
      {
        PatchStep(was, running, goal, i);
        PreemptRunner(running[i], now);
      }
    }

    method PreemptRunner(c: ClientId, now: nat)
      requires c in clients
      modifies this`clients
      ensures clients == old(clients)[c := Preempt(old(clients)[c], now)]
    {
      SendTo(c, DropLock);
      clients := clients[c := clients[c].(lastDropSent := now)];
    }

    method OnMemory(c: ClientId, usage: nat, now: nat)
      requires Valid() && c in clients
      modifies this
      ensures View() == OnMemUpdate(cfg, old(View()), c, usage, now)
      ensures Valid()
    {
      ghost var before := View();
      var was := clients[c].memory;
      clients := clients[c := clients[c].(memory := usage)];
      if clients[c].isRunning {
        if runningMemory >= was {
          runningMemory := runningMemory - was;
        }
        runningMemory := runningMemory + usage;
        CheckOverload(now);
      }
      assert View() == OnMemUpdate(cfg, before, c, usage, now);
    }

    method CheckOverload(now: nat)
      requires Valid()
      modifies this`overloaded, this`clients
      ensures View() == if !old(overloaded) && runningMemory > SafeLimit(cfg, old(View()))
                        then ForcePreemption(old(View()).(overloaded := true), now)
                        else old(View())
      ensures Valid()
    {
      var safeLimit := totalMemory * (100 - cfg.reservePercent) / 100;
      if !overloaded && runningMemory > safeLimit {
        overloaded := true;
        PreemptAll(now);
      }
    }

    // -------------------------------------------------------------- the timer

    method TimerReset(now: nat)
      requires Valid()
      modifies this
      ensures View() == TimerWindow(cfg, old(View()), now)
      ensures Valid()
    {
      var reset := CheckAndResetWindow(now);
      if reset {
        Schedule(now);
      }
    }

    method CalculateSwitchTime() returns (seconds: int)
      ensures seconds == SwitchTime(cfg, View())
    {
      if cfg.fixedSwitch {
        return cfg.fixedSwitchSec;
      }
      var gigabytes := runningMemory / GIB;
      seconds := (if gigabytes > 0 then gigabytes else 1) * cfg.multiplier;
      if seconds < 10 {
        seconds := 10;
      }
      if seconds > 300 {
        seconds := 300;
      }
    }

    method CalculateSleep(now: nat) returns (sleep: int)
      requires Valid()
      ensures sleep == SleepTime(cfg, View(), now)
    {
      var seconds := CalculateSwitchTime();
      sleep := seconds * 1000;
      var remaining := cfg.windowMs;
      if windowStart > 0 {
        remaining := cfg.windowMs - (now - windowStart);
        if remaining < 0 {
          remaining := 0;
        }
      }
      sleep := if sleep < remaining then sleep else remaining;
      var limitedRunner;
      sleep, limitedRunner := ShortenForRunners(sleep, now);
      if cfg.sampleMs > 0 && limitedRunner {
        sleep := if sleep < cfg.sampleMs then sleep else cfg.sampleMs;
      }
      if sleep > cfg.windowMs {
        sleep := cfg.windowMs;
      }
      if sleep > 0 && sleep < 10 && remaining > 10 {
        sleep := 10;
      }
    }

    /** Shortens the sleep to when the first limited runner uses up its quota. */
    method ShortenForRunners(first: int, now: nat) returns (sleep: int, limitedRunner: bool)
      requires Valid()
      ensures sleep == ShortenAll(cfg, View(), first, now, |running|)
      ensures limitedRunner == HasLimitedRunner(View())
    {
      var n := CountRunningClients();
      sleep, limitedRunner := first, false;
      for i := 0 to |running|
        invariant sleep == ShortenAll(cfg, View(), first, now, i)
        invariant limitedRunner <==> exists j :: 0 <= j < i && IsLimited(clients[running[j]])
      {
        if clients[running[i]].coreLimit < 100 {
          limitedRunner := true;
        }
        sleep := ShortenForRunner(running[i], n, sleep, now);
      }
    }

    method ShortenForRunner(c: ClientId, n: int, sleep0: int, now: nat) returns (sleep: int)
      requires Valid() && c in clients && n == Concurrency(View())
      ensures sleep == Shorten(cfg, View(), c, sleep0, now)
    {
      sleep := sleep0;
      var k := clients[c];
      if k.coreLimit < 100 {
        var quota := GetEffectiveQuota(c);
        var left := quota - (k.runTime + (now - k.runStart) / n);
        if left <= 0 {
          sleep := 0;
        } else {
          sleep := if sleep < left * n then sleep else left * n;
        }
      }
    }

    /** Body of the enforcement loop for one runner. */
    method ThrottleRunner(c: ClientId, n: int, now: nat)
      requires Indexed() && c in clients && n >= 1
      modifies this`clients, this`billed
      ensures View() == CutNth(cfg, old(View()), c, n, now)
    {
      var k := clients[c];
      if k.coreLimit < 100 && !k.throttled && !k.pendingDrop {
        var limit := GetEffectiveQuota(c);
        var pending := (now - k.runStart) / n;
        if k.runTime + pending >= limit {
          clients := clients[c := k.(throttled := true, pendingDrop := true, dropConcurrency := n,
                                     runTime := k.runTime + pending, charged := k.charged + pending,
                                     runStart := now, lastDropSent := now, timerDrops := k.timerDrops + 1)];
          SendTo(c, DropLock);
          billed := billed + pending;
        }
      }
    }

    method ThrottleOverrun(now: nat)
      requires Valid()
      modifies this`clients, this`billed
      ensures View() == Throttle(cfg, old(View()), now)
      ensures Valid()
    {
      var n := CountRunningClients();
      ghost var was := View();
      for i := 0 to |running|
        invariant View() == CutFirst(cfg, was, now, i)
      {
        ThrottleRunner(running[i], n, now);
      }
      CutAllIsThrottle(cfg, was, now);
    }

    method RotateRunners(now: nat)
      requires Indexed() && Distinct(running)
      modifies this`clients
      ensures View() == Rotate(old(View()), now)
    {
      var n := CountRunningClients();
      AskRunners(n, now);
      RotatedAll(old(View()), now);
    }

    method AskRunners(n: int, now: nat)
      requires Indexed() && Distinct(running) && n == Concurrency(View())
      modifies this`clients
      ensures clients == Patch(old(clients), running[..|running|], Rotate(old(View()), now).clients)
    {
      ghost var g := View();
      ghost var goal := Rotate(g, now).clients;
      PatchDone(g.clients, running, goal);
      for i := 0 to |running|
        invariant clients == Patch(g.clients, running[..i], goal)
      {
        PatchStep(g.clients, running, goal, i);
        RotatedEntry(g, now, running[i]);
        AskRunner(running[i], n, now);
      }
    }

    /** Body of the rotation loop for one runner. */
    method AskRunner(c: ClientId, n: int, now: nat)
      requires c in clients
      modifies this`clients
      ensures clients == old(clients)[c := Ask(old(clients)[c], n, now)]
    {
      var k := clients[c];
      if !k.throttled && k.lastDropSent == 0 {
        clients := clients[c := k.(pendingDrop := true, dropConcurrency := n, lastDropSent := now,
                                   timerDrops := k.timerDrops + 1)];
        SendTo(c, DropLock);
      }
    }

    method TimerEnforce(fullQuantum: bool, now: nat)
      requires Valid()
      modifies this`clients, this`billed
      ensures View() == TimerWake(cfg, old(View()), fullQuantum, now)
      ensures Valid()
    {
      ThrottleOverrun(now);
      if fullQuantum && (requests != [] || waitQueue != []) {
        RotateRunners(now);
      }
    }

    // -------------------------------------------------------------- registration

    method RegisterClient(c: ClientId, coreLimit: int)
      requires Valid() && c !in clients
      modifies this`order, this`clients
      ensures View() == Register(old(View()), c, coreLimit)
      ensures Valid()
    {
      order := order + [c];
      clients := clients[c := NewClient(coreLimit)];
    }

    /** Drops the record of a client. */
    method StrikeOut(c: ClientId)
      requires Valid() && c !in requests && c !in waitQueue && c !in running
      modifies this`order, this`clients
      ensures View() == Unregister(old(View()), c)
      ensures Valid()
    {
      order := FilterOut(order, c);
      clients := clients - {c};
      assert View() == Unregister(old(View()), c);
    }

    /** `clean` is false if the client is still on the running list when its record goes. */
    method DeleteClient(c: ClientId, now: nat) returns (clean: bool)
      requires Valid() && c in clients
      modifies this
      ensures clean == OnDisconnect(cfg, old(View()), c, now).Gone?
      ensures View() == OnDisconnect(cfg, old(View()), c, now).gpu
      ensures Valid()
    {
      RemoveRequest(c, now);
      clean := c !in running;
      if clean {
        StrikeOut(c);
        if !lockHeld {
          Schedule(now);
        }
      }
    }
  }
}
