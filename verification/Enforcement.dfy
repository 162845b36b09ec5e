/** What the timer and an overload ask of the runners: exactly who is throttled, who is told to
    drop the lock, and how far over its quota a runner can get. */
module Enforcement {
  import opened Lists
  import opened Arith
  import opened GpuModel
  import opened Sums
  import opened Billing
  import opened Charges
  import opened GpuInvariants
  import opened LockProtocol
  import opened System
  import opened Timer

  // ---------------------------------------------------------------- the timer

  /** What a client has used in the window at this time, its open segment included. */
  function Used(g: Gpu, k: Client, now: nat): int { k.runTime + (now - k.runStart) / Sharers(g) }

  /** A limited runner that was not told to stop yet and has used up its quota. */
  predicate OutOfQuota(cfg: Config, g: Gpu, c: ClientId, now: nat) {
    && c in g.running && c in g.clients
    && var k := g.clients[c];
       k.coreLimit < 100 && !k.pendingDrop && !k.throttled && Used(g, k, now) >= QuotaOf(cfg, g, k)
  }

  /** It is the client's turn to make room: others are queued, the timer slept for a whole
      switch time, and the client was not told to drop the lock yet. */
  predicate MakesRoom(g: Gpu, c: ClientId, fullQuantum: bool) {
    && fullQuantum && (g.requests != [] || g.waitQueue != [])
    && c in g.running && c in g.clients && !g.clients[c].throttled && g.clients[c].lastDropSent == 0
  }

  /** The record of a client told to drop the lock: one DROP_LOCK more on its way. */
  predicate Told(k: Client, k': Client, n: int, now: nat) {
    && k'.socket == k.socket + [Message(DropLock, k.grants)]
    && k'.pendingDrop && k'.lastDropSent == now && k'.dropConcurrency == n
  }

  lemma OverrunIs(cfg: Config, g: Gpu, c: ClientId, now: nat)
    requires Listed(g)
    ensures c in OverrunRunners(cfg, g, now) <==> OutOfQuota(cfg, g, c, now)
  {
    SharersIs(g);
  }

  lemma ThrottleTells(cfg: Config, g: Gpu, c: ClientId, now: nat)
    requires Listed(g) && c in g.clients
    ensures var k, k' := g.clients[c], Throttle(cfg, g, now).clients[c];
            if OutOfQuota(cfg, g, c, now)
            then Told(k, k', Sharers(g), now) && k'.throttled && k'.runTime == Used(g, k, now) && k'.runStart == now
            else k' == k
  {
    OverrunIs(cfg, g, c, now);
    SharersIs(g);
  }

  lemma RotateTells(g: Gpu, c: ClientId, now: nat)
    requires Listed(g) && c in g.clients
    ensures var k, k' := g.clients[c], Rotate(g, now).clients[c];
            if MakesRoom(g.(requests := [c]), c, true)
            then Told(k, k', Sharers(g), now) && k'.throttled == k.throttled && k'.runTime == k.runTime && k'.runStart == k.runStart
            else k' == k
  {
    SharersIs(g);
  }

  lemma ThrottleSharers(cfg: Config, g: Gpu, now: nat)
    ensures Sharers(Throttle(cfg, g, now)) == Sharers(g)
  {
    assert LimitedRunners(Throttle(cfg, g, now)) == LimitedRunners(g);
  }

  /** Whom the timer tells what, in every state.  A runner that has used up its quota is
      charged, throttled and told to drop the lock; one that has to make room is told to drop
      the lock; nobody is told twice, and nothing happens to anybody else. */
  lemma TimerTells(cfg: Config, g: Gpu, fullQuantum: bool, now: nat, c: ClientId)
    requires Listed(g) && c in g.clients
    ensures var k, k' := g.clients[c], TimerWake(cfg, g, fullQuantum, now).clients[c];
            if OutOfQuota(cfg, g, c, now) then
              Told(k, k', Sharers(g), now) && k'.throttled && k'.runTime == Used(g, k, now) && k'.runStart == now
            else if MakesRoom(g, c, fullQuantum) then
              Told(k, k', Sharers(g), now) && !k'.throttled && k'.runTime == k.runTime && k'.runStart == k.runStart
            else k' == k
  {
    var t := Throttle(cfg, g, now);
    ThrottleTells(cfg, g, c, now);
    ThrottleSharers(cfg, g, now);
    RotateTells(t, c, now);
  }

  /** After the timer woke no limited runner is at or over its quota, unless it was told to
      drop the lock or is throttled. */
  lemma NobodyStaysOver(cfg: Config, g: Gpu, fullQuantum: bool, now: nat, c: ClientId)
    requires Listed(g)
    ensures !OutOfQuota(cfg, TimerWake(cfg, g, fullQuantum, now), c, now)
  {
    var r := TimerWake(cfg, g, fullQuantum, now);
    if c in r.running && c in r.clients {
      TimerTells(cfg, g, fullQuantum, now, c);
      WakeKeepsLimits(cfg, g, fullQuantum, now);
    }
  }

  lemma WakeKeepsLimits(cfg: Config, g: Gpu, fullQuantum: bool, now: nat)
    requires Listed(g)
    ensures var r := TimerWake(cfg, g, fullQuantum, now); Sharers(r) == Sharers(g) && TotalQuota(r) == TotalQuota(g)
  {
    var r := TimerWake(cfg, g, fullQuantum, now);
    forall c | c in g.clients ensures r.clients[c].coreLimit == g.clients[c].coreLimit {
      WakeKeepsLimit(cfg, g, fullQuantum, now, c);
    }
    QuotaUnaffected(g, r);
    assert LimitedRunners(r) == LimitedRunners(g);
  }

  lemma WakeKeepsLimit(cfg: Config, g: Gpu, fullQuantum: bool, now: nat, c: ClientId)
    requires c in g.clients
    ensures TimerWake(cfg, g, fullQuantum, now).clients[c].coreLimit == g.clients[c].coreLimit
  {}

  // ---------------------------------------------------------------- a sleep

  /** Nothing that quotas depend on changed. */
  ghost predicate SameAccounts(g: Gpu, r: Gpu) {
    && r.running == g.running && r.order == g.order && r.clients.Keys == g.clients.Keys
    && forall c :: c in g.clients ==> SameAccount(g.clients[c], r.clients[c])
  }

  predicate SameAccount(k: Client, k': Client) {
    && k'.coreLimit == k.coreLimit && k'.runTime == k.runTime && k'.runStart == k.runStart
    && k'.throttled == k.throttled && k'.pendingDrop == k.pendingDrop
  }

  lemma CheckKeepsAccounts(cfg: Config, g: Gpu, now: nat)
    requires ValidConfig(cfg) && Listed(g) && !WindowDue(cfg, g, now)
    ensures var r := CheckWaitQueue(cfg, g, now); SameAccounts(g, r) && !WindowDue(cfg, r, now)
  {
    if g.waitQueue != [] {
      var w := ResetWindow(cfg, g, now);
      WindowLasts(cfg, g, now);
      var i := FirstAdmissible(cfg, w, w.waitQueue);
      if i < |w.waitQueue| {
        PromoteKeepsAccounts(w, i);
        assert CheckWaitQueue(cfg, g, now) == Promote(w, i);
      } else {
        assert CheckWaitQueue(cfg, g, now) == w;
      }
    }
  }

  lemma PromoteKeepsAccounts(w: Gpu, i: nat)
    requires Listed(w) && i < |w.waitQueue|
    ensures SameAccounts(w, Promote(w, i))
  {}

  /** A pass either lets one more client run or keeps all accounts. */
  lemma PassKeepsAccounts(cfg: Config, g: Gpu, now: nat)
    requires ValidConfig(cfg) && Listed(g) && !WindowDue(cfg, g, now)
    ensures var r := Pass(cfg, g, now).0;
            (SameAccounts(g, r) || |r.running| == |g.running| + 1) && !WindowDue(cfg, r, now)
  {
    var g0 := if g.requests == [] then CheckWaitQueue(cfg, g, now) else g;
    CheckKeepsAccounts(cfg, g, now);
    if g0.requests != [] {
      HeadKeepsAccounts(cfg, g0, now);
      var w := ResetWindow(cfg, g0, now);
      var r := if Admissible(cfg, w, w.requests[0]) then Grant(w, now) else MoveToWaitQueue(w);
      assert Pass(cfg, g, now).0 == r;
      if SameAccounts(g0, r) { SameAccountsThen(g, g0, r); }
    }
  }

  lemma SameAccountsThen(g: Gpu, h: Gpu, r: Gpu)
    requires SameAccounts(g, h) && SameAccounts(h, r)
    ensures SameAccounts(g, r)
  {}

  lemma HeadKeepsAccounts(cfg: Config, g: Gpu, now: nat)
    requires ValidConfig(cfg) && Listed(g) && g.requests != [] && !WindowDue(cfg, g, now)
    ensures var w := ResetWindow(cfg, g, now);
            && |Grant(w, now).running| == |g.running| + 1 && !WindowDue(cfg, Grant(w, now), now)
            && SameAccounts(g, MoveToWaitQueue(w)) && !WindowDue(cfg, MoveToWaitQueue(w), now)
  {
    var w := ResetWindow(cfg, g, now);
    WindowLasts(cfg, g, now);
    MoveKeepsAccounts(w);
  }

  lemma MoveKeepsAccounts(w: Gpu)
    requires Listed(w) && w.requests != []
    ensures SameAccounts(w, MoveToWaitQueue(w))
  {}

  /** A round that lets nobody run keeps all accounts, unless the window is due. */
  lemma {:induction false} RoundKeepsAccounts(cfg: Config, g: Gpu, now: nat)
    requires ValidConfig(cfg) && Listed(g) && !WindowDue(cfg, g, now)
    ensures var r := TrySchedule(cfg, g, now);
            |r.running| >= |g.running| && (|r.running| == |g.running| ==> SameAccounts(g, r))
    decreases |g.requests| + |g.waitQueue|, |g.requests|
  {
    PassKeepsAccounts(cfg, g, now);
    var (r, done) := Pass(cfg, g, now);
    if !done {
      RoundKeepsAccounts(cfg, r, now);
      var e := TrySchedule(cfg, r, now);
      if SameAccounts(g, r) && SameAccounts(r, e) { SameAccountsThen(g, r, e); }
    }
  }

  /** What may happen while the timer sleeps undisturbed: clients act, and requests and memory
      reports are read that let nobody run; the window does not end. */
  ghost predicate Undisturbed(cfg: Config, s: Sys, step: Step)
    requires SysInv(cfg, s) && Enabled(cfg, s, step)
  {
    && !WindowDue(cfg, s.gpu, step.at)
    && NextGpu(cfg, s, step).running == s.gpu.running
    && match step.act
       case AppAsks(_) => true
       case AppReceives(_) => true
       case AppReleases(_) => true
       case AppReports(_, _) => true
       case Reads(c) => s.apps[c].outbox[0] != LockReleased
       case _ => false
  }

  lemma UndisturbedKeepsAccounts(cfg: Config, s: Sys, step: Step)
    requires SysInv(cfg, s) && Enabled(cfg, s, step) && Undisturbed(cfg, s, step)
    ensures SameAccounts(s.gpu, NextGpu(cfg, s, step))
  {
    var g, r := s.gpu, NextGpu(cfg, s, step);
    if step.act.Reads? {
      ReadKeepsAccounts(cfg, s, step.act.c, step.at);
      assert r == Handle(cfg, s, step.act.c, step.at);
    } else if step.act.AppReceives? {
      PopKeepsAccounts(g, step.act.c);
      assert r == Pop(g, step.act.c);
    } else {
      assert r == g;
    }
  }

  lemma PopKeepsAccounts(g: Gpu, c: ClientId)
    requires c in g.clients && g.clients[c].socket != []
    ensures SameAccounts(g, Pop(g, c))
  {}

  lemma ReadKeepsAccounts(cfg: Config, s: Sys, c: ClientId, now: nat)
    requires ValidConfig(cfg) && Listed(s.gpu) && Protocol(s.gpu, s.apps) && c in s.apps && s.apps[c].outbox != []
    requires !WindowDue(cfg, s.gpu, now) && s.apps[c].outbox[0] != LockReleased
    requires Handle(cfg, s, c, now).running == s.gpu.running
    ensures SameAccounts(s.gpu, Handle(cfg, s, c, now))
  {
    var g, r := s.gpu, Handle(cfg, s, c, now);
    match s.apps[c].outbox[0]
    case ReqLock =>
      RequestIsFresh(g, s.apps, c);
      RequestKeepsAccounts(cfg, g, c, now);
    case MemUpdate(usage) =>
      forall d | d in g.clients ensures SameAccount(g.clients[d], r.clients[d]) {
        MemUpdateKeepsAccount(cfg, g, c, usage, now, d);
      }
  }

  lemma RequestKeepsAccounts(cfg: Config, g: Gpu, c: ClientId, now: nat)
    requires ValidConfig(cfg) && Listed(g) && c in g.clients && c !in g.waitQueue && c !in g.running
    requires !WindowDue(cfg, g, now) && OnReqLock(cfg, g, c, now).running == g.running
    ensures SameAccounts(g, OnReqLock(cfg, g, c, now))
  {
    InsertKeepsAccounts(g, c);
    var q := InsertReq(g, c);
    if !(cfg.mode == Serial && g.lockHeld) {
      RoundKeepsAccounts(cfg, q, now);
      SameAccountsThen(g, q, TrySchedule(cfg, q, now));
    }
  }

  lemma InsertKeepsAccounts(g: Gpu, c: ClientId)
    requires Listed(g) && c in g.clients && c !in g.waitQueue && c !in g.running
    ensures Listed(InsertReq(g, c)) && SameAccounts(g, InsertReq(g, c))
  {}

  lemma MemUpdateKeepsAccount(cfg: Config, g: Gpu, c: ClientId, usage: nat, now: nat, d: ClientId)
    requires c in g.clients && d in g.clients
    ensures d in OnMemUpdate(cfg, g, c, usage, now).clients
    ensures SameAccount(g.clients[d], OnMemUpdate(cfg, g, c, usage, now).clients[d])
  {
    var k := g.clients[d].(memory := if d == c then usage else g.clients[d].memory);
    var k' := OnMemUpdate(cfg, g, c, usage, now).clients[d];
    assert k' == k || k' == Preempt(k, now);
  }

  ghost predicate UndisturbedRun(cfg: Config, s: Sys, steps: seq<Step>)
    requires SysInv(cfg, s) && IsRun(cfg, s, steps)
    decreases |steps|
  {
    steps != [] ==>
      && Undisturbed(cfg, s, steps[0])
      && (NextKeepsSysInv(cfg, s, steps[0]); UndisturbedRun(cfg, Next(cfg, s, steps[0]), steps[1..]))
  }

  lemma {:induction false} SleepKeepsAccounts(cfg: Config, s: Sys, steps: seq<Step>)
    requires SysInv(cfg, s) && IsRun(cfg, s, steps) && UndisturbedRun(cfg, s, steps)
    ensures SameAccounts(s.gpu, Run(cfg, s, steps).gpu)
    decreases |steps|
  {
    if steps != [] {
      UndisturbedKeepsAccounts(cfg, s, steps[0]);
      NextKeepsSysInv(cfg, s, steps[0]);
      SleepKeepsAccounts(cfg, Next(cfg, s, steps[0]), steps[1..]);
      SameAccountsThen(s.gpu, NextGpu(cfg, s, steps[0]), Run(cfg, s, steps).gpu);
    }
  }

  /** On waking, the runner is found out if it used up its quota, at most 9 ms over it, and is
      then throttled and told to drop the lock; otherwise it is below its quota. */
  ghost predicate Enforced(cfg: Config, e: Gpu, r: Gpu, c: ClientId, wake: nat, quota: int)
    requires c in e.clients && c in r.clients
  {
    var k, k' := e.clients[c], r.clients[c];
    if OutOfQuota(cfg, e, c, wake)
    then Told(k, k', Sharers(e), wake) && k'.throttled && quota <= k'.runTime <= quota + 9
    else k'.throttled == k.throttled && Used(e, k, wake) < quota
  }

  /** Over every run in which the timer computes its sleep, sleeps undisturbed and wakes on
      time, the quota of a limited runner is enforced if it had quota left when the sleep began
      and was not told to drop the lock before. */
  lemma QuotaIsEnforced(cfg: Config, s: Sys, steps: seq<Step>, e: Sys, wake: nat, fullQuantum: bool, c: ClientId)
    requires SysInv(cfg, s) && IsRun(cfg, s, steps) && UndisturbedRun(cfg, s, steps) && e == Run(cfg, s, steps)
    requires wake == s.clock + Max(0, SleepTime(cfg, s.gpu, s.clock))
    requires c in s.gpu.running && s.gpu.clients[c].coreLimit < 100
    requires !s.gpu.clients[c].pendingDrop && !s.gpu.clients[c].throttled
    requires Used(s.gpu, s.gpu.clients[c], s.clock) < QuotaOf(cfg, s.gpu, s.gpu.clients[c])
    ensures c in e.gpu.clients
    ensures Enforced(cfg, e.gpu, TimerWake(cfg, e.gpu, fullQuantum, wake), c, wake, QuotaOf(cfg, s.gpu, s.gpu.clients[c]))
  {
    EndOfSleep(cfg, s, steps, e);
    EnforcedAfterSleep(cfg, s.gpu, e.gpu, s.clock, wake, fullQuantum, c);
  }

  lemma EndOfSleep(cfg: Config, s: Sys, steps: seq<Step>, e: Sys)
    requires SysInv(cfg, s) && IsRun(cfg, s, steps) && UndisturbedRun(cfg, s, steps) && e == Run(cfg, s, steps)
    ensures Listed(e.gpu) && SameAccounts(s.gpu, e.gpu)
  {
    RunKeepsSysInv(cfg, s, steps);
    SleepKeepsAccounts(cfg, s, steps);
  }

  lemma EnforcedAfterSleep(cfg: Config, g: Gpu, e: Gpu, now: nat, wake: nat, fullQuantum: bool, c: ClientId)
    requires ValidConfig(cfg) && Listed(g) && Listed(e) && SameAccounts(g, e)
    requires wake == now + Max(0, SleepTime(cfg, g, now))
    requires c in g.running && g.clients[c].coreLimit < 100 && !g.clients[c].pendingDrop && !g.clients[c].throttled
    requires Used(g, g.clients[c], now) < QuotaOf(cfg, g, g.clients[c])
    ensures c in e.clients && Enforced(cfg, e, TimerWake(cfg, e, fullQuantum, wake), c, wake, QuotaOf(cfg, g, g.clients[c]))
  {
    UsedOnWaking(cfg, g, e, now, c);
    EnforcedOnWaking(cfg, e, fullQuantum, wake, c);
  }

  lemma EnforcedOnWaking(cfg: Config, e: Gpu, fullQuantum: bool, wake: nat, c: ClientId)
    requires Listed(e) && c in e.running
    requires e.clients[c].coreLimit < 100 && !e.clients[c].pendingDrop && !e.clients[c].throttled
    requires Used(e, e.clients[c], wake) <= QuotaOf(cfg, e, e.clients[c]) + 9
    ensures Enforced(cfg, e, TimerWake(cfg, e, fullQuantum, wake), c, wake, QuotaOf(cfg, e, e.clients[c]))
  {
    TimerTells(cfg, e, fullQuantum, wake, c);
  }

  lemma UsedOnWaking(cfg: Config, g: Gpu, e: Gpu, now: nat, c: ClientId)
    requires ValidConfig(cfg) && Listed(g) && SameAccounts(g, e) && c in g.running && g.clients[c].coreLimit < 100
    requires Used(g, g.clients[c], now) < QuotaOf(cfg, g, g.clients[c])
    ensures SameAccount(g.clients[c], e.clients[c]) && QuotaOf(cfg, e, e.clients[c]) == QuotaOf(cfg, g, g.clients[c])
    ensures Used(e, e.clients[c], now + Max(0, SleepTime(cfg, g, now))) <= QuotaOf(cfg, g, g.clients[c]) + 9
  {
    WakesInTime(cfg, g, c, now);
    AccountsKeepQuota(cfg, g, e, c, now + Max(0, SleepTime(cfg, g, now)));
  }

  lemma WakesInTime(cfg: Config, g: Gpu, c: ClientId, now: nat)
    requires ValidConfig(cfg) && Listed(g) && c in g.running && g.clients[c].coreLimit < 100
    requires Used(g, g.clients[c], now) < QuotaOf(cfg, g, g.clients[c])
    ensures Used(g, g.clients[c], now + Max(0, SleepTime(cfg, g, now))) <= QuotaOf(cfg, g, g.clients[c]) + 9
  {
    SharersIs(g);
    var j :| 0 <= j < |g.running| && g.running[j] == c;
    OverrunIsBounded(cfg, g, now, j);
  }

  lemma AccountsKeepQuota(cfg: Config, g: Gpu, e: Gpu, c: ClientId, now: nat)
    requires SameAccounts(g, e) && c in g.clients
    ensures Used(e, e.clients[c], now) == Used(g, g.clients[c], now)
    ensures QuotaOf(cfg, e, e.clients[c]) == QuotaOf(cfg, g, g.clients[c])
  {
    QuotaUnaffected(g, e);
    assert LimitedRunners(e) == LimitedRunners(g);
  }

  // ---------------------------------------------------------------- overload

  /** A memory report flags overload exactly if its sender runs, overload was not flagged, and
      the runners' memory is then more than the reserve leaves.  If it does, every runner is
      sent one DROP_LOCK, which is noted; otherwise nobody is sent anything. */
  lemma OverloadTells(cfg: Config, g: Gpu, c: ClientId, usage: nat, now: nat)
    requires ValidConfig(cfg) && Inv(cfg, g, now) && c in g.clients
    ensures var r := OnMemUpdate(cfg, g, c, usage, now);
            var flagged := c in g.running && !g.overloaded
                           && 100 * Weigh(r.running, r.clients, Memory) > g.totalMemory * (100 - cfg.reservePercent);
            && r.overloaded == (g.overloaded || flagged)
            && forall d :: d in g.clients ==>
                 var k, k' := g.clients[d], r.clients[d];
                 if flagged && d in g.running
                 then k'.socket == k.socket + [Message(DropLock, k.grants)] && k'.lastDropSent == now
                 else k'.socket == k.socket && k'.lastDropSent == k.lastDropSent
  {
    var r := OnMemUpdate(cfg, g, c, usage, now);
    MemUpdateKeepsInv(cfg, g, c, usage, now);
    DivBounds(g.totalMemory * (100 - cfg.reservePercent), 100);
    assert r.runningMemory == Weigh(r.running, r.clients, Memory);
    FlagIs(cfg, g, c, usage, now);
    forall d | d in g.clients
      ensures var k, k' := g.clients[d], r.clients[d];
              if r.overloaded && !g.overloaded && d in g.running
              then k'.socket == k.socket + [Message(DropLock, k.grants)] && k'.lastDropSent == now
              else k'.socket == k.socket && k'.lastDropSent == k.lastDropSent
    {
      FlagTells(cfg, g, c, usage, now, d);
    }
  }

  lemma FlagIs(cfg: Config, g: Gpu, c: ClientId, usage: nat, now: nat)
    requires c in g.clients && (g.clients[c].isRunning <==> c in g.running)
    ensures var r := OnMemUpdate(cfg, g, c, usage, now);
            r.overloaded <==> g.overloaded || (c in g.running && r.runningMemory > SafeLimit(cfg, g))
  {}

  lemma FlagTells(cfg: Config, g: Gpu, c: ClientId, usage: nat, now: nat, d: ClientId)
    requires c in g.clients && d in g.clients
    ensures var r := OnMemUpdate(cfg, g, c, usage, now);
            && d in r.clients
            && var k, k' := g.clients[d], r.clients[d];
               if r.overloaded && !g.overloaded && d in g.running
               then k'.socket == k.socket + [Message(DropLock, k.grants)] && k'.lastDropSent == now
               else k'.socket == k.socket && k'.lastDropSent == k.lastDropSent
  {
    var k := g.clients[d].(memory := if d == c then usage else g.clients[d].memory);
    var r := OnMemUpdate(cfg, g, c, usage, now);
    assert r.clients[d] == if r.overloaded && !g.overloaded && d in g.running then Preempt(k, now) else k;
  }
}
