/** Billing conservation over whole runs, core-limit changes of running clients included. */
module BillingRuns {
  import opened Lists
  import opened GpuModel
  import opened Billing
  import opened Relimits
  import opened Charges
  import opened GpuInvariants
  import opened Departures
  import opened LockProtocol
  import opened System

  // ---------------------------------------------------------------- handlers

  /** What a handler may assume and has to keep. */
  ghost predicate Sound(cfg: Config, g: Gpu, t0: int, now: nat) {
    ValidConfig(cfg) && Inv(cfg, g, now) && Solvent(g, t0, now)
  }

  lemma QuietCarries(cfg: Config, g: Gpu, g': Gpu, t0: int, now: nat)
    requires Sound(cfg, g, t0, now) && Quiet(g, g') && Listed(g')
    requires forall c :: c in g.running ==> g'.clients[c].coreLimit == g.clients[c].coreLimit
    ensures Carries(g, g', t0, now)
  {
    SameSegments(g, g', t0, now);
  }

  lemma CheckCarries(cfg: Config, g: Gpu, t0: int, now: nat)
    requires Sound(cfg, g, t0, now)
    ensures Carries(g, CheckWaitQueue(cfg, g, now), t0, now)
  {
    if g.waitQueue != [] {
      var w := ResetWindow(cfg, g, now);
      ResetConserves(cfg, g, t0, now);
      ResetKeepsInv(cfg, g, now);
      var i := FirstAdmissible(cfg, w, w.waitQueue);
      if i < |w.waitQueue| {
        PromoteQuiet(w, i);
        QuietCarries(cfg, w, Promote(w, i), t0, now);
        assert CheckWaitQueue(cfg, g, now) == Promote(w, i);
      } else {
        assert CheckWaitQueue(cfg, g, now) == w;
      }
    }
  }

  lemma PassCarries(cfg: Config, g: Gpu, t0: int, now: nat)
    requires Sound(cfg, g, t0, now)
    ensures Carries(g, Pass(cfg, g, now).0, t0, now)
  {
    var g0 := if g.requests == [] then CheckWaitQueue(cfg, g, now) else g;
    CheckCarries(cfg, g, t0, now);
    CheckWaitQueueKeepsInv(cfg, g, now);
    if g0.requests != [] {
      HeadCarries(cfg, g0, t0, now);
      var w := ResetWindow(cfg, g0, now);
      assert Pass(cfg, g, now).0 == if Admissible(cfg, w, w.requests[0]) then Grant(w, now) else MoveToWaitQueue(w);
    }
  }

  lemma HeadCarries(cfg: Config, g: Gpu, t0: int, now: nat)
    requires Sound(cfg, g, t0, now) && g.requests != []
    ensures var w := ResetWindow(cfg, g, now);
            Carries(g, if Admissible(cfg, w, w.requests[0]) then Grant(w, now) else MoveToWaitQueue(w), t0, now)
  {
    var w := ResetWindow(cfg, g, now);
    ResetConserves(cfg, g, t0, now);
    ResetKeepsInv(cfg, g, now);
    if Admissible(cfg, w, w.requests[0]) {
      GrantConserves(w, t0, now);
    } else {
      MoveQuiet(w);
      QuietCarries(cfg, w, MoveToWaitQueue(w), t0, now);
    }
  }

  lemma {:induction false} RoundCarries(cfg: Config, g: Gpu, t0: int, now: nat)
    requires Sound(cfg, g, t0, now)
    ensures Carries(g, TrySchedule(cfg, g, now), t0, now)
    decreases |g.requests| + |g.waitQueue|, |g.requests|
  {
    PassCarries(cfg, g, t0, now);
    PassKeepsInv(cfg, g, now);
    var (r, done) := Pass(cfg, g, now);
    if !done { RoundCarries(cfg, r, t0, now); }
  }

  lemma RemoveReqCarries(cfg: Config, g: Gpu, c: ClientId, t0: int, now: nat)
    requires Sound(cfg, g, t0, now) && c in g.clients
    ensures Carries(g, RemoveReq(cfg, g, c, now), t0, now)
  {
    var g1 := Release(cfg, g, c, now);
    ReleaseConserves(cfg, g, c, t0, now);
    ReleaseKeepsInv(cfg, g, c, now);
    var g2 := if g1.running == [] then TrySchedule(cfg, CheckWaitQueue(cfg, g1, now), now) else g1;
    if g1.running == [] {
      CheckCarries(cfg, g1, t0, now);
      CheckWaitQueueKeepsInv(cfg, g1, now);
      RoundCarries(cfg, CheckWaitQueue(cfg, g1, now), t0, now);
      TryScheduleKeepsInv(cfg, CheckWaitQueue(cfg, g1, now), now);
    }
    ForgetQuiet(g2, c);
    QuietCarries(cfg, g2, Forget(g2, c), t0, now);
  }

  lemma RequestCarries(cfg: Config, g: Gpu, c: ClientId, t0: int, now: nat)
    requires Sound(cfg, g, t0, now) && c in g.clients && c !in g.waitQueue && c !in g.running
    ensures Carries(g, OnReqLock(cfg, g, c, now), t0, now)
  {
    InsertQuiet(g, c);
    QuietCarries(cfg, g, InsertReq(g, c), t0, now);
    QuietKeepsInv(cfg, g, InsertReq(g, c), now);
    RoundCarries(cfg, InsertReq(g, c), t0, now);
  }

  lemma ReleasedCarries(cfg: Config, g: Gpu, c: ClientId, t0: int, now: nat)
    requires Sound(cfg, g, t0, now) && c in g.clients
    ensures Carries(g, OnLockReleased(cfg, g, c, now), t0, now)
  {
    RemoveReqCarries(cfg, g, c, t0, now);
    RemoveReqKeepsInv(cfg, g, c, now);
    RoundCarries(cfg, RemoveReq(cfg, g, c, now), t0, now);
  }

  lemma HandleCarries(cfg: Config, s: Sys, c: ClientId, t0: int, now: nat)
    requires Sound(cfg, s.gpu, t0, now) && Protocol(s.gpu, s.apps) && c in s.apps && s.apps[c].outbox != []
    ensures Carries(s.gpu, Handle(cfg, s, c, now), t0, now)
  {
    var g, r := s.gpu, Handle(cfg, s, c, now);
    match s.apps[c].outbox[0]
    case ReqLock =>
      RequestIsFresh(g, s.apps, c);
      RequestCarries(cfg, g, c, t0, now);
      assert r == OnReqLock(cfg, g, c, now);
    case LockReleased =>
      ReleasedCarries(cfg, g, c, t0, now);
      assert r == OnLockReleased(cfg, g, c, now);
    case MemUpdate(usage) =>
      MemUpdateResizes(cfg, g, c, usage, now);
      SameSegments(g, OnMemUpdate(cfg, g, c, usage, now), t0, now);
      assert r == OnMemUpdate(cfg, g, c, usage, now);
  }

  lemma TimerCarries(cfg: Config, g: Gpu, fullQuantum: bool, t0: int, now: nat)
    requires Sound(cfg, g, t0, now)
    ensures Carries(g, TimerWindow(cfg, g, now), t0, now)
    ensures Carries(g, TimerWake(cfg, g, fullQuantum, now), t0, now)
  {
    ResetConserves(cfg, g, t0, now);
    ResetKeepsInv(cfg, g, now);
    RoundCarries(cfg, ResetWindow(cfg, g, now), t0, now);
    ThrottleConserves(cfg, g, t0, now);
    ThrottleKeepsInv(cfg, g, now);
    RotateConserves(Throttle(cfg, g, now), t0, now);
  }

  lemma DisconnectCarries(cfg: Config, g: Gpu, c: ClientId, t0: int, now: nat)
    requires Sound(cfg, g, t0, now) && c in g.clients && OnDisconnect(cfg, g, c, now).Gone?
    ensures Carries(g, OnDisconnect(cfg, g, c, now).gpu, t0, now)
  {
    var g1 := RemoveReq(cfg, g, c, now);
    RemoveReqCarries(cfg, g, c, t0, now);
    RemoveReqKeepsInv(cfg, g, c, now);
    UnregisterQuiet(g1, c);
    QuietCarries(cfg, g1, Unregister(g1, c), t0, now);
    QuietKeepsInv(cfg, g1, Unregister(g1, c), now);
    RoundCarries(cfg, Unregister(g1, c), t0, now);
  }

  // ---------------------------------------------------------------- steps

  /** If the step changes a core limit, the unbilled time is what the changed state needs. */
  predicate Affords(s: Sys, step: Step, t0: int) {
    step.act.Relimits? && step.act.c in s.gpu.clients ==>
      Need(SetCoreLimit(s.gpu, step.act.c, step.act.coreLimit), step.at) <= Unbilled(s.gpu, t0, step.at)
  }

  /** If the step makes a runner active, its segment started with those of the active ones. */
  ghost predicate Joinable(s: Sys, step: Step) {
    step.act.Relimits? && Crosses(s.gpu, step.act.c, step.act.coreLimit) && step.act.coreLimit < 100
    && !s.gpu.clients[step.act.c].pendingDrop ==>
      forall d :: ActiveRunner(s.gpu, d) ==> s.gpu.clients[d].runStart == s.gpu.clients[step.act.c].runStart
  }

  lemma SchedulerCarries(cfg: Config, s: Sys, step: Step, t0: int)
    requires SysInv(cfg, s) && Enabled(cfg, s, step) && Sound(cfg, s.gpu, t0, step.at)
    requires step.act.Reads? || step.act.TimerTop? || step.act.TimerBottom? || step.act.Goes?
    ensures Carries(s.gpu, NextGpu(cfg, s, step), t0, step.at)
  {
    var g, r, now := s.gpu, NextGpu(cfg, s, step), step.at;
    match step.act
    case Reads(c) =>
      HandleCarries(cfg, s, c, t0, now);
      assert r == Handle(cfg, s, c, now);
    case TimerTop =>
      TimerCarries(cfg, g, false, t0, now);
      assert r == TimerWindow(cfg, g, now);
    case TimerBottom(fullQuantum) =>
      TimerCarries(cfg, g, fullQuantum, t0, now);
      assert r == TimerWake(cfg, g, fullQuantum, now);
    case Goes(c) =>
      DisconnectCarries(cfg, g, c, t0, now);
      assert r == OnDisconnect(cfg, g, c, now).gpu;
  }

  lemma OutsideCarries(cfg: Config, s: Sys, step: Step, t0: int)
    requires SysInv(cfg, s) && Enabled(cfg, s, step) && Sound(cfg, s.gpu, t0, step.at)
    requires !step.act.Reads? && !step.act.TimerTop? && !step.act.TimerBottom? && !step.act.Goes? && !step.act.Relimits?
    ensures Carries(s.gpu, NextGpu(cfg, s, step), t0, step.at)
  {
    var g, r, now := s.gpu, NextGpu(cfg, s, step), step.at;
    if step.act.AppReceives? {
      assert r == Pop(g, step.act.c);
      PopCarries(cfg, g, step.act.c, t0, now);
    } else if step.act.Joins? {
      assert r == Register(g, step.act.c, step.act.coreLimit);
      JoinCarries(cfg, g, step.act.c, step.act.coreLimit, t0, now);
    } else {
      assert r == g;
    }
  }

  lemma PopCarries(cfg: Config, g: Gpu, c: ClientId, t0: int, now: nat)
    requires Sound(cfg, g, t0, now) && c in g.clients && g.clients[c].socket != []
    ensures Carries(g, Pop(g, c), t0, now)
  {
    PopQuiet(g, c);
    QuietCarries(cfg, g, Pop(g, c), t0, now);
  }

  lemma JoinCarries(cfg: Config, g: Gpu, c: ClientId, limit: int, t0: int, now: nat)
    requires Sound(cfg, g, t0, now) && c !in g.clients
    ensures Carries(g, Register(g, c, limit), t0, now)
  {
    RegisterQuiet(g, c, limit);
    QuietCarries(cfg, g, Register(g, c, limit), t0, now);
  }

  /** Every step other than a change of a limit keeps the state solvent and the start shared. */
  lemma StepCarries(cfg: Config, s: Sys, step: Step, t0: int)
    requires SysInv(cfg, s) && Enabled(cfg, s, step) && Solvent(s.gpu, t0, s.clock) && !step.act.Relimits?
    ensures Carries(s.gpu, NextGpu(cfg, s, step), t0, step.at)
  {
    TimePasses(cfg, s.gpu, s.clock, step.at);
    if step.act.Reads? || step.act.TimerTop? || step.act.TimerBottom? || step.act.Goes? {
      SchedulerCarries(cfg, s, step, t0);
    } else {
      OutsideCarries(cfg, s, step, t0);
    }
  }

  /** From a solvent state, a step leads to a solvent state if and only if it affords what it
      does; and it keeps a shared start unless it lets someone join late. */
  lemma NextSolvent(cfg: Config, s: Sys, step: Step, t0: int)
    requires SysInv(cfg, s) && Enabled(cfg, s, step) && Solvent(s.gpu, t0, s.clock)
    ensures Solvent(NextGpu(cfg, s, step), t0, step.at) <==> Affords(s, step, t0)
    ensures SharedStart(s.gpu) && Joinable(s, step) ==> SharedStart(NextGpu(cfg, s, step))
  {
    if step.act.Relimits? {
      TimePasses(cfg, s.gpu, s.clock, step.at);
      RelimitStep(s, step, t0);
      assert NextGpu(cfg, s, step) == SetCoreLimit(s.gpu, step.act.c, step.act.coreLimit);
    } else {
      StepCarries(cfg, s, step, t0);
    }
  }

  lemma RelimitStep(s: Sys, step: Step, t0: int)
    requires Listed(s.gpu) && Timely(s.gpu, step.at) && step.act.Relimits? && step.act.c in s.gpu.clients
    ensures Solvent(SetCoreLimit(s.gpu, step.act.c, step.act.coreLimit), t0, step.at) <==> Affords(s, step, t0)
    ensures SharedStart(s.gpu) && Joinable(s, step) ==> SharedStart(SetCoreLimit(s.gpu, step.act.c, step.act.coreLimit))
  {
    RelimitSafe(s.gpu, step.act.c, step.act.coreLimit, t0, step.at);
    if SharedStart(s.gpu) { RelimitSharesStart(s.gpu, step.act.c, step.act.coreLimit); }
  }

  // ---------------------------------------------------------------- runs

  /** Every state of a run is solvent. */
  ghost predicate SolventThroughout(cfg: Config, s: Sys, steps: seq<Step>, t0: int)
    requires SysInv(cfg, s) && IsRun(cfg, s, steps)
    decreases |steps|
  {
    && Solvent(s.gpu, t0, s.clock)
    && (steps != [] ==>
          (NextKeepsSysInv(cfg, s, steps[0]); SolventThroughout(cfg, Next(cfg, s, steps[0]), steps[1..], t0)))
  }

  /** Every change of a limit in a run is afforded at its time. */
  ghost predicate AffordsThroughout(cfg: Config, s: Sys, steps: seq<Step>, t0: int)
    requires SysInv(cfg, s) && IsRun(cfg, s, steps)
    decreases |steps|
  {
    steps != [] ==>
      && Affords(s, steps[0], t0)
      && (NextKeepsSysInv(cfg, s, steps[0]); AffordsThroughout(cfg, Next(cfg, s, steps[0]), steps[1..], t0))
  }

  /** Over a run from a solvent state every state is solvent if and only if every change of a
      core limit is afforded. */
  lemma {:induction false} SolventRunExactly(cfg: Config, s: Sys, steps: seq<Step>, t0: int)
    requires SysInv(cfg, s) && IsRun(cfg, s, steps) && Solvent(s.gpu, t0, s.clock)
    ensures SolventThroughout(cfg, s, steps, t0) <==> AffordsThroughout(cfg, s, steps, t0)
    decreases |steps|
  {
    if steps != [] {
      NextKeepsSysInv(cfg, s, steps[0]);
      NextSolvent(cfg, s, steps[0], t0);
      var s' := Next(cfg, s, steps[0]);
      if Solvent(s'.gpu, t0, s'.clock) {
        SolventRunExactly(cfg, s', steps[1..], t0);
      }
    }
  }

  lemma {:induction false} SolventAtTheEnd(cfg: Config, s: Sys, steps: seq<Step>, t0: int)
    requires SysInv(cfg, s) && IsRun(cfg, s, steps) && SolventThroughout(cfg, s, steps, t0)
    ensures var r := Run(cfg, s, steps); Solvent(r.gpu, t0, r.clock) && r.gpu.billed <= r.clock - t0
    decreases |steps|
  {
    if steps == [] {
      SolventNow(s.gpu, t0, s.clock);
    } else {
      NextKeepsSysInv(cfg, s, steps[0]);
      SolventAtTheEnd(cfg, Next(cfg, s, steps[0]), steps[1..], t0);
    }
  }

  lemma InitSolvent(totalMemory: nat, t0: nat)
    ensures Solvent(Init(totalMemory, t0).gpu, t0, t0)
  {}

  /** Billing conservation: over any run from the start in which every change of a limit is
      afforded, what quota-limited runners with no drop pending were charged is at most the
      time that passed. */
  lemma BillingConservation(cfg: Config, totalMemory: nat, t0: nat, steps: seq<Step>)
    requires SysInv(cfg, Init(totalMemory, t0)) && IsRun(cfg, Init(totalMemory, t0), steps)
    requires AffordsThroughout(cfg, Init(totalMemory, t0), steps, t0)
    ensures Charged(cfg, Init(totalMemory, t0), steps) <= Run(cfg, Init(totalMemory, t0), steps).clock - t0
  {
    InitSolvent(totalMemory, t0);
    SolventRunExactly(cfg, Init(totalMemory, t0), steps, t0);
    SolventAtTheEnd(cfg, Init(totalMemory, t0), steps, t0);
    BilledIsCharged(cfg, Init(totalMemory, t0), steps);
  }

  /** No running client gains or loses its limit. */
  ghost predicate NobodyCrosses(cfg: Config, s: Sys, steps: seq<Step>)
    requires SysInv(cfg, s) && IsRun(cfg, s, steps)
    decreases |steps|
  {
    steps != [] ==>
      && (steps[0].act.Relimits? ==> !Crosses(s.gpu, steps[0].act.c, steps[0].act.coreLimit))
      && (NextKeepsSysInv(cfg, s, steps[0]); NobodyCrosses(cfg, Next(cfg, s, steps[0]), steps[1..]))
  }

  /** A change that makes no runner gain or lose its limit is afforded by a solvent state. */
  lemma PlainChangeAffords(cfg: Config, s: Sys, step: Step, t0: int)
    requires SysInv(cfg, s) && Enabled(cfg, s, step) && Solvent(s.gpu, t0, s.clock)
    requires step.act.Relimits? ==> !Crosses(s.gpu, step.act.c, step.act.coreLimit)
    ensures Affords(s, step, t0)
  {
    if step.act.Relimits? {
      TimePasses(cfg, s.gpu, s.clock, step.at);
      SolventExactly(s.gpu, t0, step.at);
      RelimitSafe(s.gpu, step.act.c, step.act.coreLimit, t0, step.at);
    }
  }

  /** In such runs every change is afforded, and all limited runners without a pending drop
      share one segment start. */
  lemma {:induction false} SegmentsStartTogether(cfg: Config, s: Sys, steps: seq<Step>, t0: int)
    requires SysInv(cfg, s) && IsRun(cfg, s, steps) && NobodyCrosses(cfg, s, steps)
    requires Solvent(s.gpu, t0, s.clock) && SharedStart(s.gpu)
    ensures AffordsThroughout(cfg, s, steps, t0)
    ensures SharedStart(Run(cfg, s, steps).gpu)
    decreases |steps|
  {
    if steps != [] {
      NextKeepsSysInv(cfg, s, steps[0]);
      PlainChangeAffords(cfg, s, steps[0], t0);
      NextSolvent(cfg, s, steps[0], t0);
      SegmentsStartTogether(cfg, Next(cfg, s, steps[0]), steps[1..], t0);
    }
  }

  // ---------------------------------------------------------------- solvency is exact

  lemma PassBillsMore(cfg: Config, g: Gpu, now: nat)
    requires ValidConfig(cfg) && Listed(g)
    ensures g.billed <= Pass(cfg, g, now).0.billed
  {
    var g0 := if g.requests == [] then CheckWaitQueue(cfg, g, now) else g;
    CheckBillsMore(cfg, g, now);
    if g0.requests != [] {
      var w := ResetWindow(cfg, g0, now);
      ResetBillsMore(cfg, g0, now);
      GrantBillsMore(w, now);
      assert Pass(cfg, g, now).0 == if Admissible(cfg, w, w.requests[0]) then Grant(w, now) else MoveToWaitQueue(w);
    }
  }

  lemma AccrueBillsMore(g: Gpu, now: nat)
    ensures g.billed <= Accrue(g, now, {}).billed
  {
    SharesNonNegative(g.running, g.clients - {}, now, Concurrency(g));
  }

  lemma ResetBillsMore(cfg: Config, g: Gpu, now: nat)
    ensures g.billed <= ResetWindow(cfg, g, now).billed
  {
    AccrueBillsMore(g.(windowStart := now), now);
  }

  lemma GrantBillsMore(g: Gpu, now: nat)
    requires g.requests != [] && g.requests[0] in g.clients
    ensures g.billed <= Grant(g, now).billed
  {
    AccrueBillsMore(g, now);
  }

  lemma CheckBillsMore(cfg: Config, g: Gpu, now: nat)
    requires Listed(g)
    ensures g.billed <= CheckWaitQueue(cfg, g, now).billed
  {
    ResetBillsMore(cfg, g, now);
  }

  /** A scheduling round takes no charge back. */
  lemma {:induction false} RoundBillsMore(cfg: Config, g: Gpu, now: nat)
    requires ValidConfig(cfg) && Listed(g)
    ensures g.billed <= TrySchedule(cfg, g, now).billed
    decreases |g.requests| + |g.waitQueue|, |g.requests|
  {
    PassBillsMore(cfg, g, now);
    var (r, done) := Pass(cfg, g, now);
    if !done { RoundBillsMore(cfg, r, now); }
  }

  /** A runner that disconnects at t makes the scheduler bill what settling everyone costs. */
  lemma DisconnectBills(cfg: Config, g: Gpu, c: ClientId, t: nat)
    requires ValidConfig(cfg) && Listed(g) && Timely(g, t) && c in g.running
    ensures OnDisconnect(cfg, g, c, t).Gone?
    ensures g.billed + Shares(g, t) <= OnDisconnect(cfg, g, c, t).gpu.billed
  {
    RunnerLeavesCleanly(cfg, g, c, t);
    ReleaseBills(cfg, g, c, t);
    var g1, a := Release(cfg, g, c, t), RemoveReq(cfg, g, c, t);
    if g1.running == [] {
      CheckBillsMore(cfg, g1, t);
      RoundBillsMore(cfg, CheckWaitQueue(cfg, g1, t), t);
    }
    assert g1.billed <= a.billed;
    var u := Unregister(a, c);
    if !u.lockHeld { RoundBillsMore(cfg, u, t); }
  }

  /** A run that changes no core limit. */
  predicate KeepsLimits(steps: seq<Step>) {
    forall i :: 0 <= i < |steps| ==> !steps[i].act.Relimits?
  }

  /** Charges stay within the wall time whatever happens next, short of changes of limits. */
  ghost predicate StaysWithin(cfg: Config, s: Sys, t0: int)
    requires SysInv(cfg, s)
  {
    forall steps :: IsRun(cfg, s, steps) && KeepsLimits(steps) ==>
      s.gpu.billed + Charged(cfg, s, steps) <= Run(cfg, s, steps).clock - t0
  }

  lemma KeepsLimitsRest(steps: seq<Step>)
    requires KeepsLimits(steps) && steps != []
    ensures !steps[0].act.Relimits? && KeepsLimits(steps[1..])
  {}

  lemma {:induction false} KeepsLimitsAffords(cfg: Config, s: Sys, steps: seq<Step>, t0: int)
    requires SysInv(cfg, s) && IsRun(cfg, s, steps) && KeepsLimits(steps)
    ensures AffordsThroughout(cfg, s, steps, t0)
    decreases |steps|
  {
    if steps != [] {
      KeepsLimitsRest(steps);
      NextKeepsSysInv(cfg, s, steps[0]);
      KeepsLimitsAffords(cfg, Next(cfg, s, steps[0]), steps[1..], t0);
    }
  }

  lemma GoesStep(cfg: Config, s: Sys, c: ClientId, t: nat)
    requires ValidConfig(cfg) && Listed(s.gpu) && Protocol(s.gpu, s.apps) && s.clock <= t && c in s.gpu.clients
    requires OnDisconnect(cfg, s.gpu, c, t).Gone?
    ensures Enabled(cfg, s, Step(t, Goes(c)))
    ensures NextGpu(cfg, s, Step(t, Goes(c))) == OnDisconnect(cfg, s.gpu, c, t).gpu
  {}

  /** A runner can disconnect at any time, and that step bills everyone's shares. */
  lemma RunnerGoes(cfg: Config, s: Sys, c: ClientId, t: nat)
    requires ValidConfig(cfg) && Listed(s.gpu) && Protocol(s.gpu, s.apps)
    requires s.clock <= t && Timely(s.gpu, t) && c in s.gpu.running
    ensures Enabled(cfg, s, Step(t, Goes(c)))
    ensures s.gpu.billed + Shares(s.gpu, t) <= NextGpu(cfg, s, Step(t, Goes(c))).billed
  {
    DisconnectBills(cfg, s.gpu, c, t);
    GoesStep(cfg, s, c, t);
  }

  lemma OverbillingRun(cfg: Config, s: Sys, steps: seq<Step>, t0: int)
    requires SysInv(cfg, s) && IsRun(cfg, s, steps) && KeepsLimits(steps)
    requires Run(cfg, s, steps).gpu.billed > Run(cfg, s, steps).clock - t0
    ensures !StaysWithin(cfg, s, t0)
  {
    BilledIsCharged(cfg, s, steps);
  }

  lemma StepOverbills(cfg: Config, s: Sys, step: Step, t0: int)
    requires SysInv(cfg, s) && Enabled(cfg, s, step) && !step.act.Relimits?
    requires NextGpu(cfg, s, step).billed > step.at - t0
    ensures !StaysWithin(cfg, s, t0)
  {
    OneStepRun(cfg, s, step);
    OverbillingRun(cfg, s, [step], t0);
  }

  lemma LeaverOverbills(cfg: Config, s: Sys, c: ClientId, t0: int, t: nat)
    requires SysInv(cfg, s) && s.clock <= t && Timely(s.gpu, t) && c in s.gpu.running
    requires Shares(s.gpu, t) > Unbilled(s.gpu, t0, t)
    ensures !StaysWithin(cfg, s, t0)
  {
    RunnerGoes(cfg, s, c, t);
    StepOverbills(cfg, s, Step(t, Goes(c)), t0);
  }

  lemma IdleOverbills(cfg: Config, s: Sys, t0: int, t: nat)
    requires SysInv(cfg, s) && s.clock <= t && s.gpu.running == [] && Shares(s.gpu, t) > Unbilled(s.gpu, t0, t)
    ensures !StaysWithin(cfg, s, t0)
  {
    assert IsRun(cfg, s, []) && KeepsLimits([]);
    OverbillingRun(cfg, s, [], t0);
  }

  lemma TimelyLater(g: Gpu, now: nat, later: nat)
    requires Timely(g, now) && now <= later
    ensures Timely(g, later)
  {}

  /** From a state that is not solvent a run of at most one step overbills. */
  lemma InsolventOverbills(cfg: Config, s: Sys, t0: int, t: nat)
    requires SysInv(cfg, s) && s.clock <= t && Shares(s.gpu, t) > Unbilled(s.gpu, t0, t)
    ensures !StaysWithin(cfg, s, t0)
  {
    TimelyLater(s.gpu, s.clock, t);
    if s.gpu.running == [] {
      IdleOverbills(cfg, s, t0, t);
    } else {
      LeaverOverbills(cfg, s, s.gpu.running[0], t0, t);
    }
  }

  lemma OneStepRun(cfg: Config, s: Sys, step: Step)
    requires SysInv(cfg, s) && Enabled(cfg, s, step)
    ensures IsRun(cfg, s, [step])
    ensures Run(cfg, s, [step]).gpu == NextGpu(cfg, s, step) && Run(cfg, s, [step]).clock == step.at
  {
    assert IsRun(cfg, s, []) && Run(cfg, s, []) == s;
    RunExtends(cfg, s, [], step);
    assert [] + [step] == [step];
  }

  /** From every state: every run without changes of limits keeps the charges within the wall
      time if and only if the state is solvent, which is if and only if the unbilled time is
      what it needs. */
  lemma StaysWithinExactly(cfg: Config, s: Sys, t0: int)
    requires SysInv(cfg, s)
    ensures StaysWithin(cfg, s, t0) <==> Solvent(s.gpu, t0, s.clock)
    ensures StaysWithin(cfg, s, t0) <==> Need(s.gpu, s.clock) <= Unbilled(s.gpu, t0, s.clock)
  {
    SolventExactly(s.gpu, t0, s.clock);
    if Solvent(s.gpu, t0, s.clock) {
      forall steps | IsRun(cfg, s, steps) && KeepsLimits(steps)
        ensures s.gpu.billed + Charged(cfg, s, steps) <= Run(cfg, s, steps).clock - t0
      {
        BilledIsCharged(cfg, s, steps);
        KeepsLimitsAffords(cfg, s, steps, t0);
        SolventRunExactly(cfg, s, steps, t0);
        SolventAtTheEnd(cfg, s, steps, t0);
      }
    } else {
      var t: nat :| s.clock <= t && Shares(s.gpu, t) > Unbilled(s.gpu, t0, t);
      InsolventOverbills(cfg, s, t0, t);
    }
  }

  /** Every state of a run is one from which charges stay within the wall time. */
  ghost predicate WithinThroughout(cfg: Config, s: Sys, steps: seq<Step>, t0: int)
    requires SysInv(cfg, s) && IsRun(cfg, s, steps)
    decreases |steps|
  {
    && StaysWithin(cfg, s, t0)
    && (steps != [] ==>
          (NextKeepsSysInv(cfg, s, steps[0]); WithinThroughout(cfg, Next(cfg, s, steps[0]), steps[1..], t0)))
  }

  lemma {:induction false} WithinIsSolvent(cfg: Config, s: Sys, steps: seq<Step>, t0: int)
    requires SysInv(cfg, s) && IsRun(cfg, s, steps)
    ensures WithinThroughout(cfg, s, steps, t0) <==> SolventThroughout(cfg, s, steps, t0)
    decreases |steps|
  {
    StaysWithinExactly(cfg, s, t0);
    if steps != [] {
      NextKeepsSysInv(cfg, s, steps[0]);
      WithinIsSolvent(cfg, Next(cfg, s, steps[0]), steps[1..], t0);
    }
  }

  /** Over every run from the start: at no point can the run go on, without further changes of
      limits, to overbill if and only if every change of a limit in it is afforded. */
  lemma ConservationExactly(cfg: Config, totalMemory: nat, t0: nat, steps: seq<Step>)
    requires SysInv(cfg, Init(totalMemory, t0)) && IsRun(cfg, Init(totalMemory, t0), steps)
    ensures WithinThroughout(cfg, Init(totalMemory, t0), steps, t0)
            <==> AffordsThroughout(cfg, Init(totalMemory, t0), steps, t0)
  {
    InitSolvent(totalMemory, t0);
    SolventRunExactly(cfg, Init(totalMemory, t0), steps, t0);
    WithinIsSolvent(cfg, Init(totalMemory, t0), steps, t0);
  }

  /** A change of a core limit is safe, in that no run after it overbills until limits change
      again, if and only if it is afforded. */
  lemma ChangeIsSafeExactly(cfg: Config, s: Sys, step: Step, t0: int)
    requires SysInv(cfg, s) && Enabled(cfg, s, step) && step.act.Relimits?
    ensures SysInv(cfg, Next(cfg, s, step))
    ensures StaysWithin(cfg, Next(cfg, s, step), t0) <==> Affords(s, step, t0)
  {
    NextKeepsSysInv(cfg, s, step);
    StaysWithinExactly(cfg, Next(cfg, s, step), t0);
    assert NextGpu(cfg, s, step) == SetCoreLimit(s.gpu, step.act.c, step.act.coreLimit);
  }
}
