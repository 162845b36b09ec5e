/** In serial mode, with unlimited clients, the scheduler is a single FIFO lock, although
    window resets shuffle requests into the wait queue and promotions put waiting clients
    in front of the requests. */
module SerialFifo {
  import opened Lists
  import opened GpuModel
  import opened GpuInvariants
  import opened Scheduling
  import opened Departures
  import opened LockProtocol
  import opened System

  /** A lock with at most one holder and a queue in order of arrival. */
  datatype Fifo = Fifo(holder: seq<ClientId>, queue: seq<ClientId>)

  datatype Event =
    | Request(c: ClientId)      // c asks for the lock
    | Yield(c: ClientId)        // c gives the lock up, or is gone
    | Nothing

  function PassOn(queue: seq<ClientId>): Fifo {
    if queue == [] then Fifo([], []) else Fifo([queue[0]], queue[1..])
  }

  function Serve(f: Fifo, e: Event): Fifo {
    match e
    case Request(c) => if f.holder == [] then PassOn(f.queue + [c]) else f.(queue := f.queue + [c])
    case Yield(c) => if c in f.holder then PassOn(f.queue) else f.(queue := Without(f.queue, c))
    case Nothing => f
  }

  /** The FIFO lock a GPU stands for: arrival order is the wait queue, then the requests. */
  function Abs(g: Gpu): Fifo {
    Fifo(g.running, g.waitQueue + g.requests)
  }

  /** Serial mode, unlimited clients, and nothing waits while nothing runs. */
  ghost predicate Plain(cfg: Config, g: Gpu) {
    && ValidConfig(cfg) && cfg.mode == Serial
    && Listed(g)
    && (g.lockHeld <==> g.running != [])
    && |g.running| <= 1
    && (forall c :: c in g.clients ==> !IsLimited(g.clients[c]))
  }

  ghost predicate Served(g: Gpu) {
    g.running == [] ==> g.requests == [] && g.waitQueue == []
  }

  /** From g to r the FIFO lock serves event e. */
  ghost predicate Refines(cfg: Config, g: Gpu, r: Gpu, e: Event) {
    Plain(cfg, r) && Served(r) && Abs(r) == Serve(Abs(g), e)
  }

  /** Everyone may run exactly when nobody does. */
  lemma AdmissionIsTheLock(cfg: Config, g: Gpu, c: ClientId)
    requires Plain(cfg, g) && c in g.clients
    ensures Admissible(cfg, g, c) <==> g.running == []
  {}

  lemma ResetStaysPlain(cfg: Config, g: Gpu, now: nat)
    requires Plain(cfg, g)
    ensures Plain(cfg, ResetWindow(cfg, g, now))
  {
    var r := ResetWindow(cfg, g, now);
    forall c | c in r.clients ensures !IsLimited(r.clients[c]) {
      ResetKeepsLimit(cfg, g, c, now);
    }
  }

  lemma ResetKeepsLimit(cfg: Config, g: Gpu, c: ClientId, now: nat)
    requires c in g.clients
    ensures ResetWindow(cfg, g, now).clients[c].coreLimit == g.clients[c].coreLimit
  {
    if WindowDue(cfg, g, now) {
      var a := Accrue(g.(windowStart := now), now, {});
      assert a.clients[c].coreLimit == g.clients[c].coreLimit;
    }
  }

  lemma GrantStaysPlain(cfg: Config, g: Gpu, now: nat)
    requires Plain(cfg, g) && g.requests != [] && g.running == []
    ensures Plain(cfg, Grant(g, now))
  {
    var r := Grant(g, now);
    forall c | c in r.clients ensures !IsLimited(r.clients[c]) {
      GrantKeepsLimit(g, c, now);
    }
  }

  // ---------------------------------------------------------------- rounds

  /** While someone runs, a pass sends the head of the requests to the end of the wait queue. */
  lemma BusyPass(cfg: Config, g: Gpu, now: nat)
    requires Plain(cfg, g) && g.running != []
    ensures var (r, done) := Pass(cfg, g, now);
            && Plain(cfg, r) && r.running == g.running
            && r.waitQueue + r.requests == g.waitQueue + g.requests
            && (g.requests == [] ==> done)
  {
    if g.requests == [] {
      if g.waitQueue != [] {
        BusyCheck(cfg, g, now);
      }
    } else {
      var w := ResetWindow(cfg, g, now);
      ResetStaysPlain(cfg, g, now);
      AdmissionIsTheLock(cfg, w, w.requests[0]);
      MoveStaysPlain(cfg, w);
      assert Pass(cfg, g, now).0 == MoveToWaitQueue(w);
    }
  }

  lemma MoveStaysPlain(cfg: Config, g: Gpu)
    requires Plain(cfg, g) && g.requests != []
    ensures var r := MoveToWaitQueue(g);
            && Plain(cfg, r) && r.running == g.running
            && r.waitQueue + r.requests == g.waitQueue + g.requests
  {
    var r := MoveToWaitQueue(g);
    assert g.requests == [g.requests[0]] + g.requests[1..];
    assert r.waitQueue + r.requests == g.waitQueue + ([g.requests[0]] + g.requests[1..]);
  }

  lemma BusyCheck(cfg: Config, g: Gpu, now: nat)
    requires Plain(cfg, g) && g.running != []
    ensures var r := CheckWaitQueue(cfg, g, now);
            Plain(cfg, r) && r.running == g.running && r.waitQueue == g.waitQueue && r.requests == g.requests
  {
    var w := ResetWindow(cfg, g, now);
    ResetStaysPlain(cfg, g, now);
    forall c | c in w.waitQueue ensures !Admissible(cfg, w, c) {
      AdmissionIsTheLock(cfg, w, c);
    }
  }

  /** While someone runs, a whole round keeps the arrival order. */
  lemma {:induction false} BusyRound(cfg: Config, g: Gpu, now: nat)
    requires Plain(cfg, g) && g.running != []
    ensures Plain(cfg, TrySchedule(cfg, g, now)) && Abs(TrySchedule(cfg, g, now)) == Abs(g)
    decreases |g.requests| + |g.waitQueue|, |g.requests|
  {
    BusyPass(cfg, g, now);
    var (r, done) := Pass(cfg, g, now);
    if !done {
      BusyRound(cfg, r, now);
    }
  }

  /** With nobody running, a round grants the head of the requests. */
  lemma IdleRound(cfg: Config, g: Gpu, now: nat)
    requires Plain(cfg, g) && g.running == [] && g.requests != []
    ensures var r := TrySchedule(cfg, g, now);
            && Plain(cfg, r) && r.running == [g.requests[0]]
            && r.waitQueue == g.waitQueue && r.requests == g.requests[1..]
  {
    var w := ResetWindow(cfg, g, now);
    ResetStaysPlain(cfg, g, now);
    AdmissionIsTheLock(cfg, w, w.requests[0]);
    GrantStaysPlain(cfg, w, now);
  }

  lemma EmptyRound(cfg: Config, g: Gpu, now: nat)
    requires Plain(cfg, g) && g.requests == [] && g.waitQueue == []
    ensures TrySchedule(cfg, g, now) == g
  {}

  /** With nobody running, a waiting client is promoted, the one that came first. */
  lemma IdleCheck(cfg: Config, g: Gpu, now: nat)
    requires Plain(cfg, g) && g.running == []
    ensures var r := CheckWaitQueue(cfg, g, now);
            && Plain(cfg, r) && r.running == []
            && (if g.waitQueue == []
                then r.requests == g.requests && r.waitQueue == []
                else r.requests == [g.waitQueue[0]] + g.requests && r.waitQueue == g.waitQueue[1..])
  {
    if g.waitQueue != [] {
      var w := ResetWindow(cfg, g, now);
      ResetStaysPlain(cfg, g, now);
      AdmissionIsTheLock(cfg, w, w.waitQueue[0]);
    }
  }

  // ---------------------------------------------------------------- handlers

  lemma RequestRefines(cfg: Config, g: Gpu, c: ClientId, now: nat)
    requires Plain(cfg, g) && Served(g) && c in g.clients
    requires c !in g.requests && c !in g.waitQueue && c !in g.running
    ensures Refines(cfg, g, OnReqLock(cfg, g, c, now), Request(c))
  {
    var g1 := InsertReq(g, c);
    InsertQuiet(g, c);
    assert g1.waitQueue + g1.requests == (g.waitQueue + g.requests) + [c];
    if g.running == [] {
      IdleRound(cfg, g1, now);
    }
  }

  /** The holder leaves the running list. */
  lemma ReleaseStaysPlain(cfg: Config, g: Gpu, c: ClientId, now: nat)
    requires Plain(cfg, g) && c in g.clients
    ensures var r := Release(cfg, g, c, now);
            && Plain(cfg, r) && r.running == (if c in g.running then [] else g.running)
            && r.requests == g.requests && r.waitQueue == g.waitQueue
            && r.clients.Keys == g.clients.Keys
  {
    var r := Release(cfg, g, c, now);
    if c in g.running {
      assert g.running == [c];
    }
    forall d | d in r.clients ensures !IsLimited(r.clients[d]) {
      ReleaseKeepsLimit(cfg, g, c, d, now);
    }
  }

  lemma ReleaseKeepsLimit(cfg: Config, g: Gpu, c: ClientId, d: ClientId, now: nat)
    requires c in g.clients && d in g.clients
    ensures Release(cfg, g, c, now).clients[d].coreLimit == g.clients[d].coreLimit
  {
    var k, k' := g.clients[d], Release(cfg, g, c, now).clients[d];
    if c in g.running && d == c {
      assert k' == Leave(k, LeaveFee(cfg, k, Concurrency(Accrue(g, now, {c})), now));
    } else {
      assert k' == k || k' == Settle(k, Concurrency(g), now);
    }
  }

  lemma FirstInLine(w: seq<ClientId>, q: seq<ClientId>)
    ensures PassOn(w + q) == if w != [] then Fifo([w[0]], w[1..] + q) else PassOn(q)
  {
    if w == [] {
      assert w + q == q;
    } else {
      assert (w + q)[1..] == w[1..] + q;
    }
  }

  /** Admission with nobody running passes the lock to the first in line. */
  lemma AdmitPassesOn(cfg: Config, g: Gpu, now: nat)
    requires Plain(cfg, g) && g.running == []
    ensures var r := TrySchedule(cfg, CheckWaitQueue(cfg, g, now), now);
            Plain(cfg, r) && Served(r) && Abs(r) == PassOn(g.waitQueue + g.requests)
  {
    var p := CheckWaitQueue(cfg, g, now);
    IdleCheck(cfg, g, now);
    FirstInLine(g.waitQueue, g.requests);
    if p.requests == [] {
      EmptyRound(cfg, p, now);
    } else {
      IdleRound(cfg, p, now);
    }
  }

  /** A client leaves while another one runs: only its queue entry goes. */
  lemma WaiterLeaves(cfg: Config, g: Gpu, c: ClientId, now: nat)
    requires Plain(cfg, g) && Served(g) && c in g.clients && c !in g.running && g.running != []
    ensures var r := RemoveReq(cfg, g, c, now);
            Plain(cfg, r) && Served(r) && Abs(r) == Serve(Abs(g), Yield(c))
  {
    ReleaseStaysPlain(cfg, g, c, now);
    WithoutConcat(g.waitQueue, g.requests, c);
  }

  /** Nobody runs once client c is gone, and c waits nowhere. */
  lemma HolderLeaves(cfg: Config, g: Gpu, c: ClientId, now: nat)
    requires Plain(cfg, g) && Served(g) && c in g.clients && (c in g.running || g.running == [])
    ensures var r := RemoveReq(cfg, g, c, now);
            && Plain(cfg, r) && Served(r) && c !in r.running
            && Abs(r) == PassOn(g.waitQueue + g.requests)
  {
    var g1 := Release(cfg, g, c, now);
    ReleaseStaysPlain(cfg, g, c, now);
    AdmitPassesOn(cfg, g1, now);
    assert c !in Everyone(g1);
    OutsiderStaysOut(cfg, g1, c, now);
    var g2 := TrySchedule(cfg, CheckWaitQueue(cfg, g1, now), now);
    ForgetsNobody(g2, c);
    assert RemoveReq(cfg, g, c, now) == g2;
  }

  lemma ForgetsNobody(g: Gpu, c: ClientId)
    requires c !in Everyone(g)
    ensures Forget(g, c) == g && c !in g.running
  {}

  lemma RemoveRefines(cfg: Config, g: Gpu, c: ClientId, now: nat)
    requires Plain(cfg, g) && Served(g) && c in g.clients
    ensures var r := RemoveReq(cfg, g, c, now);
            Plain(cfg, r) && Served(r) && Abs(r) == Serve(Abs(g), Yield(c)) && c !in r.running
  {
    if c in g.running || g.running == [] {
      HolderLeaves(cfg, g, c, now);
    } else {
      WaiterLeaves(cfg, g, c, now);
      ReleaseStaysPlain(cfg, g, c, now);
    }
  }

  lemma YieldRefines(cfg: Config, g: Gpu, c: ClientId, now: nat)
    requires Plain(cfg, g) && Served(g) && c in g.clients
    ensures var r := OnLockReleased(cfg, g, c, now);
            Refines(cfg, g, r, Yield(c))
  {
    RemoveRefines(cfg, g, c, now);
    var r := RemoveReq(cfg, g, c, now);
    if !r.lockHeld {
      EmptyRound(cfg, r, now);
    }
  }

  /** Here every client may disconnect at any time. */
  lemma AnyoneLeaves(cfg: Config, g: Gpu, c: ClientId, now: nat)
    requires Plain(cfg, g) && Served(g) && c in g.clients
    ensures OnDisconnect(cfg, g, c, now).Gone?
  {
    RemoveRefines(cfg, g, c, now);
  }

  lemma DisconnectRefines(cfg: Config, g: Gpu, c: ClientId, now: nat)
    requires Plain(cfg, g) && Served(g) && c in g.clients
    ensures OnDisconnect(cfg, g, c, now).Gone?
    ensures var r := OnDisconnect(cfg, g, c, now).gpu;
            Refines(cfg, g, r, Yield(c))
  {
    RemoveRefines(cfg, g, c, now);
    var r := Unregister(RemoveReq(cfg, g, c, now), c);
    if !r.lockHeld {
      EmptyRound(cfg, r, now);
    }
  }

  lemma WindowRefines(cfg: Config, g: Gpu, now: nat)
    requires Plain(cfg, g) && Served(g)
    ensures var r := TimerWindow(cfg, g, now);
            Refines(cfg, g, r, Nothing)
  {
    var w := ResetWindow(cfg, g, now);
    ResetStaysPlain(cfg, g, now);
    if w.running == [] {
      EmptyRound(cfg, w, now);
    } else {
      BusyRound(cfg, w, now);
    }
  }

  /** Steps that leave the lists alone and limit nobody. */
  lemma StillPlain(cfg: Config, g: Gpu, r: Gpu)
    requires Plain(cfg, g) && Served(g) && Listed(r)
    requires r.running == g.running && r.requests == g.requests && r.waitQueue == g.waitQueue
    requires r.lockHeld == g.lockHeld
    requires forall c :: c in r.clients ==> !IsLimited(r.clients[c])
    ensures Refines(cfg, g, r, Nothing)
  {}

  lemma WakeRefines(cfg: Config, g: Gpu, fullQuantum: bool, now: nat)
    requires Plain(cfg, g) && Served(g)
    ensures var r := TimerWake(cfg, g, fullQuantum, now);
            Refines(cfg, g, r, Nothing)
  {
    var t := Throttle(cfg, g, now);
    StillPlain(cfg, g, t);
    StillPlain(cfg, t, Rotate(t, now));
  }

  lemma MemUpdateRefines(cfg: Config, g: Gpu, c: ClientId, usage: nat, now: nat)
    requires Plain(cfg, g) && Served(g) && c in g.clients
    ensures var r := OnMemUpdate(cfg, g, c, usage, now);
            Refines(cfg, g, r, Nothing)
  {
    StillPlain(cfg, g, OnMemUpdate(cfg, g, c, usage, now));
  }

  lemma PopRefines(cfg: Config, g: Gpu, c: ClientId)
    requires Plain(cfg, g) && Served(g) && c in g.clients && g.clients[c].socket != []
    ensures Refines(cfg, g, Pop(g, c), Nothing)
  {
    PopQuiet(g, c);
    StillPlain(cfg, g, Pop(g, c));
  }

  lemma JoinRefines(cfg: Config, g: Gpu, c: ClientId, limit: int)
    requires Plain(cfg, g) && Served(g) && c !in g.clients && limit == 100
    ensures var r := Register(g, c, limit); Refines(cfg, g, r, Nothing)
  {
    StillPlain(cfg, g, Register(g, c, limit));
  }

  lemma RelimitRefines(cfg: Config, g: Gpu, c: ClientId, limit: int)
    requires Plain(cfg, g) && Served(g) && c in g.clients && limit == 100
    ensures var r := SetCoreLimit(g, c, limit); Refines(cfg, g, r, Nothing)
  {
    StillPlain(cfg, g, SetCoreLimit(g, c, limit));
  }

  // ---------------------------------------------------------------- runs

  /** What a step means to the FIFO lock. */
  function EventOf(s: Sys, act: Action): Event {
    match act
    case Reads(c) =>
      if c in s.apps && s.apps[c].outbox != [] then
        match s.apps[c].outbox[0]
        case ReqLock => Request(c)
        case LockReleased => Yield(c)
        case MemUpdate(_) => Nothing
      else Nothing
    case Goes(c) => Yield(c)
    case _ => Nothing
  }

  /** The step gives no client a core limit below 100. */
  predicate Unlimiting(act: Action) {
    (act.Joins? ==> act.coreLimit == 100) && (act.Relimits? ==> act.coreLimit == 100)
  }

  lemma ReadsRequest(cfg: Config, s: Sys, c: ClientId, now: nat)
    requires Plain(cfg, s.gpu) && Served(s.gpu) && Protocol(s.gpu, s.apps)
    requires c in s.apps && s.apps[c].outbox != [] && s.apps[c].outbox[0] == ReqLock
    ensures Refines(cfg, s.gpu, Handle(cfg, s, c, now), Request(c))
  {
    RequestIsFresh(s.gpu, s.apps, c);
    RequestRefines(cfg, s.gpu, c, now);
  }

  lemma ReadsRelease(cfg: Config, s: Sys, c: ClientId, now: nat)
    requires Plain(cfg, s.gpu) && Served(s.gpu) && Protocol(s.gpu, s.apps)
    requires c in s.apps && s.apps[c].outbox != [] && s.apps[c].outbox[0] == LockReleased
    ensures Refines(cfg, s.gpu, Handle(cfg, s, c, now), Yield(c))
  {
    YieldRefines(cfg, s.gpu, c, now);
  }

  lemma ReadsReport(cfg: Config, s: Sys, c: ClientId, now: nat)
    requires Plain(cfg, s.gpu) && Served(s.gpu) && Protocol(s.gpu, s.apps)
    requires c in s.apps && s.apps[c].outbox != [] && s.apps[c].outbox[0].MemUpdate?
    ensures Refines(cfg, s.gpu, Handle(cfg, s, c, now), Nothing)
  {
    var usage := s.apps[c].outbox[0].usage;
    assert Handle(cfg, s, c, now) == OnMemUpdate(cfg, s.gpu, c, usage, now);
    MemUpdateRefines(cfg, s.gpu, c, usage, now);
  }

  lemma ReadRefines(cfg: Config, s: Sys, c: ClientId, now: nat)
    requires Plain(cfg, s.gpu) && Served(s.gpu) && Protocol(s.gpu, s.apps)
    requires c in s.apps && s.apps[c].outbox != []
    ensures Refines(cfg, s.gpu, Handle(cfg, s, c, now), EventOf(s, Reads(c)))
  {
    match s.apps[c].outbox[0]
    case ReqLock => ReadsRequest(cfg, s, c, now);
    case LockReleased => ReadsRelease(cfg, s, c, now);
    case MemUpdate(usage) => ReadsReport(cfg, s, c, now);
  }

  lemma NextRefines(cfg: Config, s: Sys, step: Step)
    requires SysInv(cfg, s) && Enabled(cfg, s, step) && Unlimiting(step.act)
    requires Plain(cfg, s.gpu) && Served(s.gpu)
    ensures var g := Next(cfg, s, step).gpu;
            Refines(cfg, s.gpu, g, EventOf(s, step.act))
  {
    if step.act.Reads? || step.act.TimerTop? || step.act.TimerBottom? || step.act.Goes? {
      SchedulerRefines(cfg, s, step);
    } else {
      OutsideRefines(cfg, s, step);
    }
  }

  lemma SchedulerRefines(cfg: Config, s: Sys, step: Step)
    requires SysInv(cfg, s) && Enabled(cfg, s, step)
    requires step.act.Reads? || step.act.TimerTop? || step.act.TimerBottom? || step.act.Goes?
    requires Plain(cfg, s.gpu) && Served(s.gpu)
    ensures var g := NextGpu(cfg, s, step);
            Refines(cfg, s.gpu, g, EventOf(s, step.act))
  {
    var g, r, now := s.gpu, NextGpu(cfg, s, step), step.at;
    match step.act
    case Reads(c) =>
      ReadRefines(cfg, s, c, now);
      assert r == Handle(cfg, s, c, now);
    case TimerTop =>
      WindowRefines(cfg, g, now);
      assert r == TimerWindow(cfg, g, now);
    case TimerBottom(fullQuantum) =>
      WakeRefines(cfg, g, fullQuantum, now);
      assert r == TimerWake(cfg, g, fullQuantum, now);
    case Goes(c) =>
      DisconnectRefines(cfg, g, c, now);
      assert r == OnDisconnect(cfg, g, c, now).gpu;
  }

  lemma OutsideRefines(cfg: Config, s: Sys, step: Step)
    requires SysInv(cfg, s) && Enabled(cfg, s, step) && Unlimiting(step.act)
    requires !step.act.Reads? && !step.act.TimerTop? && !step.act.TimerBottom? && !step.act.Goes?
    requires Plain(cfg, s.gpu) && Served(s.gpu)
    ensures var g := NextGpu(cfg, s, step);
            Refines(cfg, s.gpu, g, EventOf(s, step.act))
  {
    var g := s.gpu;
    match step.act
    case AppAsks(c) =>
    case AppReceives(c) => PopRefines(cfg, g, c);
    case AppReleases(c) =>
    case AppReports(c, usage) =>
    case Joins(c, limit) => JoinRefines(cfg, g, c, limit);
    case Relimits(c, limit) => RelimitRefines(cfg, g, c, limit);
  }

  /** The FIFO lock served with what the scheduler reads during a run. */
  ghost function Replay(cfg: Config, s: Sys, steps: seq<Step>, f: Fifo): Fifo
    requires SysInv(cfg, s) && IsRun(cfg, s, steps)
    decreases |steps|
  {
    if steps == [] then
      f
    else
      NextKeepsSysInv(cfg, s, steps[0]);
      Replay(cfg, Next(cfg, s, steps[0]), steps[1..], Serve(f, EventOf(s, steps[0].act)))
  }

  /** In serial mode with unlimited clients, every run grants exactly as a FIFO lock does:
      its holder is the runner and its queue is the wait queue followed by the requests. */
  lemma {:induction false} SerialIsFifo(cfg: Config, s: Sys, steps: seq<Step>)
    requires SysInv(cfg, s) && IsRun(cfg, s, steps)
    requires Plain(cfg, s.gpu) && Served(s.gpu)
    requires forall i :: 0 <= i < |steps| ==> Unlimiting(steps[i].act)
    ensures var g := Run(cfg, s, steps).gpu;
            && Served(g)
            && Abs(g) == Replay(cfg, s, steps, Abs(s.gpu))
    decreases |steps|
  {
    if steps != [] {
      NextKeepsSysInv(cfg, s, steps[0]);
      NextRefines(cfg, s, steps[0]);
      SerialIsFifo(cfg, Next(cfg, s, steps[0]), steps[1..]);
    }
  }
}
