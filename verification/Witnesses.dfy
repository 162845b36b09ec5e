/** Runs from the start that reach the states in which a claim fails. */
module Witnesses {
  import opened Lists
  import opened GpuModel
  import opened Sums
  import opened GpuInvariants
  import opened Scheduling
  import opened Admission
  import opened Departures
  import opened LockProtocol
  import opened System

  /** Concurrent mode, a window of 500 ms, full carryover, free drop tails. */
  const CFG := Config(Concurrent, true, 30, 5, 10, 50, 500, 100, 0)

  /** A state that a run from time 1 on reaches. */
  ghost predicate Reached(s: Sys) {
    Reachable(CFG, s, 1)
  }

  lemma Starts()
    ensures Reached(Init(0, 1))
  {
    InitReachable(CFG, 0, 1);
  }

  lemma Advance(s: Sys, step: Step)
    requires Reached(s) && SysInv(CFG, s) && Enabled(CFG, s, step)
    ensures Reached(Next(CFG, s, step))
  {
    NextReachable(CFG, s, 1, step);
  }

  lemma Joining(s: Sys, c: ClientId, limit: int)
    requires Reached(s) && c !in s.gpu.clients && 1 <= limit <= 100
    ensures Reached(Sys(Register(s.gpu, c, limit), s.apps[c := NEW_APP], s.clock))
  {
    ReachableInv(CFG, s, 1);
    Advance(s, Step(s.clock, Joins(c, limit)));
  }

  lemma Asking(s: Sys, c: ClientId)
    requires Reached(s) && c in s.apps
    ensures Reached(s.(apps := s.apps[c := LockProtocol.Ask(s.apps[c])]))
  {
    ReachableInv(CFG, s, 1);
    Advance(s, Step(s.clock, AppAsks(c)));
  }

  lemma Receiving(s: Sys, c: ClientId)
    requires Reached(s) && c in s.apps && c in s.gpu.clients && s.gpu.clients[c].socket != []
    ensures Reached(Sys(Pop(s.gpu, c), s.apps[c := Receive(s.apps[c], s.gpu.clients[c].socket[0])], s.clock))
  {
    ReachableInv(CFG, s, 1);
    Advance(s, Step(s.clock, AppReceives(c)));
  }

  lemma Surrendering(s: Sys, c: ClientId, now: nat)
    requires Reached(s) && c in s.apps && s.clock <= now
    ensures Reached(Sys(s.gpu, s.apps[c := Surrender(s.apps[c])], now))
  {
    ReachableInv(CFG, s, 1);
    Advance(s, Step(now, AppReleases(c)));
  }

  /** A request is read; r and apps are what becomes of the scheduler and the processes. */
  lemma Requesting(s: Sys, c: ClientId, r: Gpu, apps: map<ClientId, App>)
    requires Reached(s) && c in s.apps && s.apps[c].outbox == [ReqLock]
    requires Listed(s.gpu) && c in s.gpu.clients && c !in s.gpu.waitQueue && c !in s.gpu.running
    requires r == OnReqLock(CFG, s.gpu, c, s.clock) && apps == s.apps[c := s.apps[c].(outbox := [])]
    ensures Reached(Sys(r, apps, s.clock))
  {
    ReachableInv(CFG, s, 1);
    Advance(s, Step(s.clock, Reads(c)));
    ReadsAll(s.apps, c, ReqLock);
  }

  /** A release is read. */
  lemma Releasing(s: Sys, c: ClientId, r: Gpu, apps: map<ClientId, App>)
    requires Reached(s) && c in s.apps && s.apps[c].outbox == [LockReleased]
    requires Listed(s.gpu) && c in s.gpu.clients
    requires r == OnLockReleased(CFG, s.gpu, c, s.clock) && apps == s.apps[c := s.apps[c].(outbox := [])]
    ensures Reached(Sys(r, apps, s.clock))
  {
    ReachableInv(CFG, s, 1);
    Advance(s, Step(s.clock, Reads(c)));
    ReadsRelease(s, c, s.clock);
    ReadsAll(s.apps, c, LockReleased);
  }

  lemma ReadsRelease(s: Sys, c: ClientId, now: nat)
    requires Listed(s.gpu) && Protocol(s.gpu, s.apps) && c in s.gpu.clients
    requires c in s.apps && s.apps[c].outbox == [LockReleased]
    ensures Handle(CFG, s, c, now) == OnLockReleased(CFG, s.gpu, c, now)
  {}

  lemma ReadsAll(apps: map<ClientId, App>, c: ClientId, n: Notice)
    requires c in apps && apps[c].outbox == [n]
    ensures Read(apps, c) == apps[c := apps[c].(outbox := [])]
  {
    assert [n][1..] == [];
  }

  lemma Waking(s: Sys, now: nat)
    requires Reached(s) && s.clock <= now
    ensures Reached(Sys(TimerWake(CFG, s.gpu, false, now), s.apps, now))
  {
    ReachableInv(CFG, s, 1);
    Advance(s, Step(now, TimerBottom(false)));
  }

  lemma Relimiting(s: Sys, c: ClientId, limit: int)
    requires Reached(s) && c in s.gpu.clients && 1 <= limit <= 100
    ensures Reached(s.(gpu := SetCoreLimit(s.gpu, c, limit)))
  {
    ReachableInv(CFG, s, 1);
    Advance(s, Step(s.clock, Relimits(c, limit)));
  }

  // ---------------------------------------------------------------- handlers on short lists

  /** Outside serial mode a single request is granted or starts to wait. */
  lemma LoneRequestGranted(cfg: Config, g: Gpu, now: nat)
    requires ValidConfig(cfg) && cfg.mode != Serial && Listed(g) && |g.requests| == 1 && g.waitQueue == []
    requires Admissible(cfg, ResetWindow(cfg, g, now), g.requests[0])
    ensures TrySchedule(cfg, g, now) == Grant(ResetWindow(cfg, g, now), now)
  {
    var r := Grant(ResetWindow(cfg, g, now), now);
    assert Pass(cfg, g, now) == (r, false);
    assert Pass(cfg, r, now) == (r, true);
  }

  lemma LoneRequestWaits(cfg: Config, g: Gpu, now: nat)
    requires ValidConfig(cfg) && cfg.mode != Serial && Listed(g) && |g.requests| == 1 && g.waitQueue == []
    requires !Admissible(cfg, ResetWindow(cfg, g, now), g.requests[0])
    ensures TrySchedule(cfg, g, now) == MoveToWaitQueue(ResetWindow(cfg, g, now))
  {
    var w := ResetWindow(cfg, g, now);
    var r, c := MoveToWaitQueue(w), w.requests[0];
    assert Pass(cfg, g, now) == (r, false);
    ResetWindowIdempotent(cfg, g, now);
    ResetIsDone(cfg, w, r, now);
    QuotaUnaffected(w, r);
    assert r.waitQueue == [c] && !Admissible(cfg, r, c);
    assert CheckWaitQueue(cfg, r, now) == r;
    assert Pass(cfg, r, now) == (r, true);
  }

  /** With nothing queued, a release is all that a LOCK_RELEASED causes. */
  lemma LoneRelease(cfg: Config, g: Gpu, c: ClientId, now: nat)
    requires ValidConfig(cfg) && Listed(g) && c in g.clients && g.requests == [] && g.waitQueue == []
    ensures OnLockReleased(cfg, g, c, now) == Release(cfg, g, c, now)
  {
    var g1 := Release(cfg, g, c, now);
    assert CheckWaitQueue(cfg, g1, now) == g1;
    assert Pass(cfg, g1, now) == (g1, true);
    assert Forget(g1, c) == g1;
  }

  /** c asks with nothing queued and is granted the lock, which leads to r and apps. */
  ghost predicate GrantedAlone(s: Sys, c: ClientId, w: Gpu, r: Gpu, apps: map<ClientId, App>) {
    && c in s.apps && s.apps[c].outbox == [ReqLock] && s.gpu.requests == [] && s.gpu.waitQueue == []
    && w == ResetWindow(CFG, s.gpu.(requests := [c]), s.clock) && Admissible(CFG, w, c)
    && w.requests == [c] && r == Grant(w, s.clock) && apps == s.apps[c := s.apps[c].(outbox := [])]
  }

  lemma GrantingAlone(s: Sys, c: ClientId, w: Gpu, r: Gpu, apps: map<ClientId, App>)
    requires Reached(s) && GrantedAlone(s, c, w, r, apps)
    ensures Reached(Sys(r, apps, s.clock))
  {
    ReachableInv(CFG, s, 1);
    RequestIsFresh(s.gpu, s.apps, c);
    var g1 := InsertReq(s.gpu, c);
    assert g1 == s.gpu.(requests := [c]);
    InsertQuiet(s.gpu, c);
    LoneRequestGranted(CFG, g1, s.clock);
    Requesting(s, c, r, apps);
  }

  /** c asks with nothing queued and has to wait, which leads to r and apps. */
  ghost predicate WaitsAlone(s: Sys, c: ClientId, w: Gpu, r: Gpu, apps: map<ClientId, App>) {
    && c in s.apps && s.apps[c].outbox == [ReqLock] && s.gpu.requests == [] && s.gpu.waitQueue == []
    && w == ResetWindow(CFG, s.gpu.(requests := [c]), s.clock) && !Admissible(CFG, w, c)
    && Listed(w) && w.requests == [c] && r == MoveToWaitQueue(w) && apps == s.apps[c := s.apps[c].(outbox := [])]
  }

  lemma WaitingAlone(s: Sys, c: ClientId, w: Gpu, r: Gpu, apps: map<ClientId, App>)
    requires Reached(s) && WaitsAlone(s, c, w, r, apps)
    ensures Reached(Sys(r, apps, s.clock))
  {
    ReachableInv(CFG, s, 1);
    RequestIsFresh(s.gpu, s.apps, c);
    var g1 := InsertReq(s.gpu, c);
    assert g1 == s.gpu.(requests := [c]);
    InsertQuiet(s.gpu, c);
    LoneRequestWaits(CFG, g1, s.clock);
    Requesting(s, c, r, apps);
  }

  /** c releases the lock with nothing queued, which leads to r and apps. */
  ghost predicate ReleasedAlone(s: Sys, c: ClientId, r: Gpu, apps: map<ClientId, App>) {
    && c in s.apps && s.apps[c].outbox == [LockReleased] && s.gpu.requests == [] && s.gpu.waitQueue == []
    && c in s.gpu.clients && r == Release(CFG, s.gpu, c, s.clock) && apps == s.apps[c := s.apps[c].(outbox := [])]
  }

  lemma ReleasingAlone(s: Sys, c: ClientId, r: Gpu, apps: map<ClientId, App>)
    requires Reached(s) && ReleasedAlone(s, c, r, apps)
    ensures Reached(Sys(r, apps, s.clock))
  {
    ReachableInv(CFG, s, 1);
    LoneRelease(CFG, s.gpu, c, s.clock);
    Releasing(s, c, r, apps);
  }

  /** c receives its only message, which leads to r and apps. */
  ghost predicate Delivered(s: Sys, c: ClientId, r: Gpu, apps: map<ClientId, App>) {
    && c in s.apps && c in s.gpu.clients && |s.gpu.clients[c].socket| == 1
    && r == Pop(s.gpu, c) && apps == s.apps[c := Receive(s.apps[c], s.gpu.clients[c].socket[0])]
  }

  lemma Delivering(s: Sys, c: ClientId, r: Gpu, apps: map<ClientId, App>)
    requires Reached(s) && Delivered(s, c, r, apps)
    ensures Reached(Sys(r, apps, s.clock))
  {
    Receiving(s, c);
  }

  lemma WeighOne(c: ClientId, m: map<ClientId, Client>, what: Measure)
    requires c in m
    ensures Weigh([c], m, what) == Weight(m[c], what)
  {
    assert [c][..0] == [];
  }

  // ---------------------------------------------------------------- a client that lingers

  /** The only client, with its record and its process. */
  function Alone(requests: seq<ClientId>, waitQueue: seq<ClientId>, running: seq<ClientId>, windowStart: nat, k: Client, billed: int): Gpu {
    Gpu(requests, waitQueue, running, running != [], 0, 0, false, windowStart, [1], map[1 := k], billed)
  }

  const NEW := NewClient(50)
  const GRANTED := Start(NEW, 1)
  const OWNING := GRANTED.(socket := [])
  const CUT := Cut(OWNING, 1, 251)
  const DROPPED := CUT.(socket := [])
  const RELEASED := Leave(DROPPED, 0)

  lemma QuotaIs250(g: Gpu)
    requires g.order == [1] && 1 in g.clients && g.clients[1].coreLimit == 50
    ensures QuotaOf(CFG, g, g.clients[1]) == 250
  {
    WeighOne(1, g.clients, Quota);
  }

  /** One client at one time, as its process a has it. */
  function At(g: Gpu, a: App, clock: nat): Sys { Sys(g, map[1 := a], clock) }

  const WANTS := App(false, true, [], 0, 0, 0)
  const OWNS := App(true, false, [], 1, 1, 0)
  const GAVE := App(false, false, [], 1, 1, 1)

  lemma Joined()
    ensures Reached(At(Alone([], [], [], 0, NEW, 0), NEW_APP, 1))
  {
    Starts();
    Joining(Init(0, 1), 1, 50);
    assert [] + [1] == [1];
    assert Register(Init(0, 1).gpu, 1, 50) == Alone([], [], [], 0, NEW, 0);
    assert map[][1 := NEW_APP] == map[1 := NEW_APP];
  }

  lemma Asked()
    ensures Reached(At(Alone([], [], [], 0, NEW, 0), WANTS.(outbox := [ReqLock]), 1))
  {
    var s, s' := At(Alone([], [], [], 0, NEW, 0), NEW_APP, 1), At(Alone([], [], [], 0, NEW, 0), WANTS.(outbox := [ReqLock]), 1);
    assert NEW_APP.outbox + [ReqLock] == [ReqLock];
    assert s.apps[1 := LockProtocol.Ask(NEW_APP)] == s'.apps;
    Joined();
    Asking(s, 1);
  }

  const ASKING := At(Alone([], [], [], 0, NEW, 0), WANTS.(outbox := [ReqLock]), 1)

  lemma GrantedAt1()
    ensures GrantedAlone(ASKING, 1, Alone([1], [], [], 1, NEW, 0), Alone([], [], [1], 1, GRANTED, 0), map[1 := WANTS])
  {
    var s, w := ASKING, Alone([1], [], [], 1, NEW, 0);
    assert s.apps[1 := s.apps[1].(outbox := [])] == map[1 := WANTS];
    assert ResetWindow(CFG, s.gpu.(requests := [1]), 1) == w;
    QuotaIs250(w);
    assert Grant(w, 1) == Alone([], [], [1], 1, GRANTED, 0);
  }

  /** It is granted the lock at 1. */
  lemma Granted()
    ensures Reached(At(Alone([], [], [1], 1, GRANTED, 0), WANTS, 1))
  {
    GrantedAt1();
    Asked();
    GrantingAlone(ASKING, 1, Alone([1], [], [], 1, NEW, 0), Alone([], [], [1], 1, GRANTED, 0), map[1 := WANTS]);
  }

  lemma OwnsAt1()
    ensures Delivered(At(Alone([], [], [1], 1, GRANTED, 0), WANTS, 1), 1, Alone([], [], [1], 1, OWNING, 0), map[1 := OWNS])
  {
    var s := At(Alone([], [], [1], 1, GRANTED, 0), WANTS, 1);
    assert GRANTED.socket == [Message(LockOk, 1)] && GRANTED.socket[1..] == [];
    assert Pop(s.gpu, 1) == Alone([], [], [1], 1, OWNING, 0);
    assert s.apps[1 := Receive(WANTS, GRANTED.socket[0])] == map[1 := OWNS];
  }

  lemma Owning()
    ensures Reached(At(Alone([], [], [1], 1, OWNING, 0), OWNS, 1))
  {
    OwnsAt1();
    Granted();
    Delivering(At(Alone([], [], [1], 1, GRANTED, 0), WANTS, 1), 1, Alone([], [], [1], 1, OWNING, 0), map[1 := OWNS]);
  }

  lemma CutAt251()
    ensures TimerWake(CFG, Alone([], [], [1], 1, OWNING, 0), false, 251) == Alone([], [], [1], 1, CUT, 250)
  {
    var g := Alone([], [], [1], 1, OWNING, 0);
    WeighOne(1, g.clients, Limited);
    QuotaIs250(g);
    var hit := OverrunRunners(CFG, g, 251);
    assert hit == {1};
    var charged := map c | c in g.clients && c in hit :: g.clients[c];
    WeighOne(1, charged, Segment(251, 1));
    assert Weigh(g.running, charged, Segment(251, 1)) == 250;
    assert Throttle(CFG, g, 251).clients == map[1 := CUT];
  }

  /** It is throttled at 251. */
  lemma Throttled()
    ensures Reached(At(Alone([], [], [1], 1, CUT, 250), OWNS, 251))
  {
    CutAt251();
    Owning();
    Waking(At(Alone([], [], [1], 1, OWNING, 0), OWNS, 1), 251);
  }

  const GIVING := GAVE.(outbox := [LockReleased])

  lemma DropsAt251()
    ensures Delivered(At(Alone([], [], [1], 1, CUT, 250), OWNS, 251), 1, Alone([], [], [1], 1, DROPPED, 250), map[1 := GIVING])
  {
    var s := At(Alone([], [], [1], 1, CUT, 250), OWNS, 251);
    assert CUT.socket == [Message(DropLock, 1)] && CUT.socket[1..] == [];
    assert Pop(s.gpu, 1) == Alone([], [], [1], 1, DROPPED, 250);
    assert OWNS.outbox + [LockReleased] == [LockReleased];
    assert s.apps[1 := Receive(OWNS, CUT.socket[0])] == map[1 := GIVING];
  }

  lemma Dropped()
    ensures Reached(At(Alone([], [], [1], 1, DROPPED, 250), GIVING, 251))
  {
    DropsAt251();
    Throttled();
    Delivering(At(Alone([], [], [1], 1, CUT, 250), OWNS, 251), 1, Alone([], [], [1], 1, DROPPED, 250), map[1 := GIVING]);
  }

  lemma ReleasesAt251()
    ensures ReleasedAlone(At(Alone([], [], [1], 1, DROPPED, 250), GIVING, 251), 1, Alone([], [], [], 1, RELEASED, 250), map[1 := GAVE])
  {
    var s := At(Alone([], [], [1], 1, DROPPED, 250), GIVING, 251);
    var g := s.gpu;
    assert s.apps[1 := s.apps[1].(outbox := [])] == map[1 := GAVE];
    var nobody := g.clients - {1};
    assert nobody == map[];
    assert [1][..0] == [];
    assert Weigh([1], nobody, Share(251, Concurrency(g))) == 0;
    assert Accrue(g, 251, {1}).clients == g.clients;
    assert Without([1], 1) == [];
  }

  /** It releases the lock. */
  lemma Released()
    ensures Reached(At(Alone([], [], [], 1, RELEASED, 250), GAVE, 251))
  {
    ReleasesAt251();
    Dropped();
    ReleasingAlone(At(Alone([], [], [1], 1, DROPPED, 250), GIVING, 251), 1, Alone([], [], [], 1, RELEASED, 250), map[1 := GAVE]);
  }

  lemma AskedAgain()
    ensures Reached(At(Alone([], [], [], 1, RELEASED, 250), GAVE.(needLock := true, outbox := [ReqLock]), 251))
  {
    var s := At(Alone([], [], [], 1, RELEASED, 250), GAVE, 251);
    assert GAVE.outbox + [ReqLock] == [ReqLock];
    assert s.apps[1 := LockProtocol.Ask(GAVE)] == map[1 := GAVE.(needLock := true, outbox := [ReqLock])];
    Released();
    Asking(s, 1);
  }

  /** The state in which nobody runs and the throttled client waits for the window to pass. */
  const WAITING := At(Alone([], [1], [], 1, RELEASED, 250), GAVE.(needLock := true), 251)

  lemma WaitsAt251()
    ensures WaitsAlone(At(Alone([], [], [], 1, RELEASED, 250), GAVE.(needLock := true, outbox := [ReqLock]), 251), 1,
                       Alone([1], [], [], 1, RELEASED, 250), WAITING.gpu, WAITING.apps)
  {
    var s := At(Alone([], [], [], 1, RELEASED, 250), GAVE.(needLock := true, outbox := [ReqLock]), 251);
    var w := Alone([1], [], [], 1, RELEASED, 250);
    assert s.apps[1 := s.apps[1].(outbox := [])] == WAITING.apps;
    assert ResetWindow(CFG, s.gpu.(requests := [1]), 251) == w;
    assert MoveToWaitQueue(w) == WAITING.gpu;
  }

  /** It asks again and has to wait. */
  lemma Waits()
    ensures Reached(WAITING)
  {
    WaitsAt251();
    AskedAgain();
    WaitingAlone(At(Alone([], [], [], 1, RELEASED, 250), GAVE.(needLock := true, outbox := [ReqLock]), 251), 1,
                 Alone([1], [], [], 1, RELEASED, 250), WAITING.gpu, WAITING.apps);
  }

  lemma FitAt501()
    ensures Fit(CFG, ResetWindow(CFG, WAITING.gpu, 501), 1)
  {
    var g := WAITING.gpu;
    var a := Accrue(g.(windowStart := 501), 501, {});
    assert a.clients[1] == RELEASED;
    QuotaIs250(a);
    var w := ResetWindow(CFG, g, 501);
    assert w.clients[1] == CloseWindow(CFG, 250, RELEASED);
    QuotaIs250(w);
  }

  /** A limited client runs until it is throttled, releases, asks again and waits; the window
      passes and it disconnects before anyone noticed: it lingers on the running list. */
  lemma ClientLingers()
    ensures Reachable(CFG, WAITING, 1) && Listed(WAITING.gpu) && WAITING.clock <= 501
    ensures OnDisconnect(CFG, WAITING.gpu, 1, 501).Lingers?
  {
    FitAt501();
    FirstFitAt(CFG, ResetWindow(CFG, WAITING.gpu, 501), [1], 0);
    assert WAITING.gpu.waitQueue + WAITING.gpu.requests == [1];
    Waits();
    ReachableInv(CFG, WAITING, 1);
    TimePasses(CFG, WAITING.gpu, 251, 501);
    FirstFitLingers(CFG, WAITING.gpu, 1, 501);
  }

  // ---------------------------------------------------------------- time that is billed twice

  /** Two clients with nothing queued. */
  function Both(running: seq<ClientId>, windowStart: nat, k1: Client, k2: Client, billed: int): Gpu {
    Gpu([], [], running, running != [], 0, 0, false, windowStart, [1, 2], map[1 := k1, 2 := k2], billed)
  }

  function As(g: Gpu, a1: App, a2: App, clock: nat): Sys { Sys(g, map[1 := a1, 2 := a2], clock) }

  const FREE := NewClient(100)                              // the second client, without a limit
  const STARTED := Start(FREE, 1)
  const LEFT := Leave(OWNING, 100)                          // the first client has run for 100 ms
  const LIMITED := STARTED.(coreLimit := 50)
  const LIMITED_OWNING := LIMITED.(socket := [])
  const LEFT_LATE := Leave(LIMITED_OWNING, 100)
  const WANTING := WANTS.(outbox := [ReqLock])

  lemma WeighTwo(m: map<ClientId, Client>, what: Measure)
    requires 1 in m && 2 in m
    ensures Weigh([1, 2], m, what) == Weight(m[1], what) + Weight(m[2], what)
  {
    var s: seq<ClientId> := [1, 2];
    assert s[..1] == [1];
    WeighOne(1, m, what);
  }

  lemma BothJoined()
    ensures Reached(As(Both([], 0, NEW, FREE, 0), NEW_APP, NEW_APP, 1))
  {
    var s := At(Alone([], [], [], 0, NEW, 0), NEW_APP, 1);
    var one: seq<ClientId> := [1];
    assert one + [2] == [1, 2];
    assert Register(s.gpu, 2, 100) == Both([], 0, NEW, FREE, 0);
    assert s.apps[2 := NEW_APP] == map[1 := NEW_APP, 2 := NEW_APP];
    Joined();
    Joining(s, 2, 100);
  }

  lemma FirstAsked()
    ensures Reached(As(Both([], 0, NEW, FREE, 0), WANTING, NEW_APP, 1))
  {
    var s := As(Both([], 0, NEW, FREE, 0), NEW_APP, NEW_APP, 1);
    assert NEW_APP.outbox + [ReqLock] == [ReqLock];
    assert s.apps[1 := LockProtocol.Ask(NEW_APP)] == map[1 := WANTING, 2 := NEW_APP];
    BothJoined();
    Asking(s, 1);
  }

  lemma FirstGrantedAt1()
    ensures GrantedAlone(As(Both([], 0, NEW, FREE, 0), WANTING, NEW_APP, 1), 1,
                         Both([], 1, NEW, FREE, 0).(requests := [1]), Both([1], 1, GRANTED, FREE, 0), map[1 := WANTS, 2 := NEW_APP])
  {
    var s, w := As(Both([], 0, NEW, FREE, 0), WANTING, NEW_APP, 1), Both([], 1, NEW, FREE, 0).(requests := [1]);
    assert s.apps[1 := s.apps[1].(outbox := [])] == map[1 := WANTS, 2 := NEW_APP];
    assert ResetWindow(CFG, s.gpu.(requests := [1]), 1) == w;
    WeighTwo(w.clients, Quota);
    assert QuotaOf(CFG, w, NEW) == 250;
    assert Grant(w, 1) == Both([1], 1, GRANTED, FREE, 0);
  }

  lemma FirstGranted()
    ensures Reached(As(Both([1], 1, GRANTED, FREE, 0), WANTS, NEW_APP, 1))
  {
    FirstGrantedAt1();
    FirstAsked();
    GrantingAlone(As(Both([], 0, NEW, FREE, 0), WANTING, NEW_APP, 1), 1,
                  Both([], 1, NEW, FREE, 0).(requests := [1]), Both([1], 1, GRANTED, FREE, 0), map[1 := WANTS, 2 := NEW_APP]);
  }

  lemma SecondAsked()
    ensures Reached(As(Both([1], 1, GRANTED, FREE, 0), WANTS, WANTING, 1))
  {
    var s := As(Both([1], 1, GRANTED, FREE, 0), WANTS, NEW_APP, 1);
    assert NEW_APP.outbox + [ReqLock] == [ReqLock];
    assert s.apps[2 := LockProtocol.Ask(NEW_APP)] == map[1 := WANTS, 2 := WANTING];
    FirstGranted();
    Asking(s, 2);
  }

  lemma NothingToSettle(w: Gpu)
    requires w == Both([1], 1, GRANTED, FREE, 0).(requests := [2])
    ensures Accrue(w, 1, {}) == w
  {
    assert w.clients - {} == w.clients;
    WeighOne(1, w.clients, Limited);
    WeighOne(1, w.clients, Share(1, 1));
    assert Accrue(w, 1, {}).clients == w.clients;
  }

  lemma SecondStarts(w: Gpu)
    requires w == Both([1], 1, GRANTED, FREE, 0).(requests := [2])
    ensures Grant(w, 1) == Both([1, 2], 1, GRANTED, STARTED, 0)
  {
    NothingToSettle(w);
    var one: seq<ClientId> := [1];
    assert one + [2] == [1, 2];
  }

  lemma SecondGrantedAt1()
    ensures GrantedAlone(As(Both([1], 1, GRANTED, FREE, 0), WANTS, WANTING, 1), 2,
                         Both([1], 1, GRANTED, FREE, 0).(requests := [2]), Both([1, 2], 1, GRANTED, STARTED, 0), map[1 := WANTS, 2 := WANTS])
  {
    var s, w := As(Both([1], 1, GRANTED, FREE, 0), WANTS, WANTING, 1), Both([1], 1, GRANTED, FREE, 0).(requests := [2]);
    assert s.apps[2 := s.apps[2].(outbox := [])] == map[1 := WANTS, 2 := WANTS];
    assert ResetWindow(CFG, s.gpu.(requests := [2]), 1) == w;
    SecondStarts(w);
  }

  lemma SecondGranted()
    ensures Reached(As(Both([1, 2], 1, GRANTED, STARTED, 0), WANTS, WANTS, 1))
  {
    SecondGrantedAt1();
    SecondAsked();
    GrantingAlone(As(Both([1], 1, GRANTED, FREE, 0), WANTS, WANTING, 1), 2,
                  Both([1], 1, GRANTED, FREE, 0).(requests := [2]), Both([1, 2], 1, GRANTED, STARTED, 0), map[1 := WANTS, 2 := WANTS]);
  }

  lemma FirstDelivered()
    ensures Delivered(As(Both([1, 2], 1, GRANTED, STARTED, 0), WANTS, WANTS, 1), 1,
                      Both([1, 2], 1, OWNING, STARTED, 0), map[1 := OWNS, 2 := WANTS])
  {
    var s := As(Both([1, 2], 1, GRANTED, STARTED, 0), WANTS, WANTS, 1);
    assert GRANTED.socket == [Message(LockOk, 1)] && GRANTED.socket[1..] == [];
    assert Pop(s.gpu, 1) == Both([1, 2], 1, OWNING, STARTED, 0);
    assert s.apps[1 := Receive(WANTS, GRANTED.socket[0])] == map[1 := OWNS, 2 := WANTS];
  }

  lemma FirstOwns()
    ensures Reached(As(Both([1, 2], 1, OWNING, STARTED, 0), OWNS, WANTS, 1))
  {
    FirstDelivered();
    SecondGranted();
    Delivering(As(Both([1, 2], 1, GRANTED, STARTED, 0), WANTS, WANTS, 1), 1,
               Both([1, 2], 1, OWNING, STARTED, 0), map[1 := OWNS, 2 := WANTS]);
  }

  lemma FirstSurrenders()
    ensures Reached(As(Both([1, 2], 1, OWNING, STARTED, 0), GIVING, WANTS, 101))
  {
    var s := As(Both([1, 2], 1, OWNING, STARTED, 0), OWNS, WANTS, 1);
    assert OWNS.outbox + [LockReleased] == [LockReleased];
    assert s.apps[1 := Surrender(OWNS)] == map[1 := GIVING, 2 := WANTS];
    FirstOwns();
    Surrendering(s, 1, 101);
  }

  lemma FirstPays(g: Gpu)
    requires g == Both([1, 2], 1, OWNING, STARTED, 0)
    ensures Release(CFG, g, 1, 101) == Both([2], 1, LEFT, STARTED, 100)
  {
    WeighTwo(g.clients, Limited);
    ShareOfOthers(g.clients);
    assert Accrue(g, 101, {1}).clients == g.clients;
    assert Accrue(g, 101, {1}) == g;
    WithoutFirst();
    assert TakeOff(CFG, g, 1, 101).clients == map[1 := LEFT, 2 := STARTED];
  }

  lemma FirstReleasesAt101()
    ensures ReleasedAlone(As(Both([1, 2], 1, OWNING, STARTED, 0), GIVING, WANTS, 101), 1,
                          Both([2], 1, LEFT, STARTED, 100), map[1 := GAVE, 2 := WANTS])
  {
    var s := As(Both([1, 2], 1, OWNING, STARTED, 0), GIVING, WANTS, 101);
    assert s.apps[1 := s.apps[1].(outbox := [])] == map[1 := GAVE, 2 := WANTS];
    FirstPays(s.gpu);
  }

  lemma WithoutFirst()
    ensures Without([1, 2], 1) == [2]
  {
    var both: seq<ClientId> := [1, 2];
    var one: seq<ClientId> := [1];
    assert both[..1] == one && one[..0] == [];
    assert Without(one, 1) == [];
  }

  lemma ShareOfOthers(m: map<ClientId, Client>)
    requires 2 in m && !IsLimited(m[2])
    ensures Weigh([1, 2], m - {1}, Share(101, 1)) == 0
  {
    var rest := m - {1};
    var s: seq<ClientId> := [1, 2];
    var one: seq<ClientId> := [1];
    assert s[..1] == one && one[..0] == [];
    assert Weigh(one, rest, Share(101, 1)) == 0;
  }

  /** The first client leaves at 101 and pays for the 100 ms. */
  lemma FirstReleased()
    ensures Reached(As(Both([2], 1, LEFT, STARTED, 100), GAVE, WANTS, 101))
  {
    FirstReleasesAt101();
    FirstSurrenders();
    ReleasingAlone(As(Both([1, 2], 1, OWNING, STARTED, 0), GIVING, WANTS, 101), 1,
                   Both([2], 1, LEFT, STARTED, 100), map[1 := GAVE, 2 := WANTS]);
  }

  /** The second client, which still runs, is given a limit. */
  lemma SecondLimited()
    ensures Reached(As(Both([2], 1, LEFT, LIMITED, 100), GAVE, WANTS, 101))
  {
    var s := As(Both([2], 1, LEFT, STARTED, 100), GAVE, WANTS, 101);
    assert SetCoreLimit(s.gpu, 2, 50) == Both([2], 1, LEFT, LIMITED, 100);
    FirstReleased();
    Relimiting(s, 2, 50);
  }

  lemma SecondDelivered()
    ensures Delivered(As(Both([2], 1, LEFT, LIMITED, 100), GAVE, WANTS, 101), 2,
                      Both([2], 1, LEFT, LIMITED_OWNING, 100), map[1 := GAVE, 2 := OWNS])
  {
    var s := As(Both([2], 1, LEFT, LIMITED, 100), GAVE, WANTS, 101);
    assert LIMITED.socket == [Message(LockOk, 1)] && LIMITED.socket[1..] == [];
    assert Pop(s.gpu, 2) == Both([2], 1, LEFT, LIMITED_OWNING, 100);
    assert s.apps[2 := Receive(WANTS, LIMITED.socket[0])] == map[1 := GAVE, 2 := OWNS];
  }

  lemma SecondOwns()
    ensures Reached(As(Both([2], 1, LEFT, LIMITED_OWNING, 100), GAVE, OWNS, 101))
  {
    SecondDelivered();
    SecondLimited();
    Delivering(As(Both([2], 1, LEFT, LIMITED, 100), GAVE, WANTS, 101), 2,
               Both([2], 1, LEFT, LIMITED_OWNING, 100), map[1 := GAVE, 2 := OWNS]);
  }

  lemma SecondSurrenders()
    ensures Reached(As(Both([2], 1, LEFT, LIMITED_OWNING, 100), GAVE, GIVING, 101))
  {
    var s := As(Both([2], 1, LEFT, LIMITED_OWNING, 100), GAVE, OWNS, 101);
    assert OWNS.outbox + [LockReleased] == [LockReleased];
    assert s.apps[2 := Surrender(OWNS)] == map[1 := GAVE, 2 := GIVING];
    SecondOwns();
    Surrendering(s, 2, 101);
  }

  /** The state in which both clients have paid for the same time. */
  const OVERBILLED := As(Both([], 1, LEFT, LEFT_LATE, 200), GAVE, GAVE, 101)

  lemma SecondReleased(g: Gpu)
    requires g == Both([2], 1, LEFT, LIMITED_OWNING, 100)
    ensures Release(CFG, g, 2, 101) == OVERBILLED.gpu
  {
    WeighOne(2, g.clients, Limited);
    var two: seq<ClientId> := [2];
    var rest := g.clients - {2};
    assert two[..0] == [];
    assert Weigh(two, rest, Share(101, 1)) == 0;
    assert Accrue(g, 101, {2}).clients == g.clients;
    assert Accrue(g, 101, {2}) == g;
    assert Without(two, 2) == [];
    assert TakeOff(CFG, g, 2, 101).clients == OVERBILLED.gpu.clients;
  }

  /** The second process has nothing more to send. */
  lemma BothGave()
    ensures map[1 := GAVE, 2 := GIVING][2 := GIVING.(outbox := [])] == OVERBILLED.apps
  {}

  lemma SecondReleasesAt101(s: Sys)
    requires s == As(Both([2], 1, LEFT, LIMITED_OWNING, 100), GAVE, GIVING, 101)
    ensures ReleasedAlone(s, 2, OVERBILLED.gpu, OVERBILLED.apps)
  {
    var r := Release(CFG, s.gpu, 2, s.clock);
    SecondReleased(s.gpu);
    BothGave();
    assert ReleasedAlone(s, 2, r, s.apps[2 := s.apps[2].(outbox := [])]);
  }

  lemma Overbilled()
    ensures Reached(Sys(OVERBILLED.gpu, OVERBILLED.apps, 101))
  {
    var s := As(Both([2], 1, LEFT, LIMITED_OWNING, 100), GAVE, GIVING, 101);
    SecondReleasesAt101(s);
    SecondSurrenders();
    ReleasingAlone(s, 2, OVERBILLED.gpu, OVERBILLED.apps);
  }

  /** A limited and an unlimited client run side by side from 1 on; the first one leaves at
      101 and is charged 100 ms; then the second one is given a limit and leaves: it is
      charged the same 100 ms, so that 200 ms are charged for 100 ms that passed. */
  lemma RelimitOverbills()
    ensures Reachable(CFG, OVERBILLED, 1)
    ensures OVERBILLED.gpu.billed == 200 && OVERBILLED.clock - 1 == 100
  {
    assert Sys(OVERBILLED.gpu, OVERBILLED.apps, 101) == OVERBILLED;
    Overbilled();
  }
}
