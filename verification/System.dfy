/** Whole runs: a scheduler, any number of clients, the timer, and time. */
module System {
  import opened Lists
  import opened GpuModel
  import opened Sums
  import opened Billing
  import opened GpuInvariants
  import opened Scheduling
  import opened Departures
  import opened LockProtocol

  datatype Sys = Sys(gpu: Gpu, apps: map<ClientId, App>, clock: nat)

  datatype Action =
    // a client
    | AppAsks(c: ClientId)                       // a thread enters continue_with_lock
    | AppReceives(c: ClientId)                   // the next message of the scheduler is handled
    | AppReleases(c: ClientId)                   // the early-release thread finds the client idle
    | AppReports(c: ClientId, usage: nat)        // memory use is reported
    // the scheduler
    | Reads(c: ClientId)                         // the next message of client c is handled
    | TimerTop                                   // timer loop up to its sleep
    | TimerBottom(fullQuantum: bool)             // timer loop after its sleep
    | Joins(c: ClientId, coreLimit: int)         // a client registers
    | Relimits(c: ClientId, coreLimit: int)      // an annotation changes a client's core limit
    | Goes(c: ClientId)                          // a client disconnects

  datatype Step = Step(at: nat, act: Action)

  function Init(totalMemory: nat, t0: nat): Sys {
    Sys(Gpu([], [], [], false, totalMemory, 0, false, 0, [], map[], 0), map[], t0)
  }

  /** The scheduler invariant, the protocol invariant, and an application behind every client. */
  ghost predicate SysInv(cfg: Config, s: Sys) {
    && ValidConfig(cfg)
    && Inv(cfg, s.gpu, s.clock)
    && Protocol(s.gpu, s.apps)
    && s.apps.Keys == s.gpu.clients.Keys
  }

  /** What may happen next.  Time does not run backwards.  A run ends where a client that
      disconnects lingers on the running list. */
  ghost predicate Enabled(cfg: Config, s: Sys, step: Step)
    requires ValidConfig(cfg) && Listed(s.gpu)
  {
    && s.clock <= step.at
    && match step.act
       case AppAsks(c) => c in s.apps
       case AppReceives(c) => c in s.apps && c in s.gpu.clients && s.gpu.clients[c].socket != []
       case AppReleases(c) => c in s.apps
       case AppReports(c, _) => c in s.apps
       case Reads(c) => c in s.apps && s.apps[c].outbox != []
       case TimerTop => true
       case TimerBottom(_) => true
       case Joins(c, limit) => c !in s.gpu.clients && 1 <= limit <= 100
       case Relimits(c, limit) => c in s.gpu.clients && 1 <= limit <= 100
       case Goes(c) => c in s.gpu.clients && OnDisconnect(cfg, s.gpu, c, step.at).Gone?
  }

  /** The scheduler's reaction to the next message of client c. */
  ghost function Handle(cfg: Config, s: Sys, c: ClientId, now: nat): (r: Gpu)
    requires ValidConfig(cfg) && Listed(s.gpu) && Protocol(s.gpu, s.apps)
    requires c in s.apps && s.apps[c].outbox != []
    ensures r.clients.Keys == s.gpu.clients.Keys
  {
    match s.apps[c].outbox[0]
    case ReqLock => RequestIsFresh(s.gpu, s.apps, c); OnReqLock(cfg, s.gpu, c, now)
    case LockReleased => OnLockReleased(cfg, s.gpu, c, now)
    case MemUpdate(usage) => OnMemUpdate(cfg, s.gpu, c, usage, now)
  }

  /** The clients that are registered after an action. */
  function Members(before: set<ClientId>, act: Action): set<ClientId> {
    match act
    case Joins(c, _) => before + {c}
    case Goes(c) => before - {c}
    case _ => before
  }

  /** What clients and annotations do to the scheduler's data without its taking part. */
  ghost function Outside(cfg: Config, s: Sys, step: Step): Gpu
    requires ValidConfig(cfg) && Listed(s.gpu) && Enabled(cfg, s, step)
  {
    match step.act
    case AppReceives(c) => Pop(s.gpu, c)
    case Joins(c, limit) => Register(s.gpu, c, limit)
    case Relimits(c, limit) => SetCoreLimit(s.gpu, c, limit)
    case _ => s.gpu
  }

  ghost function NextGpu(cfg: Config, s: Sys, step: Step): Gpu
    requires ValidConfig(cfg) && Listed(s.gpu) && Protocol(s.gpu, s.apps) && Enabled(cfg, s, step)
  {
    match step.act
    case Reads(c) => Handle(cfg, s, c, step.at)
    case TimerTop => TimerWindow(cfg, s.gpu, step.at)
    case TimerBottom(fullQuantum) => TimerWake(cfg, s.gpu, fullQuantum, step.at)
    case Goes(c) => OnDisconnect(cfg, s.gpu, c, step.at).gpu
    case _ => Outside(cfg, s, step)
  }

  ghost function NextApps(cfg: Config, s: Sys, step: Step): (r: map<ClientId, App>)
    requires ValidConfig(cfg) && Listed(s.gpu) && Enabled(cfg, s, step)
    ensures r.Keys == Members(s.apps.Keys, step.act)
  {
    var apps := s.apps;
    match step.act
    case AppAsks(c) => apps[c := LockProtocol.Ask(apps[c])]
    case AppReceives(c) => apps[c := Receive(apps[c], s.gpu.clients[c].socket[0])]
    case AppReleases(c) => apps[c := Surrender(apps[c])]
    case AppReports(c, usage) => apps[c := apps[c].(outbox := apps[c].outbox + [MemUpdate(usage)])]
    case Reads(c) => Read(apps, c)
    case TimerTop => apps
    case TimerBottom(fullQuantum) => apps
    case Joins(c, limit) => apps[c := NEW_APP]
    case Relimits(c, limit) => apps
    case Goes(c) => apps - {c}
  }

  ghost function Next(cfg: Config, s: Sys, step: Step): Sys
    requires ValidConfig(cfg) && Listed(s.gpu) && Protocol(s.gpu, s.apps) && Enabled(cfg, s, step)
  {
    Sys(NextGpu(cfg, s, step), NextApps(cfg, s, step), step.at)
  }

  lemma NextMembers(cfg: Config, s: Sys, step: Step)
    requires ValidConfig(cfg) && Listed(s.gpu) && Protocol(s.gpu, s.apps) && Enabled(cfg, s, step)
    ensures NextGpu(cfg, s, step).clients.Keys == Members(s.gpu.clients.Keys, step.act)
  {}

  // ---------------------------------------------------------------- the scheduler side of a step

  lemma UnregisterQuiet(g: Gpu, c: ClientId)
    requires Listed(g) && c !in g.requests && c !in g.waitQueue && c !in g.running
    ensures Quiet(g, Unregister(g, c))
  {}

  lemma RegisterQuiet(g: Gpu, c: ClientId, limit: int)
    requires Listed(g) && c !in g.clients
    ensures Quiet(g, Register(g, c, limit))
  {}

  lemma RelimitQuiet(g: Gpu, c: ClientId, limit: int)
    requires Listed(g) && c in g.clients
    ensures Quiet(g, SetCoreLimit(g, c, limit))
  {}

  lemma PopQuiet(g: Gpu, c: ClientId)
    requires Listed(g) && c in g.clients && g.clients[c].socket != []
    ensures Quiet(g, Pop(g, c)) && Listed(Pop(g, c))
  {}

  lemma DisconnectKeepsInv(cfg: Config, g: Gpu, c: ClientId, now: nat)
    requires ValidConfig(cfg) && Inv(cfg, g, now) && c in g.clients
    requires OnDisconnect(cfg, g, c, now).Gone?
    ensures Inv(cfg, OnDisconnect(cfg, g, c, now).gpu, now)
  {
    var g1 := RemoveReq(cfg, g, c, now);
    RemoveReqKeepsInv(cfg, g, c, now);
    UnregisterQuiet(g1, c);
    QuietKeepsInv(cfg, g1, Unregister(g1, c), now);
    TryScheduleKeepsInv(cfg, Unregister(g1, c), now);
  }

  lemma HandleKeepsInv(cfg: Config, s: Sys, c: ClientId, now: nat)
    requires ValidConfig(cfg) && Inv(cfg, s.gpu, now) && Protocol(s.gpu, s.apps)
    requires c in s.apps && s.apps[c].outbox != []
    ensures Inv(cfg, Handle(cfg, s, c, now), now)
  {
    match s.apps[c].outbox[0]
    case ReqLock => RequestIsFresh(s.gpu, s.apps, c); OnReqLockKeepsInv(cfg, s.gpu, c, now);
    case LockReleased => OnLockReleasedKeepsInv(cfg, s.gpu, c, now);
    case MemUpdate(usage) => MemUpdateKeepsInv(cfg, s.gpu, c, usage, now);
  }

  lemma NextKeepsInv(cfg: Config, s: Sys, step: Step)
    requires SysInv(cfg, s) && Enabled(cfg, s, step)
    ensures Inv(cfg, Next(cfg, s, step).gpu, step.at)
  {
    var g, now := s.gpu, step.at;
    TimePasses(cfg, g, s.clock, now);
    match step.act
    case AppAsks(c) =>
    case AppReceives(c) => PopQuiet(g, c); QuietKeepsInv(cfg, g, Pop(g, c), now);
    case AppReleases(c) =>
    case AppReports(c, usage) =>
    case Reads(c) => HandleKeepsInv(cfg, s, c, now);
    case TimerTop => TimerWindowKeepsInv(cfg, g, now);
    case TimerBottom(fullQuantum) => TimerWakeKeepsInv(cfg, g, fullQuantum, now);
    case Joins(c, limit) => RegisterQuiet(g, c, limit); QuietKeepsInv(cfg, g, Register(g, c, limit), now);
    case Relimits(c, limit) => RelimitQuiet(g, c, limit); QuietKeepsInv(cfg, g, SetCoreLimit(g, c, limit), now);
    case Goes(c) => DisconnectKeepsInv(cfg, g, c, now);
  }

  // ---------------------------------------------------------------- the protocol side of a step

  lemma AppKeepsProtocol(g: Gpu, apps: map<ClientId, App>, c: ClientId, a: App)
    requires Protocol(g, apps) && c in apps && ClientOk(a, g.clients[c], Queued(g, c), c in g.running)
    ensures Protocol(g, apps[c := a])
  {}

  lemma ReceiveKeepsProtocol(g: Gpu, apps: map<ClientId, App>, c: ClientId)
    requires Protocol(g, apps) && c in apps && g.clients[c].socket != []
    ensures Protocol(Pop(g, c), apps[c := Receive(apps[c], g.clients[c].socket[0])])
  {
    ReceiveOk(apps[c], g.clients[c], Queued(g, c), c in g.running);
    var g', apps' := Pop(g, c), apps[c := Receive(apps[c], g.clients[c].socket[0])];
    forall d | d in apps' ensures ClientOk(apps'[d], g'.clients[d], Queued(g', d), d in g'.running) {
      assert ClientOk(apps[d], g.clients[d], Queued(g, d), d in g.running);
    }
  }

  lemma JoinKeepsProtocol(g: Gpu, apps: map<ClientId, App>, c: ClientId, limit: int)
    requires Listed(g) && Protocol(g, apps) && c !in g.clients
    ensures Protocol(Register(g, c, limit), apps[c := NEW_APP])
  {
    var g', apps' := Register(g, c, limit), apps[c := NEW_APP];
    forall d | d in apps' ensures ClientOk(apps'[d], g'.clients[d], Queued(g', d), d in g'.running) {
      if d != c {
        assert ClientOk(apps[d], g.clients[d], Queued(g, d), d in g.running);
      }
    }
  }

  lemma HandleKeepsProtocol(cfg: Config, s: Sys, c: ClientId, now: nat)
    requires ValidConfig(cfg) && Listed(s.gpu) && Protocol(s.gpu, s.apps)
    requires c in s.apps && s.apps[c].outbox != []
    ensures Protocol(Handle(cfg, s, c, now), Read(s.apps, c))
  {
    match s.apps[c].outbox[0]
    case ReqLock => ReqLockKeepsProtocol(cfg, s.gpu, s.apps, c, now);
    case LockReleased => LockReleasedKeepsProtocol(cfg, s.gpu, s.apps, c, now);
    case MemUpdate(usage) =>
      ReadMemUpdate(s.gpu, s.apps, c);
      MemUpdateKeepsProtocol(cfg, s.gpu, Read(s.apps, c), c, usage, now);
  }

  lemma AskKeepsProtocol(g: Gpu, apps: map<ClientId, App>, c: ClientId)
    requires Protocol(g, apps) && c in apps
    ensures Protocol(g, apps[c := LockProtocol.Ask(apps[c])])
  {
    AskOk(apps[c], g.clients[c], Queued(g, c), c in g.running);
    AppKeepsProtocol(g, apps, c, LockProtocol.Ask(apps[c]));
  }

  lemma SurrenderKeepsProtocol(g: Gpu, apps: map<ClientId, App>, c: ClientId)
    requires Protocol(g, apps) && c in apps
    ensures Protocol(g, apps[c := Surrender(apps[c])])
  {
    SurrenderOk(apps[c], g.clients[c], Queued(g, c), c in g.running);
    AppKeepsProtocol(g, apps, c, Surrender(apps[c]));
  }

  lemma ReportKeepsProtocol(g: Gpu, apps: map<ClientId, App>, c: ClientId, usage: nat)
    requires Protocol(g, apps) && c in apps
    ensures Protocol(g, apps[c := apps[c].(outbox := apps[c].outbox + [MemUpdate(usage)])])
  {
    ReportOk(apps[c], g.clients[c], Queued(g, c), c in g.running, usage);
    AppKeepsProtocol(g, apps, c, apps[c].(outbox := apps[c].outbox + [MemUpdate(usage)]));
  }

  lemma TimerWindowKeepsProtocol(cfg: Config, g: Gpu, apps: map<ClientId, App>, now: nat)
    requires ValidConfig(cfg) && Listed(g) && Protocol(g, apps)
    ensures Protocol(TimerWindow(cfg, g, now), apps)
  {
    ResetKeepsProtocol(cfg, g, apps, now);
    TryScheduleKeepsProtocol(cfg, ResetWindow(cfg, g, now), apps, now);
  }

  lemma RelimitKeepsProtocol(g: Gpu, apps: map<ClientId, App>, c: ClientId, limit: int)
    requires Protocol(g, apps) && c in g.clients
    ensures Protocol(SetCoreLimit(g, c, limit), apps)
  {
    StayKeepsProtocol(g, SetCoreLimit(g, c, limit), apps);
  }

  lemma NextKeepsProtocol(cfg: Config, s: Sys, step: Step)
    requires SysInv(cfg, s) && Enabled(cfg, s, step)
    ensures Protocol(Next(cfg, s, step).gpu, Next(cfg, s, step).apps)
  {
    var g, apps, now := s.gpu, s.apps, step.at;
    match step.act
    case AppAsks(c) => AskKeepsProtocol(g, apps, c);
    case AppReceives(c) => ReceiveKeepsProtocol(g, apps, c);
    case AppReleases(c) => SurrenderKeepsProtocol(g, apps, c);
    case AppReports(c, usage) => ReportKeepsProtocol(g, apps, c, usage);
    case Reads(c) => HandleKeepsProtocol(cfg, s, c, now);
    case TimerTop => TimerWindowKeepsProtocol(cfg, g, apps, now);
    case TimerBottom(fullQuantum) => TimerWakeKeepsProtocol(cfg, g, apps, fullQuantum, now);
    case Joins(c, limit) => JoinKeepsProtocol(g, apps, c, limit);
    case Relimits(c, limit) => RelimitKeepsProtocol(g, apps, c, limit);
    case Goes(c) => DisconnectKeepsProtocol(cfg, g, apps, c, now);
  }

  /** Every step of any client, of the timer and of the scheduler keeps the invariant. */
  lemma NextKeepsSysInv(cfg: Config, s: Sys, step: Step)
    requires SysInv(cfg, s) && Enabled(cfg, s, step)
    ensures SysInv(cfg, Next(cfg, s, step))
  {
    NextKeepsInv(cfg, s, step);
    NextKeepsProtocol(cfg, s, step);
    NextMembers(cfg, s, step);
  }

  // ---------------------------------------------------------------- runs

  /** Each step is enabled in the state the steps before it lead to. */
  ghost predicate IsRun(cfg: Config, s: Sys, steps: seq<Step>)
    requires SysInv(cfg, s)
    decreases |steps|
  {
    steps != [] ==>
      && Enabled(cfg, s, steps[0])
      && (NextKeepsSysInv(cfg, s, steps[0]); IsRun(cfg, Next(cfg, s, steps[0]), steps[1..]))
  }

  ghost function Run(cfg: Config, s: Sys, steps: seq<Step>): Sys
    requires SysInv(cfg, s) && IsRun(cfg, s, steps)
    decreases |steps|
  {
    if steps == [] then
      s
    else
      NextKeepsSysInv(cfg, s, steps[0]);
      Run(cfg, Next(cfg, s, steps[0]), steps[1..])
  }

  /** Every run keeps the invariants. */
  lemma {:induction false} RunKeepsSysInv(cfg: Config, s: Sys, steps: seq<Step>)
    requires SysInv(cfg, s) && IsRun(cfg, s, steps)
    ensures SysInv(cfg, Run(cfg, s, steps))
    decreases |steps|
  {
    if steps != [] {
      NextKeepsSysInv(cfg, s, steps[0]);
      RunKeepsSysInv(cfg, Next(cfg, s, steps[0]), steps[1..]);
    }
  }

  lemma InitOk(cfg: Config, totalMemory: nat, t0: nat)
    requires ValidConfig(cfg) && 0 < t0
    ensures SysInv(cfg, Init(totalMemory, t0))
  {
    InitiallyInv(cfg, totalMemory, t0);
  }

  /** The states that runs from the initial state reach. */
  ghost predicate Reachable(cfg: Config, s: Sys, t0: nat) {
    && ValidConfig(cfg) && 0 < t0
    && exists totalMemory: nat, steps ::
         && SysInv(cfg, Init(totalMemory, t0))
         && IsRun(cfg, Init(totalMemory, t0), steps)
         && Run(cfg, Init(totalMemory, t0), steps) == s
  }

  /** The initial state is reachable, by no step at all. */
  lemma InitReachable(cfg: Config, totalMemory: nat, t0: nat)
    requires ValidConfig(cfg) && 0 < t0
    ensures Reachable(cfg, Init(totalMemory, t0), t0)
  {
    InitOk(cfg, totalMemory, t0);
    assert IsRun(cfg, Init(totalMemory, t0), []);
    assert Run(cfg, Init(totalMemory, t0), []) == Init(totalMemory, t0);
  }

  lemma {:induction false} RunExtends(cfg: Config, s: Sys, steps: seq<Step>, step: Step)
    requires SysInv(cfg, s) && IsRun(cfg, s, steps)
    requires SysInv(cfg, Run(cfg, s, steps)) && Enabled(cfg, Run(cfg, s, steps), step)
    ensures IsRun(cfg, s, steps + [step])
    ensures Run(cfg, s, steps + [step]) == Next(cfg, Run(cfg, s, steps), step)
    decreases |steps|
  {
    var all := steps + [step];
    NextKeepsSysInv(cfg, s, all[0]);
    if steps == [] {
      assert all[1..] == [];
    } else {
      assert all[0] == steps[0] && all[1..] == steps[1..] + [step];
      RunExtends(cfg, Next(cfg, s, steps[0]), steps[1..], step);
    }
  }

  /** What a reachable state leads to is reachable. */
  lemma NextReachable(cfg: Config, s: Sys, t0: nat, step: Step)
    requires Reachable(cfg, s, t0) && SysInv(cfg, s) && Enabled(cfg, s, step)
    ensures Reachable(cfg, Next(cfg, s, step), t0)
  {
    var totalMemory: nat, steps :|
      && SysInv(cfg, Init(totalMemory, t0))
      && IsRun(cfg, Init(totalMemory, t0), steps)
      && Run(cfg, Init(totalMemory, t0), steps) == s;
    RunExtends(cfg, Init(totalMemory, t0), steps, step);
  }

  lemma ReachableInv(cfg: Config, s: Sys, t0: nat)
    requires Reachable(cfg, s, t0)
    ensures SysInv(cfg, s)
  {
    var totalMemory: nat, steps :|
      && SysInv(cfg, Init(totalMemory, t0))
      && IsRun(cfg, Init(totalMemory, t0), steps)
      && Run(cfg, Init(totalMemory, t0), steps) == s;
    RunKeepsSysInv(cfg, Init(totalMemory, t0), steps);
  }

  // ---------------------------------------------------------------- what runs guarantee

  /** A LOCK_OK is on its way to the client. */
  predicate GrantInFlight(k: Client) {
    exists i :: 0 <= i < |k.socket| && k.socket[i].kind == LockOk
  }

  /** Whoever owns the lock, or has it on its way, runs. */
  lemma OwnerRuns(cfg: Config, s: Sys, c: ClientId)
    requires SysInv(cfg, s) && c in s.apps && (s.apps[c].ownLock || GrantInFlight(s.gpu.clients[c]))
    ensures c in s.gpu.running
  {
    assert ClientOk(s.apps[c], s.gpu.clients[c], Queued(s.gpu, c), c in s.gpu.running);
    OksMember(s.gpu.clients[c].socket);
  }

  /** Lock safety: whoever owns the lock, or is about to, is on the running list, nobody is
      listed twice, and in serial mode the lock has at most one owner. */
  lemma LockSafety(cfg: Config, s: Sys, t0: nat)
    requires Reachable(cfg, s, t0)
    ensures s.apps.Keys == s.gpu.clients.Keys
    ensures forall c :: c in s.apps && (s.apps[c].ownLock || GrantInFlight(s.gpu.clients[c])) ==> c in s.gpu.running
    ensures Distinct(Everyone(s.gpu))
    ensures cfg.mode == Serial ==>
              forall c, d :: c in s.apps && d in s.apps && s.apps[c].ownLock && s.apps[d].ownLock ==> c == d
  {
    ReachableInv(cfg, s, t0);
    forall c | c in s.apps && (s.apps[c].ownLock || GrantInFlight(s.gpu.clients[c])) ensures c in s.gpu.running {
      OwnerRuns(cfg, s, c);
    }
    EveryoneDistinct(s.gpu);
    if cfg.mode == Serial {
      forall c, d | c in s.apps && d in s.apps && s.apps[c].ownLock && s.apps[d].ownLock ensures c == d {
        SerialOwner(cfg, s, c, d);
      }
    }
  }

  /** No request is lost and none is doubled: a client that needs the lock has exactly one of
      a REQ_LOCK on its way to the scheduler, a place in the queues, and a grant on its way. */
  lemma NoRequestIsLost(cfg: Config, s: Sys, t0: nat, c: ClientId)
    requires Reachable(cfg, s, t0) && c in s.apps && s.apps[c].needLock
    ensures c in s.gpu.clients && !s.apps[c].ownLock
    ensures var asked, queued, granted := ReqLock in s.apps[c].outbox, Queued(s.gpu, c), GrantInFlight(s.gpu.clients[c]);
            (asked || queued || granted) && !(asked && queued) && !(asked && granted) && !(queued && granted)
  {
    ReachableInv(cfg, s, t0);
    var a, k := s.apps[c], s.gpu.clients[c];
    assert ClientOk(a, k, Queued(s.gpu, c), c in s.gpu.running);
    OksMember(k.socket);
    LocksSent(a.outbox);
    if ReqLock in Locks(a.outbox) {
      assert Locks(a.outbox) == [ReqLock] || Locks(a.outbox) == [LockReleased, ReqLock];
    }
  }

  /** The lock messages on their way are those among all messages. */
  lemma {:induction false} LocksSent(o: seq<Notice>)
    ensures ReqLock in Locks(o) <==> ReqLock in o
    ensures LockReleased in Locks(o) <==> LockReleased in o
  {
    if o != [] { LocksSent(o[1..]); }
  }

  lemma SerialOwner(cfg: Config, s: Sys, c: ClientId, d: ClientId)
    requires SysInv(cfg, s) && cfg.mode == Serial
    requires c in s.apps && d in s.apps && s.apps[c].ownLock && s.apps[d].ownLock
    ensures c == d
  {
    OwnerRuns(cfg, s, c);
    OwnerRuns(cfg, s, d);
    assert |s.gpu.running| <= 1;
  }

  lemma EveryoneDistinct(g: Gpu)
    requires Listed(g)
    ensures Distinct(Everyone(g))
  {
    var e, q, w := Everyone(g), |g.requests|, |g.requests| + |g.waitQueue|;
    forall i, j | 0 <= i < j < |e| ensures e[i] != e[j] {
      assert i < q ==> e[i] in g.requests;
      assert q <= i < w ==> e[i] in g.waitQueue;
      assert q <= j < w ==> e[j] in g.waitQueue;
      assert w <= j ==> e[j] in g.running;
    }
  }

  /** Grants and releases match one to one, and the timer asks at most once per grant. */
  lemma GrantsMatchReleases(cfg: Config, s: Sys, t0: nat, c: ClientId)
    requires Reachable(cfg, s, t0) && c in s.apps
    ensures c in s.gpu.clients
    ensures s.apps[c].okCount - s.apps[c].releaseCount == (if s.apps[c].ownLock then 1 else 0)
    ensures s.gpu.clients[c].timerDrops <= 1
  {
    ReachableInv(cfg, s, t0);
    assert ClientOk(s.apps[c], s.gpu.clients[c], Queued(s.gpu, c), c in s.gpu.running);
  }

  /** A DROP_LOCK never cancels a grant other than the one it was sent for: delivered to an
      owner it carries the number of the owner's grant, delivered to anyone else it does
      nothing. */
  lemma StaleDropIsIgnored(cfg: Config, s: Sys, t0: nat, c: ClientId)
    requires Reachable(cfg, s, t0) && c in s.apps
    requires c in s.gpu.clients && s.gpu.clients[c].socket != [] && s.gpu.clients[c].socket[0].kind == DropLock
    ensures var drop := s.gpu.clients[c].socket[0];
            if s.apps[c].ownLock
            then drop.grant == s.apps[c].ownGrant == s.gpu.clients[c].grants
            else Receive(s.apps[c], drop) == s.apps[c]
  {
    ReachableInv(cfg, s, t0);
    ReceiveOk(s.apps[c], s.gpu.clients[c], Queued(s.gpu, c), c in s.gpu.running);
  }

  /** The ledger holds in every reachable state, so neither branch that repairs it is taken. */
  lemma LedgerHolds(cfg: Config, s: Sys, t0: nat)
    requires Reachable(cfg, s, t0)
    ensures s.gpu.runningMemory == Weigh(s.gpu.running, s.gpu.clients, Memory)
    ensures s.gpu.lockHeld <==> s.gpu.running != []
    ensures forall c :: c in s.gpu.clients ==> (s.gpu.clients[c].isRunning <==> c in s.gpu.running)
    ensures forall c :: c in s.gpu.running ==> c in s.gpu.clients && s.gpu.runningMemory >= s.gpu.clients[c].memory
  {
    ReachableInv(cfg, s, t0);
    forall c | c in s.gpu.running ensures s.gpu.runningMemory >= s.gpu.clients[c].memory {
      WeighMember(s.gpu.running, c, s.gpu.clients, Memory);
    }
  }

  /** Until overload is flagged the runners fit in the safe limit, or one of them holds all
      the memory in use. */
  lemma MemorySafety(cfg: Config, s: Sys, t0: nat)
    requires Reachable(cfg, s, t0)
    ensures !s.gpu.overloaded ==>
              || Weigh(s.gpu.running, s.gpu.clients, Memory) <= SafeLimit(cfg, s.gpu)
              || exists c :: c in s.gpu.running && c in s.gpu.clients
                             && s.gpu.clients[c].memory == Weigh(s.gpu.running, s.gpu.clients, Memory)
  {
    ReachableInv(cfg, s, t0);
  }

  /** Every charge is still in the window, was paid for by a closed window, or was forgiven;
      with full carryover nothing is ever forgiven. */
  lemma DebtConservation(cfg: Config, s: Sys, t0: nat, c: ClientId)
    requires Reachable(cfg, s, t0) && c in s.gpu.clients
    ensures var k := s.gpu.clients[c];
            && k.charged == k.consumed + k.forgiven + k.runTime
            && (cfg.carryPercent == 100 ==> k.charged == k.consumed + k.runTime)
  {
    ReachableInv(cfg, s, t0);
  }
}
