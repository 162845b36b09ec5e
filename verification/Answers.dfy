/** Drops are answered: whoever was told to drop the lock still has the message to read, or has
    given the grant up that it was sent for. */
module Answers {
  import opened Lists
  import opened GpuModel
  import opened GpuInvariants
  import opened Departures
  import opened LockProtocol
  import opened System
  import opened Enforcement

  /** Messages are only added behind those on their way, and overload is not flagged. */
  ghost predicate Sends(g: Gpu, r: Gpu) {
    && r.overloaded == g.overloaded && r.clients.Keys == g.clients.Keys
    && forall c :: c in g.clients ==> g.clients[c].socket <= r.clients[c].socket
  }

  lemma SendsThen(g: Gpu, h: Gpu, r: Gpu)
    requires Sends(g, h) && Sends(h, r)
    ensures Sends(g, r)
  {}

  lemma ResetSends(cfg: Config, g: Gpu, now: nat)
    ensures Sends(g, ResetWindow(cfg, g, now))
  {
    var r := ResetWindow(cfg, g, now);
    forall c | c in g.clients ensures r.clients[c].socket == g.clients[c].socket {
      ResetSendsNothing(cfg, g, now, c);
    }
  }

  lemma ResetSendsNothing(cfg: Config, g: Gpu, now: nat, c: ClientId)
    requires c in g.clients
    ensures ResetWindow(cfg, g, now).clients[c].socket == g.clients[c].socket
  {
    if WindowDue(cfg, g, now) {
      var a := Accrue(g.(windowStart := now), now, {});
      assert ResetWindow(cfg, g, now).clients[c] == CloseWindow(cfg, QuotaOf(cfg, a, a.clients[c]), a.clients[c]);
    }
  }

  lemma CheckSends(cfg: Config, g: Gpu, now: nat)
    requires Listed(g)
    ensures Sends(g, CheckWaitQueue(cfg, g, now))
  {
    if g.waitQueue != [] {
      ResetSends(cfg, g, now);
      var w := ResetWindow(cfg, g, now);
      var i := FirstAdmissible(cfg, w, w.waitQueue);
      if i < |w.waitQueue| {
        PromoteSends(w, i);
        SendsThen(g, w, Promote(w, i));
        assert CheckWaitQueue(cfg, g, now) == Promote(w, i);
      } else {
        assert CheckWaitQueue(cfg, g, now) == w;
      }
    }
  }

  lemma PromoteSends(w: Gpu, i: nat)
    requires Listed(w) && i < |w.waitQueue|
    ensures Sends(w, Promote(w, i))
  {}

  lemma HeadSends(cfg: Config, g: Gpu, now: nat)
    requires Listed(g) && g.requests != []
    ensures Sends(g, Grant(g, now)) && Sends(g, MoveToWaitQueue(g))
  {
    var r := Grant(g, now);
    assert r.clients.Keys == g.clients.Keys && r.overloaded == g.overloaded;
    forall c | c in g.clients ensures g.clients[c].socket <= r.clients[c].socket {
      GrantSends(g, now, c);
    }
    MoveSends(g);
  }

  lemma MoveSends(g: Gpu)
    requires Listed(g) && g.requests != []
    ensures Sends(g, MoveToWaitQueue(g))
  {}

  lemma GrantSends(g: Gpu, now: nat, c: ClientId)
    requires Listed(g) && g.requests != [] && c in g.clients
    ensures c in Grant(g, now).clients && g.clients[c].socket <= Grant(g, now).clients[c].socket
  {
    if c == g.requests[0] {
      GrantHead(g, now);
    } else {
      GrantOther(g, c, now);
    }
  }

  lemma PassSends(cfg: Config, g: Gpu, now: nat)
    requires ValidConfig(cfg) && Listed(g)
    ensures Sends(g, Pass(cfg, g, now).0)
  {
    var g0 := if g.requests == [] then CheckWaitQueue(cfg, g, now) else g;
    CheckSends(cfg, g, now);
    if g0.requests != [] {
      var w := ResetWindow(cfg, g0, now);
      ResetSends(cfg, g0, now);
      HeadSends(cfg, w, now);
      var r := if Admissible(cfg, w, w.requests[0]) then Grant(w, now) else MoveToWaitQueue(w);
      assert Pass(cfg, g, now).0 == r;
      SendsThen(g, g0, w);
      SendsThen(g, w, r);
    }
  }

  lemma {:induction false} RoundSends(cfg: Config, g: Gpu, now: nat)
    requires ValidConfig(cfg) && Listed(g)
    ensures Sends(g, TrySchedule(cfg, g, now))
    decreases |g.requests| + |g.waitQueue|, |g.requests|
  {
    PassSends(cfg, g, now);
    var (r, done) := Pass(cfg, g, now);
    if !done {
      RoundSends(cfg, r, now);
      SendsThen(g, r, TrySchedule(cfg, r, now));
    }
  }

  lemma ReleaseSends(cfg: Config, g: Gpu, c: ClientId, now: nat)
    requires c in g.clients
    ensures Sends(g, Release(cfg, g, c, now))
  {}

  lemma RemoveReqSends(cfg: Config, g: Gpu, c: ClientId, now: nat)
    requires ValidConfig(cfg) && Listed(g) && c in g.clients
    ensures Sends(g, RemoveReq(cfg, g, c, now))
  {
    var g1 := Release(cfg, g, c, now);
    ReleaseSends(cfg, g, c, now);
    var q := CheckWaitQueue(cfg, g1, now);
    CheckSends(cfg, g1, now);
    RoundSends(cfg, q, now);
    SendsThen(g, g1, q);
    SendsThen(g, q, TrySchedule(cfg, q, now));
  }

  lemma RequestSends(cfg: Config, g: Gpu, c: ClientId, now: nat)
    requires ValidConfig(cfg) && Listed(g) && c in g.clients && c !in g.waitQueue && c !in g.running
    ensures Sends(g, OnReqLock(cfg, g, c, now))
  {
    var q := InsertReq(g, c);
    assert Sends(g, q) && Listed(q);
    RoundSends(cfg, q, now);
    SendsThen(g, q, TrySchedule(cfg, q, now));
  }

  lemma ReleasedSends(cfg: Config, g: Gpu, c: ClientId, now: nat)
    requires ValidConfig(cfg) && Listed(g) && c in g.clients
    ensures Sends(g, OnLockReleased(cfg, g, c, now))
  {
    var q := RemoveReq(cfg, g, c, now);
    RemoveReqSends(cfg, g, c, now);
    RoundSends(cfg, q, now);
    SendsThen(g, q, TrySchedule(cfg, q, now));
  }

  lemma TimerSends(cfg: Config, g: Gpu, fullQuantum: bool, now: nat)
    requires ValidConfig(cfg) && Listed(g)
    ensures Sends(g, TimerWindow(cfg, g, now))
    ensures Sends(g, TimerWake(cfg, g, fullQuantum, now))
  {
    var w := ResetWindow(cfg, g, now);
    ResetSends(cfg, g, now);
    RoundSends(cfg, w, now);
    SendsThen(g, w, TrySchedule(cfg, w, now));
    var r := TimerWake(cfg, g, fullQuantum, now);
    forall c | c in g.clients ensures g.clients[c].socket <= r.clients[c].socket {
      TimerTells(cfg, g, fullQuantum, now, c);
    }
  }

  lemma MemUpdateSends(cfg: Config, g: Gpu, c: ClientId, usage: nat, now: nat, d: ClientId)
    requires c in g.clients && d in g.clients
    ensures d in OnMemUpdate(cfg, g, c, usage, now).clients
    ensures g.clients[d].socket <= OnMemUpdate(cfg, g, c, usage, now).clients[d].socket
  {
    FlagTells(cfg, g, c, usage, now, d);
  }

  // ---------------------------------------------------------------- one step

  /** A DROP_LOCK for this grant is still to be read, or the grant was given up. */
  ghost predicate Answered(s: Sys, c: ClientId, grant: nat) {
    c in s.apps && c in s.gpu.clients
    && (Message(DropLock, grant) in s.gpu.clients[c].socket || s.apps[c].releaseCount >= grant)
  }

  /** Reading a DROP_LOCK gives up the grant it was sent for, if that did not happen before. */
  lemma ReadingAnswers(a: App, k: Client, queued: bool, running: bool)
    requires ClientOk(a, k, queued, running) && k.socket != [] && k.socket[0].kind == DropLock
    ensures Receive(a, k.socket[0]).releaseCount >= k.socket[0].grant
  {
    if !a.ownLock && Oks(k.socket) > 0 {
      OksMember(k.socket);
      var j :| 0 <= j < |k.socket| && k.socket[j].kind == LockOk;
      assert k.socket[0].grant < k.socket[j].grant;
    }
  }

  lemma ReceivingAnswers(cfg: Config, s: Sys, step: Step, c: ClientId, grant: nat)
    requires SysInv(cfg, s) && Enabled(cfg, s, step) && Answered(s, c, grant) && step.act == AppReceives(c)
    ensures Answered(Next(cfg, s, step), c, grant)
  {
    var k, a := s.gpu.clients[c], s.apps[c];
    assert ClientOk(a, k, Queued(s.gpu, c), c in s.gpu.running);
    PopAnswers(a, k, Queued(s.gpu, c), c in s.gpu.running, grant);
    ReceiveStep(cfg, s, step, c);
  }

  lemma PopAnswers(a: App, k: Client, queued: bool, running: bool, grant: nat)
    requires ClientOk(a, k, queued, running) && k.socket != []
    requires Message(DropLock, grant) in k.socket || a.releaseCount >= grant
    ensures Message(DropLock, grant) in k.socket[1..] || Receive(a, k.socket[0]).releaseCount >= grant
  {
    assert k.socket == [k.socket[0]] + k.socket[1..];
    if k.socket[0].kind == DropLock { ReadingAnswers(a, k, queued, running); }
  }

  lemma ReceiveStep(cfg: Config, s: Sys, step: Step, c: ClientId)
    requires ValidConfig(cfg) && Listed(s.gpu) && Protocol(s.gpu, s.apps) && Enabled(cfg, s, step) && step.act == AppReceives(c)
    ensures var r := Next(cfg, s, step);
            && c in r.apps && r.apps[c] == Receive(s.apps[c], s.gpu.clients[c].socket[0])
            && c in r.gpu.clients && r.gpu.clients[c].socket == s.gpu.clients[c].socket[1..]
  {}

  lemma HandleSends(cfg: Config, s: Sys, c: ClientId, now: nat, d: ClientId)
    requires ValidConfig(cfg) && Listed(s.gpu) && Protocol(s.gpu, s.apps)
    requires c in s.apps && s.apps[c].outbox != [] && d in s.gpu.clients
    ensures s.gpu.clients[d].socket <= Handle(cfg, s, c, now).clients[d].socket
    ensures !s.apps[c].outbox[0].MemUpdate? ==> Handle(cfg, s, c, now).overloaded == s.gpu.overloaded
  {
    match s.apps[c].outbox[0]
    case ReqLock => RequestIsFresh(s.gpu, s.apps, c); RequestSends(cfg, s.gpu, c, now);
    case LockReleased => ReleasedSends(cfg, s.gpu, c, now);
    case MemUpdate(usage) => MemUpdateSends(cfg, s.gpu, c, usage, now, d);
  }

  lemma GoneSends(cfg: Config, g: Gpu, c: ClientId, now: nat, d: ClientId)
    requires ValidConfig(cfg) && Listed(g) && c in g.clients && d in g.clients && d != c
    requires OnDisconnect(cfg, g, c, now).Gone?
    ensures d in OnDisconnect(cfg, g, c, now).gpu.clients
    ensures g.clients[d].socket <= OnDisconnect(cfg, g, c, now).gpu.clients[d].socket
    ensures OnDisconnect(cfg, g, c, now).gpu.overloaded == g.overloaded
  {
    var q := RemoveReq(cfg, g, c, now);
    RemoveReqSends(cfg, g, c, now);
    var u := Unregister(q, c);
    RoundSends(cfg, u, now);
    assert q.clients[d].socket == u.clients[d].socket;
  }

  /** No step but its own reading takes a message from a client's socket. */
  lemma SocketsGrow(cfg: Config, s: Sys, step: Step, c: ClientId)
    requires SysInv(cfg, s) && Enabled(cfg, s, step) && c in s.gpu.clients
    requires step.act != AppReceives(c) && step.act != Goes(c)
    ensures c in NextGpu(cfg, s, step).clients
    ensures s.gpu.clients[c].socket <= NextGpu(cfg, s, step).clients[c].socket
  {
    var g, now := s.gpu, step.at;
    if step.act.Reads? {
      HandleSends(cfg, s, step.act.c, now, c);
    } else if step.act.TimerTop? {
      TimerSends(cfg, g, false, now);
    } else if step.act.TimerBottom? {
      TimerSends(cfg, g, step.act.fullQuantum, now);
    } else if step.act.Goes? {
      GoneSends(cfg, g, step.act.c, now, c);
    } else {
      OutsideSends(cfg, s, step, c);
      assert NextGpu(cfg, s, step) == Outside(cfg, s, step);
    }
  }

  lemma OutsideSends(cfg: Config, s: Sys, step: Step, c: ClientId)
    requires ValidConfig(cfg) && Listed(s.gpu) && Enabled(cfg, s, step) && c in s.gpu.clients && step.act != AppReceives(c)
    ensures c in Outside(cfg, s, step).clients && Outside(cfg, s, step).clients[c].socket == s.gpu.clients[c].socket
  {}

  /** What a step does to one client's process. */
  lemma ReleasesGrow(cfg: Config, s: Sys, step: Step, c: ClientId)
    requires ValidConfig(cfg) && Listed(s.gpu) && Enabled(cfg, s, step) && c in s.apps && c in s.gpu.clients && step.act != Goes(c)
    ensures c in NextApps(cfg, s, step) && NextApps(cfg, s, step)[c].releaseCount >= s.apps[c].releaseCount
  {
    if step.act.AppAsks? || step.act.AppReceives? || step.act.AppReleases? || step.act.AppReports? || step.act.Reads? {
      AppReleasesGrow(cfg, s, step, c);
    } else {
      assert NextApps(cfg, s, step)[c] == s.apps[c];
    }
  }

  lemma AppReleasesGrow(cfg: Config, s: Sys, step: Step, c: ClientId)
    requires ValidConfig(cfg) && Listed(s.gpu) && Enabled(cfg, s, step) && c in s.apps
    requires step.act.AppAsks? || step.act.AppReceives? || step.act.AppReleases? || step.act.AppReports? || step.act.Reads?
    ensures NextApps(cfg, s, step)[c].releaseCount >= s.apps[c].releaseCount
  {
    if step.act.c == c {
      assert NextApps(cfg, s, step)[c].releaseCount >= s.apps[c].releaseCount;
    } else {
      assert NextApps(cfg, s, step)[c] == s.apps[c];
    }
  }

  lemma NextKeepsAnswered(cfg: Config, s: Sys, step: Step, c: ClientId, grant: nat)
    requires SysInv(cfg, s) && Enabled(cfg, s, step) && Answered(s, c, grant) && step.act != Goes(c)
    ensures Answered(Next(cfg, s, step), c, grant)
  {
    if step.act == AppReceives(c) {
      ReceivingAnswers(cfg, s, step, c, grant);
    } else {
      SocketsGrow(cfg, s, step, c);
      ReleasesGrow(cfg, s, step, c);
    }
  }

  // ---------------------------------------------------------------- runs

  ghost predicate Remains(steps: seq<Step>, c: ClientId) {
    forall i :: 0 <= i < |steps| ==> steps[i].act != Goes(c)
  }

  /** While a client is told to drop a grant, it stays that way: over every run in which it does
      not disconnect, the DROP_LOCK is still to be read or the grant was given up. */
  lemma {:induction false} DropIsAnswered(cfg: Config, s: Sys, steps: seq<Step>, c: ClientId, grant: nat)
    requires SysInv(cfg, s) && IsRun(cfg, s, steps) && Remains(steps, c) && Answered(s, c, grant)
    ensures Answered(Run(cfg, s, steps), c, grant)
    decreases |steps|
  {
    if steps != [] {
      assert steps[0].act != Goes(c);
      NextKeepsSysInv(cfg, s, steps[0]);
      NextKeepsAnswered(cfg, s, steps[0], c, grant);
      assert Remains(steps[1..], c);
      DropIsAnswered(cfg, Next(cfg, s, steps[0]), steps[1..], c, grant);
    }
  }

  /** A client that still runs on the grant it was told to drop has the DROP_LOCK to read, or
      its LOCK_RELEASED is on its way to the scheduler. */
  lemma AnswerIsOnItsWay(cfg: Config, s: Sys, c: ClientId, grant: nat)
    requires SysInv(cfg, s) && Answered(s, c, grant) && c in s.gpu.running && s.gpu.clients[c].grants == grant
    ensures Message(DropLock, grant) in s.gpu.clients[c].socket || LockReleased in s.apps[c].outbox
  {
    var a, k := s.apps[c], s.gpu.clients[c];
    assert ClientOk(a, k, Queued(s.gpu, c), true);
    if a.releaseCount >= grant {
      assert Locks(a.outbox)[0] == LockReleased;
      LocksSent(a.outbox);
    }
  }

  /** What holds of a client that a step told to drop the lock, over every run that follows. */
  ghost predicate Obeys(s: Sys, c: ClientId, grant: nat) {
    && Answered(s, c, grant)
    && (c in s.gpu.running && s.gpu.clients[c].grants == grant ==>
          Message(DropLock, grant) in s.gpu.clients[c].socket || LockReleased in s.apps[c].outbox)
  }

  lemma ToldObeys(cfg: Config, s: Sys, steps: seq<Step>, c: ClientId, grant: nat)
    requires SysInv(cfg, s) && IsRun(cfg, s, steps) && Remains(steps, c)
    requires c in s.gpu.clients && Message(DropLock, grant) in s.gpu.clients[c].socket
    ensures Obeys(Run(cfg, s, steps), c, grant)
  {
    DropIsAnswered(cfg, s, steps, c, grant);
    RunKeepsSysInv(cfg, s, steps);
    var e := Run(cfg, s, steps);
    if c in e.gpu.running && e.gpu.clients[c].grants == grant {
      AnswerIsOnItsWay(cfg, e, c, grant);
    }
  }

  lemma LastIsIn(s: seq<Message>, m: Message)
    ensures m in s + [m]
  {
    assert (s + [m])[|s|] == m;
  }

  /** A step that flags overload reads a memory report and sends every runner a DROP_LOCK. */
  lemma FlaggingTells(cfg: Config, s: Sys, step: Step, c: ClientId)
    requires SysInv(cfg, s) && Enabled(cfg, s, step)
    requires !s.gpu.overloaded && NextGpu(cfg, s, step).overloaded && c in s.gpu.running
    ensures c in NextGpu(cfg, s, step).clients
    ensures NextGpu(cfg, s, step).clients[c].socket == s.gpu.clients[c].socket + [Message(DropLock, s.gpu.clients[c].grants)]
  {
    FlagIsReported(cfg, s, step);
    var d := step.act.c;
    FlagTells(cfg, s.gpu, d, s.apps[d].outbox[0].usage, step.at, c);
    assert NextGpu(cfg, s, step) == OnMemUpdate(cfg, s.gpu, d, s.apps[d].outbox[0].usage, step.at);
  }

  lemma FlagIsReported(cfg: Config, s: Sys, step: Step)
    requires SysInv(cfg, s) && Enabled(cfg, s, step)
    requires !s.gpu.overloaded && NextGpu(cfg, s, step).overloaded
    ensures step.act.Reads? && s.apps[step.act.c].outbox[0].MemUpdate?
  {
    var g, now := s.gpu, step.at;
    match step.act
    case AppAsks(_) =>
    case AppReceives(_) =>
    case AppReleases(_) =>
    case AppReports(_, _) =>
    case Reads(d) => HandleSends(cfg, s, d, now, d);
    case TimerTop => TimerSends(cfg, g, false, now);
    case TimerBottom(fullQuantum) => TimerSends(cfg, g, fullQuantum, now);
    case Joins(_, _) =>
    case Relimits(_, _) =>
    case Goes(d) => GoneKeepsFlag(cfg, g, d, now);
  }

  lemma GoneKeepsFlag(cfg: Config, g: Gpu, c: ClientId, now: nat)
    requires ValidConfig(cfg) && Listed(g) && c in g.clients && OnDisconnect(cfg, g, c, now).Gone?
    ensures OnDisconnect(cfg, g, c, now).gpu.overloaded == g.overloaded
  {
    var q := RemoveReq(cfg, g, c, now);
    RemoveReqSends(cfg, g, c, now);
    RoundSends(cfg, Unregister(q, c), now);
  }

  /** After a step that flags overload, over every run: each client that ran then still has a
      DROP_LOCK for its grant to read, or has given it up. */
  lemma OverloadIsAnswered(cfg: Config, s: Sys, step: Step, steps: seq<Step>, c: ClientId)
    requires SysInv(cfg, s) && Enabled(cfg, s, step)
    requires !s.gpu.overloaded && NextGpu(cfg, s, step).overloaded && c in s.gpu.running
    requires SysInv(cfg, Next(cfg, s, step)) && IsRun(cfg, Next(cfg, s, step), steps) && Remains(steps, c)
    ensures Obeys(Run(cfg, Next(cfg, s, step), steps), c, s.gpu.clients[c].grants)
  {
    FlaggingTells(cfg, s, step, c);
    LastIsIn(s.gpu.clients[c].socket, Message(DropLock, s.gpu.clients[c].grants));
    ToldObeys(cfg, Next(cfg, s, step), steps, c, s.gpu.clients[c].grants);
  }

  lemma WakingTells(cfg: Config, s: Sys, at: nat, fullQuantum: bool, c: ClientId)
    requires SysInv(cfg, s) && s.clock <= at && c in s.gpu.clients
    requires OutOfQuota(cfg, s.gpu, c, at) || MakesRoom(s.gpu, c, fullQuantum)
    ensures var r := NextGpu(cfg, s, Step(at, TimerBottom(fullQuantum)));
            c in r.clients && Message(DropLock, s.gpu.clients[c].grants) in r.clients[c].socket
  {
    WakeStep(cfg, s, at, fullQuantum);
    WakeIsTold(cfg, s.gpu, at, fullQuantum, c);
  }

  lemma WakeStep(cfg: Config, s: Sys, at: nat, fullQuantum: bool)
    requires ValidConfig(cfg) && Listed(s.gpu) && Protocol(s.gpu, s.apps) && s.clock <= at
    ensures NextGpu(cfg, s, Step(at, TimerBottom(fullQuantum))) == TimerWake(cfg, s.gpu, fullQuantum, at)
  {}

  lemma WakeIsTold(cfg: Config, g: Gpu, at: nat, fullQuantum: bool, c: ClientId)
    requires Listed(g) && c in g.clients && (OutOfQuota(cfg, g, c, at) || MakesRoom(g, c, fullQuantum))
    ensures Message(DropLock, g.clients[c].grants) in TimerWake(cfg, g, fullQuantum, at).clients[c].socket
  {
    TimerTells(cfg, g, fullQuantum, at, c);
    LastIsIn(g.clients[c].socket, Message(DropLock, g.clients[c].grants));
  }

  /** After the timer found a runner out of quota, or told it to make room, over every run: it
      still has a DROP_LOCK for its grant to read, or has given it up. */
  lemma TimerIsAnswered(cfg: Config, s: Sys, at: nat, fullQuantum: bool, steps: seq<Step>, c: ClientId)
    requires SysInv(cfg, s) && s.clock <= at && c in s.gpu.clients
    requires OutOfQuota(cfg, s.gpu, c, at) || MakesRoom(s.gpu, c, fullQuantum)
    requires var s' := Next(cfg, s, Step(at, TimerBottom(fullQuantum)));
             SysInv(cfg, s') && IsRun(cfg, s', steps) && Remains(steps, c)
    ensures Obeys(Run(cfg, Next(cfg, s, Step(at, TimerBottom(fullQuantum))), steps), c, s.gpu.clients[c].grants)
  {
    WakingTells(cfg, s, at, fullQuantum, c);
    ToldObeys(cfg, Next(cfg, s, Step(at, TimerBottom(fullQuantum))), steps, c, s.gpu.clients[c].grants);
  }
}
