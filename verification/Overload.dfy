/** Once overload is flagged the GPU falls back to serial use: the number of runners never
    grows again, except from none to one. */
module Overload {
  import opened Lists
  import opened GpuModel
  import opened GpuInvariants
  import opened Departures
  import opened LockProtocol
  import opened System

  /** Overload is flagged and at most k clients run. */
  predicate Capped(g: Gpu, k: nat) {
    g.overloaded && |g.running| <= k
  }

  lemma CheckKeepsCap(cfg: Config, g: Gpu, now: nat, k: nat)
    requires Listed(g) && Capped(g, k)
    ensures Capped(CheckWaitQueue(cfg, g, now), k)
  {}

  lemma GrantKeepsCap(cfg: Config, g: Gpu, now: nat, k: nat)
    requires g.requests != [] && Admissible(cfg, g, g.requests[0])
    requires Capped(g, k) && 1 <= k && (g.lockHeld <==> g.running != [])
    ensures Capped(Grant(g, now), k)
  {
    assert g.running == [];
  }

  lemma PassKeepsCap(cfg: Config, g: Gpu, now: nat, k: nat)
    requires ValidConfig(cfg) && Listed(g) && Capped(g, k) && 1 <= k && (g.lockHeld <==> g.running != [])
    ensures Capped(Pass(cfg, g, now).0, k)
  {
    CheckKeepsCap(cfg, g, now, k);
    var g0 := if g.requests == [] then CheckWaitQueue(cfg, g, now) else g;
    var w := ResetWindow(cfg, g0, now);
    if w.requests != [] && Admissible(cfg, w, w.requests[0]) {
      GrantKeepsCap(cfg, w, now, k);
    }
  }

  lemma {:induction false} TryScheduleKeepsCap(cfg: Config, g: Gpu, now: nat, k: nat)
    requires ValidConfig(cfg) && Inv(cfg, g, now) && Capped(g, k) && 1 <= k
    ensures Capped(TrySchedule(cfg, g, now), k)
    decreases |g.requests| + |g.waitQueue|, |g.requests|
  {
    PassKeepsCap(cfg, g, now, k);
    PassKeepsInv(cfg, g, now);
    var (r, done) := Pass(cfg, g, now);
    if !done {
      TryScheduleKeepsCap(cfg, r, now, k);
    }
  }

  lemma RemoveReqKeepsCap(cfg: Config, g: Gpu, c: ClientId, now: nat, k: nat)
    requires ValidConfig(cfg) && Inv(cfg, g, now) && c in g.clients && Capped(g, k) && 1 <= k
    ensures Capped(RemoveReq(cfg, g, c, now), k)
  {
    var g1 := Release(cfg, g, c, now);
    ReleaseKeepsInv(cfg, g, c, now);
    if g1.running == [] {
      CheckKeepsCap(cfg, g1, now, k);
      CheckWaitQueueKeepsInv(cfg, g1, now);
      TryScheduleKeepsCap(cfg, CheckWaitQueue(cfg, g1, now), now, k);
    }
  }

  lemma HandleKeepsCap(cfg: Config, s: Sys, c: ClientId, now: nat, k: nat)
    requires ValidConfig(cfg) && Inv(cfg, s.gpu, now) && Protocol(s.gpu, s.apps)
    requires c in s.apps && s.apps[c].outbox != [] && Capped(s.gpu, k) && 1 <= k
    ensures Capped(Handle(cfg, s, c, now), k)
  {
    var g := s.gpu;
    match s.apps[c].outbox[0]
    case ReqLock =>
      RequestIsFresh(g, s.apps, c);
      InsertQuiet(g, c);
      QuietKeepsInv(cfg, g, InsertReq(g, c), now);
      TryScheduleKeepsCap(cfg, InsertReq(g, c), now, k);
    case LockReleased =>
      RemoveReqKeepsInv(cfg, g, c, now);
      RemoveReqKeepsCap(cfg, g, c, now, k);
      TryScheduleKeepsCap(cfg, RemoveReq(cfg, g, c, now), now, k);
    case MemUpdate(usage) =>
  }

  lemma DisconnectKeepsCap(cfg: Config, g: Gpu, c: ClientId, now: nat, k: nat)
    requires ValidConfig(cfg) && Inv(cfg, g, now) && c in g.clients && OnDisconnect(cfg, g, c, now).Gone?
    requires Capped(g, k) && 1 <= k
    ensures Capped(OnDisconnect(cfg, g, c, now).gpu, k)
  {
    var g1 := RemoveReq(cfg, g, c, now);
    RemoveReqKeepsInv(cfg, g, c, now);
    RemoveReqKeepsCap(cfg, g, c, now, k);
    UnregisterQuiet(g1, c);
    QuietKeepsInv(cfg, g1, Unregister(g1, c), now);
    TryScheduleKeepsCap(cfg, Unregister(g1, c), now, k);
  }

  lemma NextKeepsCap(cfg: Config, s: Sys, step: Step, k: nat)
    requires SysInv(cfg, s) && Enabled(cfg, s, step) && Capped(s.gpu, k) && 1 <= k
    ensures Capped(Next(cfg, s, step).gpu, k)
  {
    var g, now := s.gpu, step.at;
    TimePasses(cfg, g, s.clock, now);
    match step.act
    case AppAsks(c) =>
    case AppReceives(c) =>
    case AppReleases(c) =>
    case AppReports(c, usage) =>
    case Reads(c) => HandleKeepsCap(cfg, s, c, now, k);
    case TimerTop =>
      ResetKeepsInv(cfg, g, now);
      TryScheduleKeepsCap(cfg, ResetWindow(cfg, g, now), now, k);
    case TimerBottom(fullQuantum) =>
    case Joins(c, limit) =>
    case Relimits(c, limit) =>
    case Goes(c) => DisconnectKeepsCap(cfg, g, c, now, k);
  }

  /** From a flagged state with at most k runners, k at least one, every run stays flagged
      with at most k runners; with k == 1 this is what holds once the running list was empty. */
  lemma {:induction false} OverloadFallsBackToSerial(cfg: Config, s: Sys, steps: seq<Step>, k: nat)
    requires SysInv(cfg, s) && IsRun(cfg, s, steps) && Capped(s.gpu, k) && 1 <= k
    ensures Capped(Run(cfg, s, steps).gpu, k)
    decreases |steps|
  {
    if steps != [] {
      NextKeepsSysInv(cfg, s, steps[0]);
      NextKeepsCap(cfg, s, steps[0], k);
      OverloadFallsBackToSerial(cfg, Next(cfg, s, steps[0]), steps[1..], k);
    }
  }
}
