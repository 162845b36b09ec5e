/** Disconnects.  `remove_req` admits waiting clients before it deletes the entries of the
    client that leaves, so that client may be admitted itself and stay on the running list. */
module Departures {
  import opened Lists
  import opened GpuModel
  import opened GpuInvariants
  import opened Scheduling
  import opened Admission

  /** The end of a disconnect: the client is gone, or it is still on the running list.  The
      original frees its record in both cases; what it does from then on in the second one is
      not defined. */
  datatype Departure = Gone(gpu: Gpu) | Lingers(gpu: Gpu)

  /** The whole of a disconnect: the entries go, then the client itself, then a round. */
  function OnDisconnect(cfg: Config, g: Gpu, c: ClientId, now: nat): (r: Departure)
    requires ValidConfig(cfg) && Listed(g) && c in g.clients
    ensures Listed(r.gpu)
    ensures r.gpu.clients.Keys == if r.Gone? then g.clients.Keys - {c} else g.clients.Keys
    ensures r.Lingers? ==> c in r.gpu.running
  {
    var g1 := RemoveReq(cfg, g, c, now);
    if c in g1.running then Lingers(g1) else
      var g2 := Unregister(g1, c);
      Gone(if g2.lockHeld then g2 else TrySchedule(cfg, g2, now))
  }

  // ---------------------------------------------------------------- who is admitted first

  /** Nobody runs. */
  predicate Free(g: Gpu) {
    g.running == [] && !g.lockHeld && g.runningMemory == 0
  }

  /** At most one client runs at a time. */
  predicate OneByOne(cfg: Config, g: Gpu) {
    cfg.mode == Serial || g.overloaded
  }

  /** The first fit client in line, if there is one. */
  function FirstFit(cfg: Config, g: Gpu, line: seq<ClientId>): seq<ClientId> {
    if line == [] then [] else if Fit(cfg, g, line[0]) then [line[0]] else FirstFit(cfg, g, line[1..])
  }

  lemma {:induction false} FirstFitConcat(cfg: Config, g: Gpu, a: seq<ClientId>, b: seq<ClientId>)
    ensures FirstFit(cfg, g, a + b) == if FirstFit(cfg, g, a) != [] then FirstFit(cfg, g, a) else FirstFit(cfg, g, b)
  {
    if a == [] {
      assert a + b == b;
    } else {
      assert (a + b)[1..] == a[1..] + b;
      FirstFitConcat(cfg, g, a[1..], b);
    }
  }

  /** The index at which the first fit client stands, the length of the line if there is none. */
  lemma {:induction false} FirstFitAt(cfg: Config, g: Gpu, line: seq<ClientId>, i: nat)
    requires i <= |line| && forall j :: 0 <= j < i ==> !Fit(cfg, g, line[j])
    requires i < |line| ==> Fit(cfg, g, line[i])
    ensures FirstFit(cfg, g, line) == if i < |line| then [line[i]] else []
  {
    if i > 0 {
      assert forall j :: 0 <= j < |line| - 1 ==> line[1..][j] == line[j + 1];
      FirstFitAt(cfg, g, line[1..], i - 1);
    }
  }

  /** With nobody running the walk takes the first fit client first, and takes it alone if
      clients run one by one. */
  lemma {:induction false} GreedyStarts(cfg: Config, g: Gpu, line: seq<ClientId>)
    ensures var first, all := FirstFit(cfg, g, line), Greedy(cfg, g, line, [], 0);
            first <= all && (first == [] || OneByOne(cfg, g) ==> all == first)
  {
    if line != [] {
      if Fit(cfg, g, line[0]) {
        assert [] + [line[0]] == [line[0]];
        GreedyGrows(cfg, g, line[1..], [line[0]], g.clients[line[0]].memory);
        if OneByOne(cfg, g) { RunnerKeepsOut(cfg, g, line[1..], [line[0]], g.clients[line[0]].memory); }
      } else {
        GreedyStarts(cfg, g, line[1..]);
      }
    }
  }

  // ---------------------------------------------------------------- admission with nobody running

  /** The order in which `remove_req` considers the clients: a fit waiting one, the requests,
      the other waiting ones. */
  function Line(cfg: Config, w: Gpu): seq<ClientId> {
    var first := FirstFit(cfg, w, w.waitQueue);
    first + w.requests + (if first == [] then w.waitQueue else Without(w.waitQueue, first[0]))
  }

  lemma LineStarts(cfg: Config, w: Gpu)
    ensures FirstFit(cfg, w, Line(cfg, w)) == FirstFit(cfg, w, w.waitQueue + w.requests)
  {
    var first := FirstFit(cfg, w, w.waitQueue);
    var rest := if first == [] then w.waitQueue else Without(w.waitQueue, first[0]);
    FirstFitConcat(cfg, w, w.waitQueue, w.requests);
    FirstFitConcat(cfg, w, first + w.requests, rest);
    FirstFitConcat(cfg, w, first, w.requests);
    FirstFitIsFit(cfg, w, w.waitQueue);
  }

  lemma {:induction false} FirstFitIsFit(cfg: Config, g: Gpu, line: seq<ClientId>)
    ensures var f := FirstFit(cfg, g, line); f == [] || (|f| == 1 && Fit(cfg, g, f[0]) && FirstFit(cfg, g, f) == f)
  {
    if line != [] { FirstFitIsFit(cfg, g, line[1..]); }
  }

  lemma FreeAdmission(cfg: Config, g: Gpu, c: ClientId)
    requires Free(g)
    ensures Admissible(cfg, g, c) <==> Fit(cfg, g, c)
  {}

  lemma FreeAdmits(cfg: Config, g: Gpu, now: nat)
    requires ValidConfig(cfg) && Listed(g) && Free(g)
    ensures TrySchedule(cfg, CheckWaitQueue(cfg, g, now), now).running
            == Greedy(cfg, ResetWindow(cfg, g, now), Line(cfg, ResetWindow(cfg, g, now)), [], 0)
  {
    CheckedLine(cfg, g, now);
    RoundIsGreedy(cfg, CheckWaitQueue(cfg, g, now), now);
  }

  /** After the promotion of a fit waiting client, or without one, the walk is along the line. */
  lemma CheckedLine(cfg: Config, g: Gpu, now: nat)
    requires ValidConfig(cfg) && Listed(g) && Free(g)
    ensures var w, r := ResetWindow(cfg, g, now), CheckWaitQueue(cfg, g, now);
            && (r.lockHeld <==> r.running != [])
            && Walk(cfg, ResetWindow(cfg, r, now)) == Greedy(cfg, w, Line(cfg, w), [], 0)
  {
    var w := ResetWindow(cfg, g, now);
    ResetWindowIdempotent(cfg, g, now);
    if g.waitQueue == [] {
      assert Line(cfg, w) == w.requests + w.waitQueue;
    } else {
      var i := FirstAdmissible(cfg, w, w.waitQueue);
      FirstFitAdmissible(cfg, w);
      if i < |w.waitQueue| {
        assert CheckWaitQueue(cfg, g, now) == Promote(w, i);
        PromotedLine(cfg, w, i, now);
      } else {
        assert CheckWaitQueue(cfg, g, now) == w;
        assert Line(cfg, w) == w.requests + w.waitQueue;
      }
    }
  }

  lemma FirstFitAdmissible(cfg: Config, w: Gpu)
    requires Free(w)
    ensures var i := FirstAdmissible(cfg, w, w.waitQueue);
            FirstFit(cfg, w, w.waitQueue) == if i < |w.waitQueue| then [w.waitQueue[i]] else []
  {
    var i := FirstAdmissible(cfg, w, w.waitQueue);
    forall c ensures Admissible(cfg, w, c) <==> Fit(cfg, w, c) { FreeAdmission(cfg, w, c); }
    FirstFitAt(cfg, w, w.waitQueue, i);
  }

  lemma PromotedLine(cfg: Config, w: Gpu, i: nat, now: nat)
    requires ValidConfig(cfg) && Listed(w) && Free(w) && ResetWindow(cfg, w, now) == w
    requires i < |w.waitQueue| && FirstFit(cfg, w, w.waitQueue) == [w.waitQueue[i]]
    ensures var r := Promote(w, i);
            ResetWindow(cfg, r, now) == r && Walk(cfg, r) == Greedy(cfg, w, Line(cfg, w), [], 0)
  {
    var r := Promote(w, i);
    ResetIsDone(cfg, w, r, now);
    WithoutAt(w.waitQueue, i);
    assert r.requests + r.waitQueue == Line(cfg, w);
    PromoteSame(cfg, w, i, Line(cfg, w));
    GreedyFrame(cfg, w, r, Line(cfg, w), [], 0);
  }

  // ---------------------------------------------------------------- when a disconnect is clean

  /** Who runs after `remove_req` has taken the last runner off, or found none. */
  lemma RemovalAdmits(cfg: Config, g: Gpu, c: ClientId, now: nat)
    requires ValidConfig(cfg) && Inv(cfg, g, now) && c in g.clients && Release(cfg, g, c, now).running == []
    ensures var w := ResetWindow(cfg, Release(cfg, g, c, now), now);
            && RemoveReq(cfg, g, c, now).running == Greedy(cfg, w, Line(cfg, w), [], 0)
            && (OneByOne(cfg, g) ==> RemoveReq(cfg, g, c, now).running == FirstFit(cfg, w, w.waitQueue + w.requests))
            && FirstFit(cfg, w, w.waitQueue + w.requests) <= RemoveReq(cfg, g, c, now).running
  {
    var g1 := Release(cfg, g, c, now);
    ReleaseKeepsInv(cfg, g, c, now);
    assert Free(g1);
    FreeAdmits(cfg, g1, now);
    var w := ResetWindow(cfg, g1, now);
    GreedyStarts(cfg, w, Line(cfg, w));
    LineStarts(cfg, w);
  }

  /** A client that is on no list is on none after admission. */
  lemma OutsiderStaysOut(cfg: Config, g: Gpu, c: ClientId, now: nat)
    requires ValidConfig(cfg) && Listed(g) && c !in Everyone(g)
    ensures c !in Everyone(TrySchedule(cfg, g, now))
    ensures c !in Everyone(TrySchedule(cfg, CheckWaitQueue(cfg, g, now), now))
  {
    assert c !in multiset(Everyone(g));
    TryScheduleKeepsEveryone(cfg, g, now);
    var g1 := CheckWaitQueue(cfg, g, now);
    CheckWaitQueueKeepsEveryone(cfg, g, now);
    TryScheduleKeepsEveryone(cfg, g1, now);
    assert c !in multiset(Everyone(TrySchedule(cfg, g, now)));
    assert c !in multiset(Everyone(TrySchedule(cfg, g1, now)));
  }

  lemma RunnerLeavesCleanly(cfg: Config, g: Gpu, c: ClientId, now: nat)
    requires ValidConfig(cfg) && Listed(g) && c in g.clients && g.running != []
    ensures c !in RemoveReq(cfg, g, c, now).running
  {
    var g1 := Release(cfg, g, c, now);
    if g1.running == [] {
      assert c in g.running;
      assert c !in Everyone(g1);
      OutsiderStaysOut(cfg, g1, c, now);
    }
  }

  /** The exact condition, in every mode and with any queues: a client lingers on the running
      list if and only if nobody runs and the walk along the queues takes it. */
  lemma LingersExactly(cfg: Config, g: Gpu, c: ClientId, now: nat)
    requires ValidConfig(cfg) && Inv(cfg, g, now) && c in g.clients
    ensures var w := ResetWindow(cfg, g, now);
            OnDisconnect(cfg, g, c, now).Lingers? <==> g.running == [] && c in Greedy(cfg, w, Line(cfg, w), [], 0)
  {
    if g.running == [] {
      assert Release(cfg, g, c, now) == g;
      RemovalAdmits(cfg, g, c, now);
    } else {
      RunnerLeavesCleanly(cfg, g, c, now);
    }
  }

  /** Where clients run one by one, that is if and only if it is the first fit client in line;
      in every mode the first fit client in line lingers. */
  lemma FirstFitLingers(cfg: Config, g: Gpu, c: ClientId, now: nat)
    requires ValidConfig(cfg) && Inv(cfg, g, now) && c in g.clients
    ensures var first := FirstFit(cfg, ResetWindow(cfg, g, now), g.waitQueue + g.requests);
            && (g.running == [] && first == [c] ==> OnDisconnect(cfg, g, c, now).Lingers?)
            && (OneByOne(cfg, g) ==> (OnDisconnect(cfg, g, c, now).Lingers? <==> g.running == [] && first == [c]))
  {
    var w := ResetWindow(cfg, g, now);
    LingersExactly(cfg, g, c, now);
    GreedyOfLine(cfg, w, c);
  }

  lemma GreedyOfLine(cfg: Config, w: Gpu, c: ClientId)
    ensures var first, all := FirstFit(cfg, w, w.waitQueue + w.requests), Greedy(cfg, w, Line(cfg, w), [], 0);
            && (first == [c] ==> c in all)
            && (OneByOne(cfg, w) ==> (c in all <==> first == [c]))
  {
    var first, all := FirstFit(cfg, w, w.waitQueue + w.requests), Greedy(cfg, w, Line(cfg, w), [], 0);
    LineStarts(cfg, w);
    GreedyStarts(cfg, w, Line(cfg, w));
    FirstFitIsFit(cfg, w, w.waitQueue + w.requests);
    if first == [c] { assert all[0] == c; }
  }

  /** In every mode a client leaves cleanly while someone runs, while it is not queued, or
      while it fails the quota check. */
  lemma LeavesCleanly(cfg: Config, g: Gpu, c: ClientId, now: nat)
    requires ValidConfig(cfg) && Inv(cfg, g, now) && c in g.clients
    requires g.running != [] || (c !in g.requests && c !in g.waitQueue) || !Fit(cfg, ResetWindow(cfg, g, now), c)
    ensures OnDisconnect(cfg, g, c, now).Gone?
  {
    LingersExactly(cfg, g, c, now);
    var w := ResetWindow(cfg, g, now);
    GreedyGrows(cfg, w, Line(cfg, w), [], 0);
    FirstFitMember(cfg, w, w.waitQueue);
  }

  /** A clean disconnect that leaves nobody running ends, outside serial mode, with no request
      pending and nobody waiting whom `can_run` would accept; with a runner left it only
      deletes the client. */
  lemma DisconnectQuiesces(cfg: Config, g: Gpu, c: ClientId, now: nat)
    requires ValidConfig(cfg) && Inv(cfg, g, now) && c in g.clients && cfg.mode != Serial
    requires OnDisconnect(cfg, g, c, now).Gone?
    ensures var a, r := RemoveReq(cfg, g, c, now), OnDisconnect(cfg, g, c, now).gpu;
            if a.running == [] then Quiescent(cfg, r, now)
            else r.running == a.running && r.requests == a.requests && r.waitQueue == a.waitQueue && r.clients == a.clients - {c}
  {
    var a := RemoveReq(cfg, g, c, now);
    RemoveReqKeepsInv(cfg, g, c, now);
    TryScheduleQuiesces(cfg, Unregister(a, c), now);
  }

  lemma {:induction false} FirstFitMember(cfg: Config, g: Gpu, line: seq<ClientId>)
    ensures forall c :: c in FirstFit(cfg, g, line) ==> c in line
  {
    if line != [] { FirstFitMember(cfg, g, line[1..]); }
  }
}
