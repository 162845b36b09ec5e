/** What a scheduling round does to the queues: it loses nobody, and it leaves nobody behind
    who could run. */
module Scheduling {
  import opened Lists
  import opened GpuModel

  /** Everyone on one of the three lists. */
  function Everyone(g: Gpu): seq<ClientId> {
    g.requests + g.waitQueue + g.running
  }

  /** The same clients are registered, in the same order, and the same are on the lists. */
  ghost predicate SameClients(g: Gpu, g': Gpu) {
    && multiset(Everyone(g')) == multiset(Everyone(g))
    && g'.order == g.order
  }

  lemma HeadMoves(q: seq<ClientId>, w: seq<ClientId>, run: seq<ClientId>)
    requires q != []
    ensures multiset(q[1..] + (w + [q[0]]) + run) == multiset(q + w + run)
    ensures multiset(q[1..] + w + (run + [q[0]])) == multiset(q + w + run)
  {
    assert q == [q[0]] + q[1..];
  }

  lemma EntryMoves(q: seq<ClientId>, w: seq<ClientId>, run: seq<ClientId>, i: nat)
    requires i < |w|
    ensures multiset([w[i]] + q + (w[..i] + w[i + 1..]) + run) == multiset(q + w + run)
  {
    assert w == w[..i] + [w[i]] + w[i + 1..];
  }

  lemma MoveKeepsEveryone(g: Gpu)
    requires Listed(g) && g.requests != []
    ensures SameClients(g, MoveToWaitQueue(g))
  {
    HeadMoves(g.requests, g.waitQueue, g.running);
  }

  lemma PromoteKeepsEveryone(g: Gpu, i: nat)
    requires Listed(g) && i < |g.waitQueue|
    ensures SameClients(g, Promote(g, i))
  {
    EntryMoves(g.requests, g.waitQueue, g.running, i);
  }

  lemma GrantKeepsEveryone(g: Gpu, now: nat)
    requires Listed(g) && g.requests != []
    ensures SameClients(g, Grant(g, now))
  {
    HeadMoves(g.requests, g.waitQueue, g.running);
  }

  lemma CheckWaitQueueKeepsEveryone(cfg: Config, g: Gpu, now: nat)
    requires Listed(g)
    ensures SameClients(g, CheckWaitQueue(cfg, g, now))
  {
    if g.waitQueue != [] {
      var w := ResetWindow(cfg, g, now);
      var i := FirstAdmissible(cfg, w, w.waitQueue);
      if i < |w.waitQueue| {
        PromoteKeepsEveryone(w, i);
        assert CheckWaitQueue(cfg, g, now) == Promote(w, i);
      } else {
        assert CheckWaitQueue(cfg, g, now) == w;
      }
    }
  }

  lemma PassKeepsEveryone(cfg: Config, g: Gpu, now: nat)
    requires ValidConfig(cfg) && Listed(g)
    ensures SameClients(g, Pass(cfg, g, now).0)
  {
    var g0 := if g.requests == [] then CheckWaitQueue(cfg, g, now) else g;
    CheckWaitQueueKeepsEveryone(cfg, g, now);
    if g0.requests != [] {
      var w := ResetWindow(cfg, g0, now);
      assert SameClients(g, w);
      if Admissible(cfg, w, w.requests[0]) {
        GrantKeepsEveryone(w, now);
      } else {
        MoveKeepsEveryone(w);
      }
    }
  }

  /** A scheduling round moves clients between the lists; it adds and drops none. */
  lemma {:induction false} TryScheduleKeepsEveryone(cfg: Config, g: Gpu, now: nat)
    requires ValidConfig(cfg) && Listed(g)
    ensures SameClients(g, TrySchedule(cfg, g, now))
    decreases |g.requests| + |g.waitQueue|, |g.requests|
  {
    PassKeepsEveryone(cfg, g, now);
    var (r, done) := Pass(cfg, g, now);
    if !done {
      TryScheduleKeepsEveryone(cfg, r, now);
    }
  }

  /** No request is pending, and `can_run` would accept nobody who waits. */
  ghost predicate Quiescent(cfg: Config, g: Gpu, now: nat) {
    g.requests == [] && forall c :: c in g.waitQueue ==> !Admissible(cfg, ResetWindow(cfg, g, now), c)
  }

  lemma LastPassQuiesces(cfg: Config, g: Gpu, now: nat)
    requires ValidConfig(cfg) && Listed(g) && cfg.mode != Serial && Pass(cfg, g, now).1
    ensures Quiescent(cfg, Pass(cfg, g, now).0, now)
  {
    var r := Pass(cfg, g, now).0;
    ResetWindowIdempotent(cfg, g, now);
    forall c | c in r.waitQueue ensures !Admissible(cfg, ResetWindow(cfg, r, now), c) {
      var i :| 0 <= i < |r.waitQueue| && r.waitQueue[i] == c;
    }
  }

  /** Outside serial mode a round ends with no request pending and nobody waiting whom
      `can_run` would accept at that time. */
  lemma {:induction false} TryScheduleQuiesces(cfg: Config, g: Gpu, now: nat)
    requires ValidConfig(cfg) && Listed(g) && cfg.mode != Serial
    ensures Quiescent(cfg, TrySchedule(cfg, g, now), now)
    decreases |g.requests| + |g.waitQueue|, |g.requests|
  {
    var (r, done) := Pass(cfg, g, now);
    if done {
      LastPassQuiesces(cfg, g, now);
    } else {
      TryScheduleQuiesces(cfg, r, now);
    }
  }

  // ---------------------------------------------------------------- handlers that make a round

  lemma AccrueForgets(g: Gpu, c: ClientId, now: nat)
    ensures Accrue(Forget(g, c), now, {}) == Forget(Accrue(g, now, {}), c)
  {
    assert Concurrency(Forget(g, c)) == Concurrency(g);
  }

  lemma ResetForgets(cfg: Config, g: Gpu, c: ClientId, now: nat)
    ensures ResetWindow(cfg, Forget(g, c), now) == Forget(ResetWindow(cfg, g, now), c)
  {
    if WindowDue(cfg, g, now) {
      var b := g.(windowStart := now);
      AccrueForgets(b, c, now);
      var a := Accrue(b, now, {});
      assert Forget(g, c).(windowStart := now) == Forget(b, c);
      assert TotalQuota(Forget(a, c)) == TotalQuota(a);
      var r, r' := ResetWindow(cfg, g, now), ResetWindow(cfg, Forget(g, c), now);
      forall d | d in a.clients ensures r'.clients[d] == r.clients[d] {
        assert r.clients[d] == CloseWindow(cfg, QuotaOf(cfg, a, a.clients[d]), a.clients[d]);
      }
    }
  }

  lemma ForgetKeepsAdmission(cfg: Config, w: Gpu, c: ClientId, d: ClientId)
    ensures Admissible(cfg, Forget(w, c), d) <==> Admissible(cfg, w, d)
  {
    assert TotalQuota(Forget(w, c)) == TotalQuota(w);
  }

  /** Forgetting a queued client keeps a state quiescent. */
  lemma ForgetQuiesces(cfg: Config, g: Gpu, c: ClientId, now: nat)
    requires Quiescent(cfg, g, now)
    ensures Quiescent(cfg, Forget(g, c), now)
  {
    var r, w := Forget(g, c), ResetWindow(cfg, g, now);
    ResetForgets(cfg, g, c, now);
    forall d | d in r.waitQueue ensures !Admissible(cfg, ResetWindow(cfg, r, now), d) {
      ForgetKeepsAdmission(cfg, w, c, d);
    }
  }

  /** Outside serial mode a REQ_LOCK always leaves a quiescent state, and so does a timer that
      finds the window due. */
  lemma RequestQuiesces(cfg: Config, g: Gpu, c: ClientId, now: nat)
    requires ValidConfig(cfg) && Listed(g) && cfg.mode != Serial && c in g.clients && c !in g.waitQueue && c !in g.running
    ensures Quiescent(cfg, OnReqLock(cfg, g, c, now), now)
  {
    TryScheduleQuiesces(cfg, InsertReq(g, c), now);
  }

  lemma TimerQuiesces(cfg: Config, g: Gpu, now: nat)
    requires ValidConfig(cfg) && Listed(g) && cfg.mode != Serial && WindowDue(cfg, g, now)
    ensures Quiescent(cfg, TimerWindow(cfg, g, now), now)
  {
    TryScheduleQuiesces(cfg, ResetWindow(cfg, g, now), now);
  }

  /** A LOCK_RELEASED leaves a quiescent state if it empties the running list; with another
      runner left it makes no round at all, and whoever waited keeps waiting. */
  lemma ReleaseQuiesces(cfg: Config, g: Gpu, c: ClientId, now: nat)
    requires ValidConfig(cfg) && Listed(g) && cfg.mode != Serial && c in g.clients && (g.lockHeld <==> g.running != [])
    ensures var g1, r := Release(cfg, g, c, now), OnLockReleased(cfg, g, c, now);
            if g1.running == [] then Quiescent(cfg, r, now)
            else r == Forget(g1, c) && r.requests == Without(g.requests, c) && r.waitQueue == Without(g.waitQueue, c)
  {
    var g1, r := Release(cfg, g, c, now), RemoveReq(cfg, g, c, now);
    if g1.running == [] {
      var g2 := TrySchedule(cfg, CheckWaitQueue(cfg, g1, now), now);
      TryScheduleQuiesces(cfg, CheckWaitQueue(cfg, g1, now), now);
      ForgetQuiesces(cfg, g2, c, now);
      assert r == Forget(g2, c);
      TryScheduleQuiesces(cfg, r, now);
    } else {
      assert r == Forget(g1, c) && r.lockHeld;
      assert g1.requests == g.requests && g1.waitQueue == g.waitQueue;
    }
  }

  // ---------------------------------------------------------------- grants

  lemma GrantSparesOthers(g: Gpu, c: ClientId, now: nat)
    requires Listed(g) && g.requests != [] && c in g.clients && c !in g.running && c != g.requests[0]
    ensures var r := Grant(g, now);
            && r.clients.Keys == g.clients.Keys && c !in r.running
            && r.windowStart == g.windowStart && r.order == g.order
            && r.clients[c] == g.clients[c]
            && forall d :: d in g.clients ==> r.clients[d].coreLimit == g.clients[d].coreLimit
  {
    var r := Grant(g, now);
    assert r.clients.Keys == g.clients.Keys;
    forall d | d in g.clients ensures r.clients[d].coreLimit == g.clients[d].coreLimit {
      GrantKeepsLimit(g, d, now);
    }
  }

  lemma GrantKeepsLimit(g: Gpu, d: ClientId, now: nat)
    requires g.requests != [] && g.requests[0] in g.clients && d in g.clients && d in Grant(g, now).clients
    ensures Grant(g, now).clients[d].coreLimit == g.clients[d].coreLimit
  {}
}
