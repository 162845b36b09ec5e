/** Debt and recovery: how a client that does not run works off its usage, window by window,
    over whole runs. */
module Recovery {
  import opened Lists
  import opened GpuModel
  import opened Arith
  import opened GpuInvariants
  import opened Scheduling
  import opened Admission
  import opened Departures
  import opened LockProtocol
  import opened System

  // ---------------------------------------------------------------- one client's windows

  /** What the quota check reads of a client is the same. */
  predicate SameUsage(k: Client, k': Client) {
    k'.coreLimit == k.coreLimit && k'.runTime == k.runTime && k'.throttled == k.throttled
  }

  /** A client that does not run, after n window boundaries at a constant quota. */
  function AfterWindows(cfg: Config, limit: int, k: Client, n: nat): Client
    decreases n
  {
    if n == 0 then k else AfterWindows(cfg, limit, CloseWindow(cfg, limit, k), n - 1)
  }

  lemma {:induction false} AfterWindowsSame(cfg: Config, limit: int, k: Client, k': Client, n: nat)
    requires SameUsage(k, k')
    ensures SameUsage(AfterWindows(cfg, limit, k, n), AfterWindows(cfg, limit, k', n))
    decreases n
  {
    if n > 0 { AfterWindowsSame(cfg, limit, CloseWindow(cfg, limit, k), CloseWindow(cfg, limit, k'), n - 1); }
  }

  /** The usage left after n boundaries is at most usage - n * quota, and exactly that at full
      carryover. */
  lemma {:induction false} DebtShrinks(cfg: Config, limit: int, k: Client, n: nat)
    requires ValidConfig(cfg) && IsLimited(k) && 0 <= limit
    ensures var r := AfterWindows(cfg, limit, k, n);
            && IsLimited(r) && r.runTime <= Max(0, k.runTime - n * limit)
            && r.throttled == (k.throttled && n == 0)
            && (cfg.carryPercent == 100 && 0 <= k.runTime ==> r.runTime == Max(0, k.runTime - n * limit))
    decreases n
  {
    if n > 0 {
      var j := CloseWindow(cfg, limit, k);
      CarryBounds(Max(0, k.runTime - limit), cfg.carryPercent);
      DebtShrinks(cfg, limit, j, n - 1);
      Distribute(limit, n - 1, 1);
      assert 0 <= (n - 1) * limit;
    }
  }

  /** n whole quotas cover a usage, to within less than one more. */
  lemma WholeQuotas(usage: int, limit: int, n: nat)
    requires 1 <= limit
    ensures usage - n * limit < limit <==> usage / limit <= n
  {
    DivBounds(usage, limit);
    Distribute(limit, n, 1);
    Distribute(limit, usage / limit, 1);
    if usage / limit <= n { MulLe(usage / limit, n, limit); } else { MulLe(n + 1, usage / limit, limit); }
  }

  // ---------------------------------------------------------------- what a handler does to it

  /** Client c, whose quota is `limit`, does not run; from g to r, handled at `now`, it goes
      through one window boundary if the window was reset, and its usage stays otherwise. */
  ghost predicate Tracks(cfg: Config, limit: int, g: Gpu, r: Gpu, c: ClientId, now: nat) {
    && c in g.clients && c in r.clients && c !in r.running
    && if WindowDue(cfg, g, now) && r.windowStart == now
       then SameUsage(CloseWindow(cfg, limit, g.clients[c]), r.clients[c])
       else && SameUsage(g.clients[c], r.clients[c])
            && (r.windowStart == g.windowStart || (g.windowStart == 0 && r.windowStart == now))
  }

  lemma TracksOn(cfg: Config, limit: int, g: Gpu, a: Gpu, r: Gpu, c: ClientId, now: nat)
    requires ValidConfig(cfg) && Tracks(cfg, limit, g, a, c, now) && Tracks(cfg, limit, a, r, c, now)
    ensures Tracks(cfg, limit, g, r, c, now)
  {}

  /** Everyone's core limit is the same, so every quota is. */
  ghost predicate SameLimits(g: Gpu, r: Gpu) {
    && r.order == g.order && r.clients.Keys == g.clients.Keys
    && forall d :: d in g.clients ==> r.clients[d].coreLimit == g.clients[d].coreLimit
  }

  /** Client c is limited to a quota and does not run. */
  ghost predicate IdleAt(cfg: Config, limit: int, g: Gpu, c: ClientId) {
    c in g.clients && c !in g.running && QuotaOf(cfg, g, g.clients[c]) == limit
  }

  lemma StaysIdle(cfg: Config, limit: int, g: Gpu, r: Gpu, c: ClientId)
    requires IdleAt(cfg, limit, g, c) && SameLimits(g, r) && c !in r.running
    ensures IdleAt(cfg, limit, r, c)
  {
    QuotaUnaffected(g, r);
  }

  /** A client that may not run before the next window reset. */
  predicate Stuck(cfg: Config, g: Gpu, c: ClientId, now: nat) {
    c in g.clients && IsLimited(g.clients[c]) && g.clients[c].throttled && !WindowDue(cfg, g, now)
  }

  lemma StaysStuck(cfg: Config, limit: int, g: Gpu, r: Gpu, c: ClientId, now: nat)
    requires ValidConfig(cfg) && Stuck(cfg, g, c, now) && Tracks(cfg, limit, g, r, c, now)
    ensures Stuck(cfg, r, c, now)
  {}

  /** A window boundary does to an idle client what CloseWindow says. */
  lemma IdleClientAtReset(cfg: Config, g: Gpu, c: ClientId, now: nat)
    requires WindowDue(cfg, g, now) && c in g.clients && c !in g.running
    ensures ResetWindow(cfg, g, now).clients[c] == CloseWindow(cfg, QuotaOf(cfg, g, g.clients[c]), g.clients[c])
  {
    var a := Accrue(g.(windowStart := now), now, {});
    assert a.clients[c] == g.clients[c];
    forall d | d in g.clients ensures a.clients[d].coreLimit == g.clients[d].coreLimit {}
    QuotaUnaffected(g, a);
  }

  lemma ResetKeepsLimits(cfg: Config, g: Gpu, now: nat)
    ensures SameLimits(g, ResetWindow(cfg, g, now))
  {
    var r := ResetWindow(cfg, g, now);
    forall d | d in g.clients ensures r.clients[d].coreLimit == g.clients[d].coreLimit {
      if WindowDue(cfg, g, now) {
        var a := Accrue(g.(windowStart := now), now, {});
        assert a.clients[d].coreLimit == g.clients[d].coreLimit;
      }
    }
  }

  lemma ResetTracks(cfg: Config, limit: int, g: Gpu, c: ClientId, now: nat)
    requires ValidConfig(cfg) && IdleAt(cfg, limit, g, c)
    ensures var r := ResetWindow(cfg, g, now); Tracks(cfg, limit, g, r, c, now) && IdleAt(cfg, limit, r, c)
  {
    if WindowDue(cfg, g, now) { IdleClientAtReset(cfg, g, c, now); }
    ResetKeepsLimits(cfg, g, now);
    StaysIdle(cfg, limit, g, ResetWindow(cfg, g, now), c);
  }

  /** Steps that change nobody's limit, not the window and not the usage of c. */
  lemma PlainTracks(cfg: Config, limit: int, g: Gpu, r: Gpu, c: ClientId, now: nat)
    requires ValidConfig(cfg) && IdleAt(cfg, limit, g, c) && SameLimits(g, r) && c !in r.running
    requires r.windowStart == g.windowStart && SameUsage(g.clients[c], r.clients[c])
    ensures Tracks(cfg, limit, g, r, c, now) && IdleAt(cfg, limit, r, c)
  {
    StaysIdle(cfg, limit, g, r, c);
  }

  /** The same after the window was seen to. */
  lemma ThenTracks(cfg: Config, limit: int, g: Gpu, w: Gpu, r: Gpu, c: ClientId, now: nat)
    requires ValidConfig(cfg) && Tracks(cfg, limit, g, w, c, now) && IdleAt(cfg, limit, w, c)
    requires SameLimits(w, r) && c !in r.running && r.windowStart == w.windowStart && SameUsage(w.clients[c], r.clients[c])
    ensures Tracks(cfg, limit, g, r, c, now) && IdleAt(cfg, limit, r, c)
  {
    PlainTracks(cfg, limit, w, r, c, now);
    TracksOn(cfg, limit, g, w, r, c, now);
  }

  /** A promotion or a move to the wait queue sends one message and does nothing else to records. */
  lemma QueueMoves(w: Gpu, i: nat, c: ClientId)
    requires Listed(w) && c in w.clients
    ensures i < |w.waitQueue| ==> SameLimits(w, Promote(w, i)) && SameUsage(w.clients[c], Promote(w, i).clients[c])
    ensures w.requests != [] ==> SameLimits(w, MoveToWaitQueue(w)) && SameUsage(w.clients[c], MoveToWaitQueue(w).clients[c])
  {}

  lemma CheckTracks(cfg: Config, limit: int, g: Gpu, c: ClientId, now: nat)
    requires ValidConfig(cfg) && Listed(g) && IdleAt(cfg, limit, g, c)
    ensures var r := CheckWaitQueue(cfg, g, now); Tracks(cfg, limit, g, r, c, now) && IdleAt(cfg, limit, r, c)
  {
    if g.waitQueue != [] {
      var w := ResetWindow(cfg, g, now);
      ResetTracks(cfg, limit, g, c, now);
      var i := FirstAdmissible(cfg, w, w.waitQueue);
      QueueMoves(w, i, c);
      if i < |w.waitQueue| {
        assert CheckWaitQueue(cfg, g, now) == Promote(w, i);
        ThenTracks(cfg, limit, g, w, Promote(w, i), c, now);
      } else {
        assert CheckWaitQueue(cfg, g, now) == w;
      }
    }
  }

  lemma GrantTracks(cfg: Config, limit: int, g: Gpu, w: Gpu, c: ClientId, now: nat)
    requires ValidConfig(cfg) && Listed(w) && Tracks(cfg, limit, g, w, c, now) && IdleAt(cfg, limit, w, c)
    requires w.requests != [] && c !in Grant(w, now).running
    ensures Tracks(cfg, limit, g, Grant(w, now), c, now) && IdleAt(cfg, limit, Grant(w, now), c)
  {
    var r := Grant(w, now);
    assert w.requests[0] in r.running;
    GrantSparesOthers(w, c, now);
    ThenTracks(cfg, limit, g, w, r, c, now);
  }

  lemma HeadTracks(cfg: Config, limit: int, g: Gpu, c: ClientId, now: nat)
    requires ValidConfig(cfg) && Listed(g) && IdleAt(cfg, limit, g, c) && g.requests != []
    ensures var w := ResetWindow(cfg, g, now);
            var r := if Admissible(cfg, w, w.requests[0]) then Grant(w, now) else MoveToWaitQueue(w);
            c !in r.running ==> Tracks(cfg, limit, g, r, c, now) && IdleAt(cfg, limit, r, c)
  {
    var w := ResetWindow(cfg, g, now);
    ResetTracks(cfg, limit, g, c, now);
    if Admissible(cfg, w, w.requests[0]) {
      if c !in Grant(w, now).running { GrantTracks(cfg, limit, g, w, c, now); }
    } else {
      QueueMoves(w, 0, c);
      ThenTracks(cfg, limit, g, w, MoveToWaitQueue(w), c, now);
    }
  }

  lemma PassTracks(cfg: Config, limit: int, g: Gpu, c: ClientId, now: nat)
    requires ValidConfig(cfg) && Listed(g) && IdleAt(cfg, limit, g, c) && c !in Pass(cfg, g, now).0.running
    ensures var r := Pass(cfg, g, now).0; Tracks(cfg, limit, g, r, c, now) && IdleAt(cfg, limit, r, c)
  {
    var g0 := if g.requests == [] then CheckWaitQueue(cfg, g, now) else g;
    CheckTracks(cfg, limit, g, c, now);
    PlainTracks(cfg, limit, g, g, c, now);
    if g0.requests != [] {
      var w := ResetWindow(cfg, g0, now);
      var r := if Admissible(cfg, w, w.requests[0]) then Grant(w, now) else MoveToWaitQueue(w);
      assert Pass(cfg, g, now).0 == r;
      HeadTracks(cfg, limit, g0, c, now);
      TracksOn(cfg, limit, g, g0, r, c, now);
    }
  }

  /** Runners stay on the list during a round, and a stuck client does not get there. */
  lemma RoundKeepsRunners(cfg: Config, g: Gpu, c: ClientId, now: nat)
    requires ValidConfig(cfg) && Listed(g) && (g.lockHeld <==> g.running != [])
    ensures c in g.running ==> c in TrySchedule(cfg, g, now).running
    ensures c !in g.running && Stuck(cfg, g, c, now) ==> c !in TrySchedule(cfg, g, now).running
  {
    RoundIsGreedy(cfg, g, now);
    var w := ResetWindow(cfg, g, now);
    GreedyGrows(cfg, w, w.requests + w.waitQueue, w.running, w.runningMemory);
  }

  lemma {:induction false} RoundTracks(cfg: Config, limit: int, g: Gpu, c: ClientId, now: nat)
    requires ValidConfig(cfg) && Listed(g) && (g.lockHeld <==> g.running != []) && IdleAt(cfg, limit, g, c)
    requires c !in TrySchedule(cfg, g, now).running
    ensures var r := TrySchedule(cfg, g, now); Tracks(cfg, limit, g, r, c, now) && IdleAt(cfg, limit, r, c)
    decreases |g.requests| + |g.waitQueue|, |g.requests|
  {
    var (p, done) := Pass(cfg, g, now);
    PassWalks(cfg, g, now);
    if !done { RoundKeepsRunners(cfg, p, c, now); }
    PassTracks(cfg, limit, g, c, now);
    if !done {
      RoundTracks(cfg, limit, p, c, now);
      TracksOn(cfg, limit, g, p, TrySchedule(cfg, g, now), c, now);
    }
  }

  /** The round that is part of a handler, for a client that ends it off the running list. */
  lemma RoundOff(cfg: Config, limit: int, g: Gpu, c: ClientId, now: nat)
    requires ValidConfig(cfg) && Listed(g) && (g.lockHeld <==> g.running != []) && IdleAt(cfg, limit, g, c)
    requires c !in TrySchedule(cfg, g, now).running || Stuck(cfg, g, c, now)
    ensures var r := TrySchedule(cfg, g, now); Tracks(cfg, limit, g, r, c, now) && IdleAt(cfg, limit, r, c)
  {
    RoundKeepsRunners(cfg, g, c, now);
    RoundTracks(cfg, limit, g, c, now);
  }

  // ---------------------------------------------------------------- handlers

  lemma ReleaseSpares(cfg: Config, g: Gpu, d: ClientId, c: ClientId, now: nat)
    requires Listed(g) && d in g.clients && c in g.clients && c !in g.running
    ensures var r := Release(cfg, g, d, now);
            SameLimits(g, r) && r.clients[c] == g.clients[c] && c !in r.running && r.windowStart == g.windowStart
  {
    var r := Release(cfg, g, d, now);
    assert r.clients.Keys == g.clients.Keys;
    forall e | e in g.clients ensures r.clients[e].coreLimit == g.clients[e].coreLimit {
      if d in g.running && e == d {
        assert r.clients[e] == Leave(g.clients[e], LeaveFee(cfg, g.clients[e], Concurrency(Accrue(g, now, {d})), now));
      } else {
        assert r.clients[e] == g.clients[e] || r.clients[e] == Settle(g.clients[e], Concurrency(g), now);
      }
    }
  }

  lemma RemoveReqTracks(cfg: Config, limit: int, g: Gpu, d: ClientId, c: ClientId, now: nat)
    requires ValidConfig(cfg) && Inv(cfg, g, now) && d in g.clients && IdleAt(cfg, limit, g, c)
    requires c !in RemoveReq(cfg, g, d, now).running || Stuck(cfg, g, c, now)
    ensures var r := RemoveReq(cfg, g, d, now); Tracks(cfg, limit, g, r, c, now) && IdleAt(cfg, limit, r, c)
  {
    var g1 := Release(cfg, g, d, now);
    ReleaseSpares(cfg, g, d, c, now);
    ReleaseKeepsInv(cfg, g, d, now);
    PlainTracks(cfg, limit, g, g1, c, now);
    if g1.running == [] {
      var g2 := CheckWaitQueue(cfg, g1, now);
      CheckTracks(cfg, limit, g1, c, now);
      TracksOn(cfg, limit, g, g1, g2, c, now);
      CheckWaitQueueKeepsInv(cfg, g1, now);
      if Stuck(cfg, g, c, now) { StaysStuck(cfg, limit, g, g2, c, now); }
      RoundOff(cfg, limit, g2, c, now);
      var g3 := TrySchedule(cfg, g2, now);
      TracksOn(cfg, limit, g, g2, g3, c, now);
      ThenTracks(cfg, limit, g, g3, Forget(g3, d), c, now);
    } else {
      ThenTracks(cfg, limit, g, g1, Forget(g1, d), c, now);
    }
  }

  lemma InsertTracks(cfg: Config, limit: int, g: Gpu, d: ClientId, c: ClientId, now: nat)
    requires ValidConfig(cfg) && Listed(g) && d in g.clients && d !in g.waitQueue && d !in g.running && IdleAt(cfg, limit, g, c)
    ensures var r := InsertReq(g, d);
            && Listed(r) && Tracks(cfg, limit, g, r, c, now) && IdleAt(cfg, limit, r, c)
            && (Stuck(cfg, g, c, now) ==> Stuck(cfg, r, c, now))
  {
    InsertQuiet(g, d);
    PlainTracks(cfg, limit, g, InsertReq(g, d), c, now);
  }

  lemma RequestTracks(cfg: Config, limit: int, g: Gpu, d: ClientId, c: ClientId, now: nat)
    requires ValidConfig(cfg) && Inv(cfg, g, now) && d in g.clients && d !in g.waitQueue && d !in g.running && IdleAt(cfg, limit, g, c)
    requires c !in OnReqLock(cfg, g, d, now).running || Stuck(cfg, g, c, now)
    ensures Tracks(cfg, limit, g, OnReqLock(cfg, g, d, now), c, now)
  {
    var g1 := InsertReq(g, d);
    InsertTracks(cfg, limit, g, d, c, now);
    if !(cfg.mode == Serial && g.lockHeld) {
      assert OnReqLock(cfg, g, d, now) == TrySchedule(cfg, g1, now);
      RoundOff(cfg, limit, g1, c, now);
      TracksOn(cfg, limit, g, g1, TrySchedule(cfg, g1, now), c, now);
    } else {
      assert OnReqLock(cfg, g, d, now) == g1;
    }
  }

  lemma ReleasedTracks(cfg: Config, limit: int, g: Gpu, d: ClientId, c: ClientId, now: nat)
    requires ValidConfig(cfg) && Inv(cfg, g, now) && d in g.clients && IdleAt(cfg, limit, g, c)
    requires c !in OnLockReleased(cfg, g, d, now).running || Stuck(cfg, g, c, now)
    ensures Tracks(cfg, limit, g, OnLockReleased(cfg, g, d, now), c, now)
  {
    var g1 := RemoveReq(cfg, g, d, now);
    RemoveReqKeepsInv(cfg, g, d, now);
    if !g1.lockHeld { RoundKeepsRunners(cfg, g1, c, now); }
    RemoveReqTracks(cfg, limit, g, d, c, now);
    if !g1.lockHeld {
      if Stuck(cfg, g, c, now) { StaysStuck(cfg, limit, g, g1, c, now); }
      RoundOff(cfg, limit, g1, c, now);
      TracksOn(cfg, limit, g, g1, TrySchedule(cfg, g1, now), c, now);
    }
  }

  lemma WindowTracks(cfg: Config, limit: int, g: Gpu, c: ClientId, now: nat)
    requires ValidConfig(cfg) && Inv(cfg, g, now) && IdleAt(cfg, limit, g, c)
    requires c !in TimerWindow(cfg, g, now).running || Stuck(cfg, g, c, now)
    ensures Tracks(cfg, limit, g, TimerWindow(cfg, g, now), c, now)
  {
    var w := ResetWindow(cfg, g, now);
    ResetTracks(cfg, limit, g, c, now);
    ResetKeepsInv(cfg, g, now);
    if WindowDue(cfg, g, now) {
      assert TimerWindow(cfg, g, now) == TrySchedule(cfg, w, now);
      RoundOff(cfg, limit, w, c, now);
      TracksOn(cfg, limit, g, w, TrySchedule(cfg, w, now), c, now);
    } else {
      assert TimerWindow(cfg, g, now) == w;
    }
  }

  lemma WakeTracks(cfg: Config, limit: int, g: Gpu, c: ClientId, fullQuantum: bool, now: nat)
    requires ValidConfig(cfg) && IdleAt(cfg, limit, g, c)
    ensures Tracks(cfg, limit, g, TimerWake(cfg, g, fullQuantum, now), c, now)
  {
    var t := Throttle(cfg, g, now);
    assert t.clients[c] == g.clients[c];
    assert Rotate(t, now).clients[c] == t.clients[c];
  }

  lemma MemoryTracks(cfg: Config, limit: int, g: Gpu, d: ClientId, usage: nat, c: ClientId, now: nat)
    requires ValidConfig(cfg) && d in g.clients && IdleAt(cfg, limit, g, c)
    ensures Tracks(cfg, limit, g, OnMemUpdate(cfg, g, d, usage, now), c, now)
  {}

  /** Without a window reset the quota does not matter. */
  lemma AnyLimit(cfg: Config, limit: int, limit': int, g: Gpu, r: Gpu, c: ClientId, now: nat)
    requires !WindowDue(cfg, g, now) && Tracks(cfg, limit, g, r, c, now)
    ensures Tracks(cfg, limit', g, r, c, now)
  {}

  lemma DisconnectTracks(cfg: Config, limit: int, g: Gpu, d: ClientId, c: ClientId, now: nat)
    requires ValidConfig(cfg) && Inv(cfg, g, now) && d in g.clients && d != c && IdleAt(cfg, limit, g, c)
    requires OnDisconnect(cfg, g, d, now).Gone?
    requires IdleAt(cfg, limit, OnDisconnect(cfg, g, d, now).gpu, c) || Stuck(cfg, g, c, now)
    ensures Tracks(cfg, limit, g, OnDisconnect(cfg, g, d, now).gpu, c, now)
  {
    var a, r := RemoveReq(cfg, g, d, now), OnDisconnect(cfg, g, d, now).gpu;
    var u := Unregister(a, d);
    RemoveReqKeepsInv(cfg, g, d, now);
    UnregisterQuiet(a, d);
    QuietKeepsInv(cfg, a, u, now);
    if !u.lockHeld { RoundKeepsRunners(cfg, u, c, now); }
    RemoveReqTracks(cfg, limit, g, d, c, now);
    if Stuck(cfg, g, c, now) { StaysStuck(cfg, limit, g, a, c, now); }
    AfterUnregister(cfg, limit, a, u, r, d, c, now);
    TracksOn(cfg, limit, g, a, r, c, now);
  }

  /** The rest of a disconnect, from the state without the client on. */
  lemma AfterUnregister(cfg: Config, limit: int, a: Gpu, u: Gpu, r: Gpu, d: ClientId, c: ClientId, now: nat)
    requires ValidConfig(cfg) && Listed(a) && d !in Everyone(a) && d != c && u == Unregister(a, d) && Inv(cfg, u, now)
    requires IdleAt(cfg, limit, a, c) && r == (if u.lockHeld then u else TrySchedule(cfg, u, now))
    requires IdleAt(cfg, limit, r, c) || Stuck(cfg, a, c, now)
    ensures Tracks(cfg, limit, a, r, c, now)
  {
    if !u.lockHeld {
      var limit' := QuotaOf(cfg, u, u.clients[c]);
      RoundOff(cfg, limit', u, c, now);
      if WindowDue(cfg, u, now) {
        RoundKeepsLimits(cfg, u, now);
        QuotaUnaffected(u, r);
      } else {
        AnyLimit(cfg, limit', limit, u, r, c, now);
      }
    }
  }

  lemma {:induction false} RoundKeepsLimits(cfg: Config, g: Gpu, now: nat)
    requires ValidConfig(cfg) && Listed(g)
    ensures SameLimits(g, TrySchedule(cfg, g, now))
    decreases |g.requests| + |g.waitQueue|, |g.requests|
  {
    PassKeepsLimits(cfg, g, now);
    var (r, done) := Pass(cfg, g, now);
    if !done { RoundKeepsLimits(cfg, r, now); }
  }

  lemma GrantKeepsLimits(w: Gpu, now: nat)
    requires Listed(w) && w.requests != []
    ensures SameLimits(w, Grant(w, now))
  {
    var r := Grant(w, now);
    assert r.clients.Keys == w.clients.Keys;
    forall e | e in w.clients ensures r.clients[e].coreLimit == w.clients[e].coreLimit { GrantKeepsLimit(w, e, now); }
  }

  lemma HeadKeepsLimits(cfg: Config, g: Gpu, now: nat)
    requires Listed(g) && g.requests != []
    ensures var w := ResetWindow(cfg, g, now);
            SameLimits(g, if Admissible(cfg, w, w.requests[0]) then Grant(w, now) else MoveToWaitQueue(w))
  {
    var w := ResetWindow(cfg, g, now);
    ResetKeepsLimits(cfg, g, now);
    GrantKeepsLimits(w, now);
    QueueMoves(w, 0, w.requests[0]);
  }

  lemma PassKeepsLimits(cfg: Config, g: Gpu, now: nat)
    requires ValidConfig(cfg) && Listed(g)
    ensures SameLimits(g, Pass(cfg, g, now).0)
  {
    var g0 := if g.requests == [] then CheckWaitQueue(cfg, g, now) else g;
    CheckKeepsLimits(cfg, g, now);
    if g0.requests != [] {
      HeadKeepsLimits(cfg, g0, now);
      var w := ResetWindow(cfg, g0, now);
      assert Pass(cfg, g, now).0 == if Admissible(cfg, w, w.requests[0]) then Grant(w, now) else MoveToWaitQueue(w);
    }
  }

  lemma CheckKeepsLimits(cfg: Config, g: Gpu, now: nat)
    requires Listed(g)
    ensures SameLimits(g, CheckWaitQueue(cfg, g, now))
  {
    if g.waitQueue != [] {
      var w := ResetWindow(cfg, g, now);
      ResetKeepsLimits(cfg, g, now);
      var i := FirstAdmissible(cfg, w, w.waitQueue);
      if i < |w.waitQueue| {
        assert CheckWaitQueue(cfg, g, now) == Promote(w, i);
      } else {
        assert CheckWaitQueue(cfg, g, now) == w;
      }
    }
  }

  // ---------------------------------------------------------------- steps

  /** The step neither changes the core limit of c nor removes it. */
  predicate Leaves(act: Action, c: ClientId) {
    (act.Relimits? ==> act.c != c) && (act.Goes? ==> act.c != c)
  }

  lemma HandleTracks(cfg: Config, limit: int, s: Sys, d: ClientId, c: ClientId, now: nat)
    requires ValidConfig(cfg) && Inv(cfg, s.gpu, now) && Protocol(s.gpu, s.apps) && d in s.apps && s.apps[d].outbox != []
    requires IdleAt(cfg, limit, s.gpu, c)
    requires c !in Handle(cfg, s, d, now).running || Stuck(cfg, s.gpu, c, now)
    ensures Tracks(cfg, limit, s.gpu, Handle(cfg, s, d, now), c, now)
  {
    var g, r := s.gpu, Handle(cfg, s, d, now);
    match s.apps[d].outbox[0]
    case ReqLock =>
      RequestIsFresh(g, s.apps, d);
      assert r == OnReqLock(cfg, g, d, now);
      RequestTracks(cfg, limit, g, d, c, now);
    case LockReleased =>
      assert r == OnLockReleased(cfg, g, d, now);
      ReleasedTracks(cfg, limit, g, d, c, now);
    case MemUpdate(usage) =>
      assert r == OnMemUpdate(cfg, g, d, usage, now);
      MemoryTracks(cfg, limit, g, d, usage, c, now);
  }

  lemma OutsideTracks(cfg: Config, limit: int, s: Sys, step: Step, c: ClientId)
    requires SysInv(cfg, s) && Enabled(cfg, s, step) && Leaves(step.act, c) && IdleAt(cfg, limit, s.gpu, c)
    requires !step.act.Reads? && !step.act.TimerTop? && !step.act.TimerBottom? && !step.act.Goes?
    ensures Tracks(cfg, limit, s.gpu, NextGpu(cfg, s, step), c, step.at)
  {
    var g, r := s.gpu, NextGpu(cfg, s, step);
    if step.act.AppReceives? {
      assert r == Pop(g, step.act.c);
    } else if step.act.Joins? {
      assert r == Register(g, step.act.c, step.act.coreLimit);
    } else if step.act.Relimits? {
      assert r == SetCoreLimit(g, step.act.c, step.act.coreLimit);
    } else {
      assert r == g;
    }
    RecordsTrack(cfg, limit, g, r, c, step.at);
  }

  /** Steps that leave the window and the usage of c alone. */
  lemma RecordsTrack(cfg: Config, limit: int, g: Gpu, r: Gpu, c: ClientId, now: nat)
    requires ValidConfig(cfg) && c in g.clients && c in r.clients && c !in r.running
    requires r.windowStart == g.windowStart && SameUsage(g.clients[c], r.clients[c])
    ensures Tracks(cfg, limit, g, r, c, now)
  {}

  /** Over one step, c goes through a window boundary or keeps its usage, as long as it stays
      off the running list at the same quota, or is stuck. */
  lemma StepTracks(cfg: Config, limit: int, s: Sys, step: Step, c: ClientId)
    requires SysInv(cfg, s) && Enabled(cfg, s, step) && Leaves(step.act, c) && IdleAt(cfg, limit, s.gpu, c)
    requires IdleAt(cfg, limit, NextGpu(cfg, s, step), c) || Stuck(cfg, s.gpu, c, step.at)
    ensures Tracks(cfg, limit, s.gpu, NextGpu(cfg, s, step), c, step.at)
  {
    var g, r, now := s.gpu, NextGpu(cfg, s, step), step.at;
    TimePasses(cfg, g, s.clock, now);
    if step.act.Reads? {
      assert r == Handle(cfg, s, step.act.c, now);
      HandleTracks(cfg, limit, s, step.act.c, c, now);
    } else if step.act.TimerTop? {
      assert r == TimerWindow(cfg, g, now);
      WindowTracks(cfg, limit, g, c, now);
    } else if step.act.TimerBottom? {
      assert r == TimerWake(cfg, g, step.act.fullQuantum, now);
      WakeTracks(cfg, limit, g, c, step.act.fullQuantum, now);
    } else if step.act.Goes? {
      assert r == OnDisconnect(cfg, g, step.act.c, now).gpu;
      DisconnectTracks(cfg, limit, g, step.act.c, c, now);
    } else {
      OutsideTracks(cfg, limit, s, step, c);
    }
  }

  // ---------------------------------------------------------------- runs up to the next reset

  /** The run neither changes the core limit of c nor removes it, and meets no window that is
      due for a reset. */
  ghost predicate WithinWindow(cfg: Config, s: Sys, steps: seq<Step>, c: ClientId)
    requires SysInv(cfg, s) && IsRun(cfg, s, steps)
    decreases |steps|
  {
    steps != [] ==>
      && Leaves(steps[0].act, c) && !WindowDue(cfg, s.gpu, steps[0].at)
      && (NextKeepsSysInv(cfg, s, steps[0]); WithinWindow(cfg, Next(cfg, s, steps[0]), steps[1..], c))
  }

  /** A throttled client that does not run stays throttled and off the running list until the
      next window reset, whatever happens in between. */
  lemma {:induction false} ThrottledWaitsForReset(cfg: Config, s: Sys, steps: seq<Step>, c: ClientId)
    requires SysInv(cfg, s) && IsRun(cfg, s, steps) && WithinWindow(cfg, s, steps, c)
    requires c in s.gpu.clients && c !in s.gpu.running && IsLimited(s.gpu.clients[c]) && s.gpu.clients[c].throttled
    ensures var g := Run(cfg, s, steps).gpu; c in g.clients && c !in g.running && g.clients[c].throttled
    decreases |steps|
  {
    if steps != [] {
      NextKeepsSysInv(cfg, s, steps[0]);
      StepTracks(cfg, QuotaOf(cfg, s.gpu, s.gpu.clients[c]), s, steps[0], c);
      ThrottledWaitsForReset(cfg, Next(cfg, s, steps[0]), steps[1..], c);
    }
  }

  // ---------------------------------------------------------------- runs over many windows

  /** Client c does not run during the run, its quota stays `limit`, and it is neither
      relimited nor removed. */
  ghost predicate IdleRun(cfg: Config, s: Sys, steps: seq<Step>, c: ClientId, limit: int)
    requires SysInv(cfg, s) && IsRun(cfg, s, steps)
    decreases |steps|
  {
    && IdleAt(cfg, limit, s.gpu, c)
    && (steps != [] ==>
          && Leaves(steps[0].act, c)
          && (NextKeepsSysInv(cfg, s, steps[0]); IdleRun(cfg, Next(cfg, s, steps[0]), steps[1..], c, limit)))
  }

  /** The number of window resets in a run. */
  ghost function Resets(cfg: Config, s: Sys, steps: seq<Step>): nat
    requires SysInv(cfg, s) && IsRun(cfg, s, steps)
    decreases |steps|
  {
    if steps == [] then 0 else
      NextKeepsSysInv(cfg, s, steps[0]);
      var s' := Next(cfg, s, steps[0]);
      (if WindowDue(cfg, s.gpu, s'.clock) && s'.gpu.windowStart == s'.clock then 1 else 0) + Resets(cfg, s', steps[1..])
  }

  /** Over a run in which it does not run, a client goes through one window boundary for each
      window reset and through nothing else. */
  lemma {:induction false} IdleUsage(cfg: Config, s: Sys, steps: seq<Step>, c: ClientId, limit: int)
    requires SysInv(cfg, s) && IsRun(cfg, s, steps) && IdleRun(cfg, s, steps, c, limit)
    ensures IdleAt(cfg, limit, Run(cfg, s, steps).gpu, c)
    ensures SameUsage(AfterWindows(cfg, limit, s.gpu.clients[c], Resets(cfg, s, steps)), Run(cfg, s, steps).gpu.clients[c])
    decreases |steps|
  {
    if steps != [] {
      NextKeepsSysInv(cfg, s, steps[0]);
      var s', rest := Next(cfg, s, steps[0]), steps[1..];
      assert IdleRun(cfg, s', rest, c, limit);
      var n, n' := Resets(cfg, s, steps), Resets(cfg, s', rest);
      assert n == n' + if WindowDue(cfg, s.gpu, s'.clock) && s'.gpu.windowStart == s'.clock then 1 else 0;
      IdleStep(cfg, s, steps[0], s', c, limit, n', n);
      IdleUsage(cfg, s', rest, c, limit);
      assert Run(cfg, s, steps) == Run(cfg, s', rest);
    }
  }

  lemma IdleStep(cfg: Config, s: Sys, step: Step, s': Sys, c: ClientId, limit: int, n: nat, more: nat)
    requires SysInv(cfg, s) && Enabled(cfg, s, step) && Leaves(step.act, c) && s' == Next(cfg, s, step)
    requires IdleAt(cfg, limit, s.gpu, c) && IdleAt(cfg, limit, s'.gpu, c)
    requires more == n + if WindowDue(cfg, s.gpu, s'.clock) && s'.gpu.windowStart == s'.clock then 1 else 0
    ensures SameUsage(AfterWindows(cfg, limit, s.gpu.clients[c], more), AfterWindows(cfg, limit, s'.gpu.clients[c], n))
  {
    StepTracks(cfg, limit, s, step, c);
    OneMoreWindow(cfg, limit, s.gpu, s'.gpu, c, s'.clock, n);
  }

  lemma OneMoreWindow(cfg: Config, limit: int, g: Gpu, r: Gpu, c: ClientId, now: nat, n: nat)
    requires Tracks(cfg, limit, g, r, c, now)
    ensures var more := n + if WindowDue(cfg, g, now) && r.windowStart == now then 1 else 0;
            SameUsage(AfterWindows(cfg, limit, g.clients[c], more), AfterWindows(cfg, limit, r.clients[c], n))
  {
    var k, k' := g.clients[c], r.clients[c];
    if WindowDue(cfg, g, now) && r.windowStart == now {
      AfterWindowsSame(cfg, limit, CloseWindow(cfg, limit, k), k', n);
    } else {
      AfterWindowsSame(cfg, limit, k, k', n);
    }
  }

  /** Recovery: at any carryover, a client that does not run passes the quota check once the
      window was reset as often as its usage holds whole quotas, and once at least. */
  lemma IdleClientRecovers(cfg: Config, s: Sys, steps: seq<Step>, c: ClientId, limit: int)
    requires SysInv(cfg, s) && IsRun(cfg, s, steps) && IdleRun(cfg, s, steps, c, limit) && 1 <= limit
    requires Resets(cfg, s, steps) >= Max(1, s.gpu.clients[c].runTime / limit)
    ensures var g := Run(cfg, s, steps).gpu; c in g.clients && QuotaOk(cfg, g, g.clients[c])
  {
    IdleUsage(cfg, s, steps, c, limit);
    RecordRecovers(cfg, limit, s.gpu.clients[c], Resets(cfg, s, steps));
  }

  lemma RecordRecovers(cfg: Config, limit: int, k: Client, n: nat)
    requires ValidConfig(cfg) && 1 <= limit && n >= Max(1, k.runTime / limit)
    ensures var r := AfterWindows(cfg, limit, k, n); IsLimited(r) ==> !r.throttled && r.runTime < limit
  {
    if IsLimited(k) {
      DebtShrinks(cfg, limit, k, n);
      WholeQuotas(k.runTime, limit, n);
    } else {
      UnlimitedStays(cfg, limit, k, n);
    }
  }

  lemma {:induction false} UnlimitedStays(cfg: Config, limit: int, k: Client, n: nat)
    requires !IsLimited(k)
    ensures !IsLimited(AfterWindows(cfg, limit, k, n))
    decreases n
  {
    if n > 0 { UnlimitedStays(cfg, limit, CloseWindow(cfg, limit, k), n - 1); }
  }

  /** At full carryover that is exact: it passes the check if and only if there were that many
      resets, and one if it was throttled. */
  lemma RecoveryIsExact(cfg: Config, s: Sys, steps: seq<Step>, c: ClientId, limit: int)
    requires SysInv(cfg, s) && IsRun(cfg, s, steps) && IdleRun(cfg, s, steps, c, limit) && 1 <= limit
    requires cfg.carryPercent == 100 && IsLimited(s.gpu.clients[c]) && 0 <= s.gpu.clients[c].runTime
    ensures var g, n := Run(cfg, s, steps).gpu, Resets(cfg, s, steps);
            && c in g.clients
            && (QuotaOk(cfg, g, g.clients[c])
                <==> n >= s.gpu.clients[c].runTime / limit && (s.gpu.clients[c].throttled ==> n >= 1))
  {
    var k, n := s.gpu.clients[c], Resets(cfg, s, steps);
    IdleUsage(cfg, s, steps, c, limit);
    DebtShrinks(cfg, limit, k, n);
    WholeQuotas(k.runTime, limit, n);
  }
}
