/** Why a client waits, and what it is told about it. */
module Waiting {
  import opened Lists
  import opened Arith
  import opened GpuModel
  import opened Sums
  import opened GpuInvariants
  import opened Scheduling
  import opened Admission

  // ---------------------------------------------------------------- who may run

  /** What the reserve leaves of the GPU's memory holds this much. */
  predicate Holds(cfg: Config, g: Gpu, memory: int) {
    100 * memory <= g.totalMemory * (100 - cfg.reservePercent)
  }

  lemma HoldsIs(cfg: Config, g: Gpu, memory: int)
    ensures memory <= SafeLimit(cfg, g) <==> Holds(cfg, g, memory)
  {
    DivBounds(g.totalMemory * (100 - cfg.reservePercent), 100);
  }

  /** In a fresh window a registered client may run exactly if it has no limit, or is not
      throttled and has quota left; and, where clients run one by one, nobody runs, or else
      the runners use no memory or leave room for the client's. */
  lemma AdmissibleExactly(cfg: Config, g: Gpu, c: ClientId)
    requires Ledger(g) && c in g.clients
    ensures var k, used := g.clients[c], Weigh(g.running, g.clients, Memory);
            Admissible(cfg, g, c)
            <==> && (k.coreLimit >= 100 || (!k.throttled && k.runTime < QuotaOf(cfg, g, k)))
                 && (if cfg.mode == Serial || g.overloaded then g.running == []
                     else used == 0 || Holds(cfg, g, used + k.memory))
  {
    HoldsIs(cfg, g, g.runningMemory + g.clients[c].memory);
  }

  /** Memory is why the client may not run: after overload somebody runs, and before it the
      runners use memory and leave too little for the client's. */
  predicate ShortOfMemory(cfg: Config, w: Gpu, c: ClientId)
    requires c in w.clients
  {
    if w.overloaded then w.running != []
    else var used := Weigh(w.running, w.clients, Memory);
         used > 0 && !Holds(cfg, w, used + w.clients[c].memory)
  }

  lemma WhyWaiting(cfg: Config, w: Gpu, c: ClientId)
    requires Ledger(w) && cfg.mode != Serial && c in w.clients && !Admissible(cfg, w, c)
    ensures Fit(cfg, w, c) ==> ShortOfMemory(cfg, w, c)
  {
    AdmissibleExactly(cfg, w, c);
    WeighBounds(w.running, w.clients);
  }

  /** Outside serial mode, whoever waits after a round and passes the quota check waits for
      memory. */
  lemma WaitsForMemory(cfg: Config, g: Gpu, now: nat, c: ClientId)
    requires ValidConfig(cfg) && Inv(cfg, g, now) && cfg.mode != Serial
    requires c in TrySchedule(cfg, g, now).waitQueue
    ensures var w := ResetWindow(cfg, TrySchedule(cfg, g, now), now);
            c in w.clients && (Fit(cfg, w, c) ==> ShortOfMemory(cfg, w, c))
  {
    var r := TrySchedule(cfg, g, now);
    TryScheduleQuiesces(cfg, g, now);
    TryScheduleKeepsInv(cfg, g, now);
    QuietWaits(cfg, r, now, c);
  }

  lemma QuietWaits(cfg: Config, r: Gpu, now: nat, c: ClientId)
    requires ValidConfig(cfg) && Inv(cfg, r, now) && cfg.mode != Serial && Quiescent(cfg, r, now) && c in r.waitQueue
    ensures var w := ResetWindow(cfg, r, now);
            c in w.clients && (Fit(cfg, w, c) ==> ShortOfMemory(cfg, w, c))
  {
    ResetKeepsInv(cfg, r, now);
    WhyWaiting(cfg, ResetWindow(cfg, r, now), c);
  }

  // ---------------------------------------------------------------- what a round tells

  /** What a round from g, whose window is fresh in w, tells client c if it ends in r: a grant,
      with word that memory is available if the client was waiting; or to wait for memory,
      unless it waits because it is throttled. */
  function Notices(g: Gpu, w: Gpu, r: Gpu, c: ClientId): seq<Message>
    requires c in g.clients && c in w.clients
  {
    var n := g.clients[c].grants;
    if c in g.requests then
      if c in r.running then [Message(LockOk, n + 1)]
      else if c in r.requests || (w.clients[c].coreLimit < 100 && w.clients[c].throttled) then []
      else [Message(WaitForMem, n)]
    else if c in g.waitQueue && c in r.running then [Message(MemAvailable, n), Message(LockOk, n + 1)]
    else []
  }

  predicate SameFlags(grants: nat, k: Client, k': Client) {
    k'.grants == grants && k'.coreLimit == k.coreLimit && k'.throttled == k.throttled
  }

  /** Between g and r client c was told that; it kept its record but for the grant, and if it
      still stands in line, its flags. */
  ghost predicate Noticed(g: Gpu, w: Gpu, r: Gpu, c: ClientId) {
    && c in g.clients && c in w.clients && c in r.clients
    && r.clients[c].socket == g.clients[c].socket + Notices(g, w, r, c)
    && (c !in r.running ==> SameFlags(g.clients[c].grants, w.clients[c], r.clients[c]))
    && (c in g.waitQueue ==> c !in r.requests)
    && (c in r.requests ==> c in g.requests)
    && (c in r.waitQueue ==> c in g.requests || c in g.waitQueue)
    && (c in g.running ==> c in r.running)
    && (c in r.running ==> c in g.running || c in g.requests || c in g.waitQueue)
  }

  lemma ResetNotices(cfg: Config, g: Gpu, now: nat, c: ClientId)
    requires c in g.clients
    ensures var w := ResetWindow(cfg, g, now);
            w.clients[c].socket == g.clients[c].socket && w.clients[c].grants == g.clients[c].grants
  {
    if WindowDue(cfg, g, now) {
      var a := Accrue(g.(windowStart := now), now, {});
      assert ResetWindow(cfg, g, now).clients[c] == CloseWindow(cfg, QuotaOf(cfg, a, a.clients[c]), a.clients[c]);
    }
  }

  lemma GrantNotices(w: Gpu, now: nat, c: ClientId)
    requires Listed(w) && w.requests != [] && c in w.clients
    ensures Noticed(w, w, Grant(w, now), c)
  {
    var r, head := Grant(w, now), w.requests[0];
    assert w.requests == [head] + w.requests[1..];
    if c == head {
      GrantedHead(w, now);
    } else {
      GrantedOther(w, now, c);
    }
  }

  lemma GrantedHead(w: Gpu, now: nat)
    requires Listed(w) && w.requests != []
    ensures var c, r := w.requests[0], Grant(w, now);
            && c in r.clients && c in r.running
            && r.clients[c].socket == w.clients[c].socket + [Message(LockOk, w.clients[c].grants + 1)]
  {
    var c := w.requests[0];
    assert c !in w.running;
    assert Grant(w, now).clients[c] == Start(w.clients[c], now);
  }

  lemma GrantedOther(w: Gpu, now: nat, c: ClientId)
    requires Listed(w) && w.requests != [] && c in w.clients && c != w.requests[0]
    ensures var r := Grant(w, now);
            && c in r.clients && (c in r.running <==> c in w.running)
            && (c in r.requests <==> c in w.requests) && r.waitQueue == w.waitQueue
            && r.clients[c].socket == w.clients[c].socket && r.clients[c].grants == w.clients[c].grants
            && r.clients[c].coreLimit == w.clients[c].coreLimit && r.clients[c].throttled == w.clients[c].throttled
  {
    assert w.requests == [w.requests[0]] + w.requests[1..];
    var r := Grant(w, now);
    assert r.clients[c] == w.clients[c] || r.clients[c] == Settle(w.clients[c], Concurrency(w), now);
  }

  lemma MoveNotices(w: Gpu, c: ClientId)
    requires Listed(w) && w.requests != [] && c in w.clients
    ensures Noticed(w, w, MoveToWaitQueue(w), c)
  {
    assert w.requests == [w.requests[0]] + w.requests[1..];
  }

  /** A waiting client that is promoted is granted the lock in the same pass. */
  lemma PromoteNotices(w: Gpu, i: nat, now: nat, c: ClientId)
    requires Listed(w) && w.requests == [] && i < |w.waitQueue| && c in w.clients
    ensures Noticed(w, w, Grant(Promote(w, i), now), c)
  {
    var r := Grant(Promote(w, i), now);
    PromotedLists(w, i, now);
    if c == w.waitQueue[i] {
      PromotedHead(w, i, now);
      ToldOf(w, r, c);
    } else {
      PromotedOther(w, i, now, c);
      SparedOf(w, r, c);
    }
  }

  lemma ToldOf(w: Gpu, r: Gpu, c: ClientId)
    requires Listed(w) && c in w.waitQueue && c in r.clients && c in r.running && r.requests == []
    requires r.clients[c].socket == w.clients[c].socket
                 + [Message(MemAvailable, w.clients[c].grants), Message(LockOk, w.clients[c].grants + 1)]
    ensures Noticed(w, w, r, c)
  {}

  lemma SparedOf(w: Gpu, r: Gpu, c: ClientId)
    requires Listed(w) && c in w.clients && c in r.clients && w.requests == [] && r.requests == []
    requires (c in r.running <==> c in w.running) && (c in r.waitQueue <==> c in w.waitQueue)
    requires r.clients[c].socket == w.clients[c].socket && SameFlags(w.clients[c].grants, w.clients[c], r.clients[c])
    ensures Noticed(w, w, r, c)
  {}

  lemma PromotedOther(w: Gpu, i: nat, now: nat, c: ClientId)
    requires Listed(w) && i < |w.waitQueue| && c in w.clients && c != w.waitQueue[i]
    ensures var r := Grant(Promote(w, i), now);
            && c in r.clients && r.clients[c].socket == w.clients[c].socket
            && SameFlags(w.clients[c].grants, w.clients[c], r.clients[c])
  {
    GrantedOther(Promote(w, i), now, c);
    assert Promote(w, i).clients[c] == w.clients[c];
  }

  lemma PromotedHead(w: Gpu, i: nat, now: nat)
    requires Listed(w) && w.requests == [] && i < |w.waitQueue|
    ensures var c, r := w.waitQueue[i], Grant(Promote(w, i), now);
            && c in r.clients
            && r.clients[c].socket == w.clients[c].socket
                 + [Message(MemAvailable, w.clients[c].grants), Message(LockOk, w.clients[c].grants + 1)]
  {
    GrantedHead(Promote(w, i), now);
  }

  lemma PromotedLists(w: Gpu, i: nat, now: nat)
    requires Listed(w) && w.requests == [] && i < |w.waitQueue|
    ensures var r := Grant(Promote(w, i), now);
            && r.requests == [] && r.running == w.running + [w.waitQueue[i]]
            && forall c :: c in w.waitQueue <==> c in r.waitQueue || c == w.waitQueue[i]
  {
    var q := w.waitQueue;
    assert q == q[..i] + [q[i]] + q[i + 1..];
  }

  /** From the fresh window on is the same as from the start. */
  lemma FromReset(cfg: Config, g: Gpu, r: Gpu, now: nat, c: ClientId)
    requires c in g.clients && Noticed(ResetWindow(cfg, g, now), ResetWindow(cfg, g, now), r, c)
    ensures Noticed(g, ResetWindow(cfg, g, now), r, c)
  {
    ResetNotices(cfg, g, now, c);
  }

  lemma PassNotices(cfg: Config, g: Gpu, now: nat, c: ClientId)
    requires ValidConfig(cfg) && Listed(g) && c in g.clients && !(g.requests == [] && g.waitQueue == [])
    ensures Noticed(g, ResetWindow(cfg, g, now), Pass(cfg, g, now).0, c)
  {
    var w := ResetWindow(cfg, g, now);
    if g.requests != [] {
      GrantNotices(w, now, c);
      MoveNotices(w, c);
      FromReset(cfg, g, Pass(cfg, g, now).0, now, c);
    } else {
      var i := FirstAdmissible(cfg, w, w.waitQueue);
      if i < |w.waitQueue| {
        PromotedIsAdmissible(cfg, g, now);
        PromoteNotices(w, i, now, c);
        assert Pass(cfg, g, now).0 == Grant(Promote(w, i), now);
      }
      FromReset(cfg, g, Pass(cfg, g, now).0, now, c);
    }
  }

  /** Whom the walk rejects at the start it does not take later. */
  lemma {:induction false} GreedyRejects(cfg: Config, g: Gpu, line: seq<ClientId>, running: seq<ClientId>, memory: nat, c: ClientId)
    requires !Takes(cfg, g, running, memory, c) && c !in running
    ensures c !in Greedy(cfg, g, line, running, memory)
  {
    if line != [] {
      if Takes(cfg, g, running, memory, line[0]) {
        var running', memory' := running + [line[0]], memory + g.clients[line[0]].memory;
        StillRejected(cfg, g, running, memory, running', memory', c);
        GreedyRejects(cfg, g, line[1..], running', memory', c);
      } else {
        GreedyRejects(cfg, g, line[1..], running, memory, c);
      }
    }
  }

  /** A client that a pass moves to the wait queue stays there for the rest of the round. */
  lemma MovedStays(cfg: Config, g: Gpu, now: nat, c: ClientId)
    requires ValidConfig(cfg) && Listed(g) && (g.lockHeld <==> g.running != [])
    requires c in g.requests && c in Pass(cfg, g, now).0.waitQueue
    ensures c !in TrySchedule(cfg, Pass(cfg, g, now).0, now).running
  {
    var w := ResetWindow(cfg, g, now);
    var r := Pass(cfg, g, now).0;
    ResetWindowIdempotent(cfg, g, now);
    PassWalks(cfg, g, now);
    assert !Admissible(cfg, w, w.requests[0]) && r == MoveToWaitQueue(w);
    assert c !in w.waitQueue && c == w.requests[0];
    AdmissibleTakes(cfg, w, c);
    MoveSame(cfg, w, [c]);
    assert [c][0] == c && c in [c];
    RoundIsGreedy(cfg, r, now);
    GreedyRejects(cfg, r, r.requests + r.waitQueue, r.running, r.runningMemory, c);
  }

  lemma NoticesThen(g: Gpu, w: Gpu, r: Gpu, e: Gpu, c: ClientId)
    requires Listed(g) && Listed(r) && Listed(e) && Noticed(g, w, r, c) && Noticed(r, r, e, c)
    requires c in g.requests && c in r.waitQueue ==> c !in e.running
    ensures Noticed(g, w, e, c)
  {}

  /** Exactly what a scheduling round, in every mode and from every state, tells each client. */
  lemma {:induction false} RoundNotices(cfg: Config, g: Gpu, now: nat, c: ClientId)
    requires ValidConfig(cfg) && Listed(g) && (g.lockHeld <==> g.running != []) && c in g.clients
    requires !(g.requests == [] && g.waitQueue == [])
    ensures Noticed(g, ResetWindow(cfg, g, now), TrySchedule(cfg, g, now), c)
    decreases |g.requests| + |g.waitQueue|, |g.requests|
  {
    PassNotices(cfg, g, now, c);
    var (r, done) := Pass(cfg, g, now);
    if !done {
      PassWalks(cfg, g, now);
      var e := TrySchedule(cfg, r, now);
      if r.requests == [] && r.waitQueue == [] {
        assert e == r;
        NothingNoticed(r, c);
      } else {
        RoundNotices(cfg, r, now, c);
      }
      if c in g.requests && c in r.waitQueue { MovedStays(cfg, g, now, c); }
      NoticesThen(g, ResetWindow(cfg, g, now), r, e, c);
    }
  }

  lemma NothingNoticed(r: Gpu, c: ClientId)
    requires c in r.clients && r.requests == [] && r.waitQueue == []
    ensures Noticed(r, r, r, c)
  {}
}
