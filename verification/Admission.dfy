/** Who joins in a scheduling round: the loop of moves, promotions and grants admits exactly
    the clients that one greedy walk along the queues takes. */
module Admission {
  import opened Lists
  import opened GpuModel
  import opened Scheduling

  /** The client passes the quota check. */
  predicate Fit(cfg: Config, g: Gpu, c: ClientId) {
    c in g.clients && QuotaOk(cfg, g, g.clients[c])
  }

  /** The client would be admitted next to these runners, which use this memory. */
  predicate Takes(cfg: Config, g: Gpu, running: seq<ClientId>, memory: nat, c: ClientId) {
    Fit(cfg, g, c) && MemoryOk(cfg, g.(lockHeld := running != [], runningMemory := memory), g.clients[c])
  }

  /** The runners after a walk along a line that admits whoever may run. */
  function Greedy(cfg: Config, g: Gpu, line: seq<ClientId>, running: seq<ClientId>, memory: nat): seq<ClientId> {
    if line == [] then running
    else if Takes(cfg, g, running, memory, line[0])
    then Greedy(cfg, g, line[1..], running + [line[0]], memory + g.clients[line[0]].memory)
    else Greedy(cfg, g, line[1..], running, memory)
  }

  /** Who may not join now may not join later. */
  lemma StillRejected(cfg: Config, g: Gpu, running: seq<ClientId>, memory: nat, more: seq<ClientId>, more': nat, c: ClientId)
    requires !Takes(cfg, g, running, memory, c) && running <= more && memory <= more'
    ensures !Takes(cfg, g, more, more', c)
  {}

  lemma {:induction false} RejectedBehind(cfg: Config, g: Gpu, line: seq<ClientId>, c: ClientId, running: seq<ClientId>, memory: nat)
    requires !Takes(cfg, g, running, memory, c)
    ensures Greedy(cfg, g, line + [c], running, memory) == Greedy(cfg, g, line, running, memory)
  {
    if line == [] {
      assert (line + [c])[1..] == [];
    } else {
      assert (line + [c])[1..] == line[1..] + [c];
      if Takes(cfg, g, running, memory, line[0]) {
        var running', memory' := running + [line[0]], memory + g.clients[line[0]].memory;
        StillRejected(cfg, g, running, memory, running', memory', c);
        RejectedBehind(cfg, g, line[1..], c, running', memory');
      } else {
        RejectedBehind(cfg, g, line[1..], c, running, memory);
      }
    }
  }

  lemma {:induction false} RejectedInFront(cfg: Config, g: Gpu, front: seq<ClientId>, line: seq<ClientId>,
                                           running: seq<ClientId>, memory: nat)
    requires forall c :: c in front ==> !Takes(cfg, g, running, memory, c)
    ensures Greedy(cfg, g, front + line, running, memory) == Greedy(cfg, g, line, running, memory)
  {
    if front == [] {
      assert front + line == line;
    } else {
      assert front[0] in front;
      assert (front + line)[1..] == front[1..] + line;
      RejectedInFront(cfg, g, front[1..], line, running, memory);
    }
  }

  /** The walk depends on the quotas, the memory and the fitness of those in line only. */
  ghost predicate SameForLine(cfg: Config, g: Gpu, g': Gpu, line: seq<ClientId>) {
    && g'.overloaded == g.overloaded && g'.totalMemory == g.totalMemory
    && forall c :: c in line ==>
         && (Fit(cfg, g', c) <==> Fit(cfg, g, c))
         && (c in g'.clients <==> c in g.clients)
         && (c in g.clients ==> g'.clients[c].memory == g.clients[c].memory)
  }

  lemma {:induction false} GreedyFrame(cfg: Config, g: Gpu, g': Gpu, line: seq<ClientId>, running: seq<ClientId>, memory: nat)
    requires SameForLine(cfg, g, g', line)
    ensures Greedy(cfg, g', line, running, memory) == Greedy(cfg, g, line, running, memory)
  {
    if line != [] {
      var c := line[0];
      assert c in line;
      assert Takes(cfg, g', running, memory, c) == Takes(cfg, g, running, memory, c);
      GreedyFrame(cfg, g, g', line[1..], running, memory);
      if Takes(cfg, g, running, memory, c) {
        GreedyFrame(cfg, g, g', line[1..], running + [c], memory + g.clients[c].memory);
      }
    }
  }

  /** Runners stay, and only fit clients in line join them. */
  lemma {:induction false} GreedyGrows(cfg: Config, g: Gpu, line: seq<ClientId>, running: seq<ClientId>, memory: nat)
    ensures running <= Greedy(cfg, g, line, running, memory)
    ensures forall c :: c in Greedy(cfg, g, line, running, memory) ==> c in running || (c in line && Fit(cfg, g, c))
  {
    if line != [] {
      GreedyGrows(cfg, g, line[1..], running, memory);
      if Takes(cfg, g, running, memory, line[0]) {
        GreedyGrows(cfg, g, line[1..], running + [line[0]], memory + g.clients[line[0]].memory);
      }
    }
  }

  /** When clients run one by one, a runner keeps everyone else out. */
  lemma {:induction false} RunnerKeepsOut(cfg: Config, g: Gpu, line: seq<ClientId>, running: seq<ClientId>, memory: nat)
    requires (cfg.mode == Serial || g.overloaded) && running != []
    ensures Greedy(cfg, g, line, running, memory) == running
  {
    if line != [] { RunnerKeepsOut(cfg, g, line[1..], running, memory); }
  }

  // ---------------------------------------------------------------- the steps of a round

  lemma AdmissibleTakes(cfg: Config, g: Gpu, c: ClientId)
    requires g.lockHeld <==> g.running != []
    ensures Admissible(cfg, g, c) <==> Takes(cfg, g, g.running, g.runningMemory, c)
  {
    assert g.(lockHeld := g.running != [], runningMemory := g.runningMemory) == g;
  }

  lemma ResetIsDone(cfg: Config, w: Gpu, r: Gpu, now: nat)
    requires ValidConfig(cfg) && ResetWindow(cfg, w, now) == w && r.windowStart == w.windowStart
    ensures ResetWindow(cfg, r, now) == r
  {}

  lemma GrantSame(cfg: Config, w: Gpu, now: nat, line: seq<ClientId>)
    requires Listed(w) && w.requests != []
    requires forall c :: c in line ==> c in w.clients && c !in w.running && c != w.requests[0]
    ensures SameForLine(cfg, w, Grant(w, now), line)
  {
    var r := Grant(w, now);
    assert r.clients.Keys == w.clients.Keys;
    forall d | d in w.clients ensures r.clients[d].coreLimit == w.clients[d].coreLimit {
      GrantKeepsLimit(w, d, now);
    }
    QuotaUnaffected(w, r);
    forall c | c in line ensures r.clients[c] == w.clients[c] {
      GrantSparesOthers(w, c, now);
    }
  }

  lemma MoveSame(cfg: Config, w: Gpu, line: seq<ClientId>)
    requires Listed(w) && w.requests != []
    ensures SameForLine(cfg, w, MoveToWaitQueue(w), line)
  {
    QuotaUnaffected(w, MoveToWaitQueue(w));
  }

  lemma PromoteSame(cfg: Config, w: Gpu, i: nat, line: seq<ClientId>)
    requires Listed(w) && i < |w.waitQueue|
    ensures SameForLine(cfg, w, Promote(w, i), line)
  {
    QuotaUnaffected(w, Promote(w, i));
  }

  /** The walk that a round starting in g amounts to. */
  function Walk(cfg: Config, w: Gpu): seq<ClientId> {
    Greedy(cfg, w, w.requests + w.waitQueue, w.running, w.runningMemory)
  }

  lemma ConcatTail(a: seq<ClientId>, b: seq<ClientId>)
    requires a != []
    ensures (a + b)[0] == a[0] && (a + b)[1..] == a[1..] + b
  {}

  lemma OthersInLine(w: Gpu)
    requires Listed(w) && w.requests != []
    ensures forall c :: c in w.requests[1..] + w.waitQueue ==> c in w.clients && c !in w.running && c != w.requests[0]
  {
    assert w.requests == [w.requests[0]] + w.requests[1..];
  }

  lemma GrantWalks(cfg: Config, w: Gpu, now: nat)
    requires Listed(w) && (w.lockHeld <==> w.running != []) && w.requests != [] && Admissible(cfg, w, w.requests[0])
    ensures Walk(cfg, Grant(w, now)) == Walk(cfg, w)
    ensures cfg.mode == Serial ==> Walk(cfg, w) == Grant(w, now).running
  {
    var r, line := Grant(w, now), w.requests + w.waitQueue;
    AdmissibleTakes(cfg, w, w.requests[0]);
    var rest := w.requests[1..] + w.waitQueue;
    ConcatTail(w.requests, w.waitQueue);
    assert r.requests + r.waitQueue == rest;
    OthersInLine(w);
    GrantSame(cfg, w, now, rest);
    GreedyFrame(cfg, w, r, rest, r.running, r.runningMemory);
    if cfg.mode == Serial { RunnerKeepsOut(cfg, w, rest, r.running, r.runningMemory); }
  }

  lemma MoveWalks(cfg: Config, w: Gpu)
    requires Listed(w) && (w.lockHeld <==> w.running != []) && w.requests != [] && !Admissible(cfg, w, w.requests[0])
    ensures Walk(cfg, MoveToWaitQueue(w)) == Walk(cfg, w)
  {
    var r, c := MoveToWaitQueue(w), w.requests[0];
    AdmissibleTakes(cfg, w, c);
    var rest := w.requests[1..] + w.waitQueue;
    assert w.requests + w.waitQueue == [c] + rest;
    RejectedInFront(cfg, w, [c], rest, w.running, w.runningMemory);
    assert r.requests + r.waitQueue == rest + [c];
    RejectedBehind(cfg, w, rest, c, w.running, w.runningMemory);
    MoveSame(cfg, w, rest + [c]);
    GreedyFrame(cfg, w, r, rest + [c], w.running, w.runningMemory);
  }

  /** A promotion with nothing requested moves the walk past those who may not run. */
  lemma PromoteWalks(cfg: Config, w: Gpu)
    requires Listed(w) && (w.lockHeld <==> w.running != []) && w.requests == []
    ensures var i := FirstAdmissible(cfg, w, w.waitQueue);
            if i < |w.waitQueue| then Walk(cfg, Promote(w, i)) == Walk(cfg, w) else Walk(cfg, w) == w.running
  {
    var q := w.waitQueue;
    var i := FirstAdmissible(cfg, w, q);
    forall c | c in q[..i] ensures !Takes(cfg, w, w.running, w.runningMemory, c) {
      AdmissibleTakes(cfg, w, c);
    }
    assert w.requests + q == q[..i] + q[i..];
    RejectedInFront(cfg, w, q[..i], q[i..], w.running, w.runningMemory);
    if i < |q| {
      PromotedWalk(cfg, w, i);
    }
  }

  lemma PromotedWalk(cfg: Config, w: Gpu, i: nat)
    requires Listed(w) && (w.lockHeld <==> w.running != []) && w.requests == [] && i < |w.waitQueue|
    requires Admissible(cfg, w, w.waitQueue[i]) && forall c :: c in w.waitQueue[..i] ==> !Takes(cfg, w, w.running, w.runningMemory, c)
    ensures Walk(cfg, Promote(w, i)) == Greedy(cfg, w, w.waitQueue[i..], w.running, w.runningMemory)
  {
    var q, r, c := w.waitQueue, Promote(w, i), w.waitQueue[i];
    var front, rest := q[..i], q[i + 1..];
    var line := [c] + (front + rest);
    assert r.requests + r.waitQueue == line;
    PromoteSame(cfg, w, i, line);
    GreedyFrame(cfg, w, r, line, w.running, w.runningMemory);
    AdmissibleTakes(cfg, w, c);
    TakenPastRejected(cfg, w, c, front, rest, w.running, w.runningMemory);
    assert q[i..] == [c] + rest;
  }

  /** Once c is taken, those in front of it who were rejected still are. */
  lemma TakenPastRejected(cfg: Config, g: Gpu, c: ClientId, front: seq<ClientId>, rest: seq<ClientId>,
                          running: seq<ClientId>, memory: nat)
    requires Takes(cfg, g, running, memory, c) && forall d :: d in front ==> !Takes(cfg, g, running, memory, d)
    ensures Greedy(cfg, g, [c] + (front + rest), running, memory) == Greedy(cfg, g, [c] + rest, running, memory)
  {
    var running', memory' := running + [c], memory + g.clients[c].memory;
    forall d | d in front ensures !Takes(cfg, g, running', memory', d) {
      StillRejected(cfg, g, running, memory, running', memory', d);
    }
    RejectedInFront(cfg, g, front, rest, running', memory');
    assert ([c] + (front + rest))[1..] == front + rest && ([c] + rest)[1..] == rest;
  }

  // ---------------------------------------------------------------- the round

  /** One pass moves along the walk. */
  lemma PassWalks(cfg: Config, g: Gpu, now: nat)
    requires ValidConfig(cfg) && Listed(g) && (g.lockHeld <==> g.running != [])
    ensures var (r, done) := Pass(cfg, g, now);
            && (r.lockHeld <==> r.running != [])
            && (if done then r.running == Walk(cfg, ResetWindow(cfg, g, now))
                else ResetWindow(cfg, r, now) == r && Walk(cfg, r) == Walk(cfg, ResetWindow(cfg, g, now)))
  {
    var w := ResetWindow(cfg, g, now);
    ResetWindowIdempotent(cfg, g, now);
    if g.requests == [] {
      WaiterPassWalks(cfg, g, now);
    } else {
      RequestPassWalks(cfg, g, now);
    }
  }

  lemma RequestPassWalks(cfg: Config, g: Gpu, now: nat)
    requires ValidConfig(cfg) && Listed(g) && (g.lockHeld <==> g.running != []) && g.requests != []
    ensures var (r, done) := Pass(cfg, g, now);
            && (r.lockHeld <==> r.running != [])
            && (if done then r.running == Walk(cfg, ResetWindow(cfg, g, now))
                else ResetWindow(cfg, r, now) == r && Walk(cfg, r) == Walk(cfg, ResetWindow(cfg, g, now)))
  {
    var w := ResetWindow(cfg, g, now);
    ResetWindowIdempotent(cfg, g, now);
    if Admissible(cfg, w, w.requests[0]) {
      GrantWalks(cfg, w, now);
      ResetIsDone(cfg, w, Grant(w, now), now);
      assert Pass(cfg, g, now) == (Grant(w, now), cfg.mode == Serial);
    } else {
      MoveWalks(cfg, w);
      ResetIsDone(cfg, w, MoveToWaitQueue(w), now);
      assert Pass(cfg, g, now) == (MoveToWaitQueue(w), false);
    }
  }

  lemma WaiterPassWalks(cfg: Config, g: Gpu, now: nat)
    requires ValidConfig(cfg) && Listed(g) && (g.lockHeld <==> g.running != []) && g.requests == []
    ensures var (r, done) := Pass(cfg, g, now);
            && (r.lockHeld <==> r.running != [])
            && (if done then r.running == Walk(cfg, ResetWindow(cfg, g, now))
                else ResetWindow(cfg, r, now) == r && Walk(cfg, r) == Walk(cfg, ResetWindow(cfg, g, now)))
  {
    var w := ResetWindow(cfg, g, now);
    var i := FirstAdmissible(cfg, w, w.waitQueue);
    PromoteWalks(cfg, w);
    if i < |w.waitQueue| {
      var p := Promote(w, i);
      assert CheckWaitQueue(cfg, g, now) == p;
      PromotedIsAdmissible(cfg, g, now);
      RequestPassWalks(cfg, p, now);
      assert Pass(cfg, g, now) == Pass(cfg, p, now);
    }
  }

  /** The runners after a round, in every mode and from every state: those the walk takes. */
  lemma {:induction false} RoundIsGreedy(cfg: Config, g: Gpu, now: nat)
    requires ValidConfig(cfg) && Listed(g) && (g.lockHeld <==> g.running != [])
    ensures TrySchedule(cfg, g, now).running == Walk(cfg, ResetWindow(cfg, g, now))
    decreases |g.requests| + |g.waitQueue|, |g.requests|
  {
    PassWalks(cfg, g, now);
    var (r, done) := Pass(cfg, g, now);
    if !done { RoundIsGreedy(cfg, r, now); }
  }

  /** A client that fails the quota check gets no grant from a round, however many passes it
      takes. */
  lemma UnfitIsNotGranted(cfg: Config, g: Gpu, c: ClientId, now: nat)
    requires ValidConfig(cfg) && Listed(g) && (g.lockHeld <==> g.running != [])
    requires c !in g.running && !Fit(cfg, ResetWindow(cfg, g, now), c)
    ensures c !in TrySchedule(cfg, g, now).running
  {
    var w := ResetWindow(cfg, g, now);
    RoundIsGreedy(cfg, g, now);
    GreedyGrows(cfg, w, w.requests + w.waitQueue, w.running, w.runningMemory);
  }
}
