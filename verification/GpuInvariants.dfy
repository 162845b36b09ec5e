/** What every handler of the scheduler keeps, whatever the order of messages, timer
    ticks and disconnects. */
module GpuInvariants {
  import opened Lists
  import opened GpuModel
  import opened Arith
  import opened Sums
  import opened Billing

  /** The memory ledger, the lock flag and the running flags agree with the running list. */
  ghost predicate Ledger(g: Gpu) {
    && g.runningMemory == Weigh(g.running, g.clients, Memory)
    && (g.lockHeld <==> g.running != [])
    && (forall c :: c in g.clients ==> (g.clients[c].isRunning <==> c in g.running))
  }

  /** Until overload is flagged, the runners fit in the safe limit or one of them holds
      all the memory in use. */
  ghost predicate MemorySafe(cfg: Config, g: Gpu) {
    g.overloaded
    || g.runningMemory <= SafeLimit(cfg, g)
    || exists c :: c in g.running && c in g.clients && g.clients[c].memory == g.runningMemory
  }

  predicate Exclusive(cfg: Config, g: Gpu) {
    cfg.mode == Serial ==> |g.running| <= 1
  }

  /** The timer asks for the lock at most once per grant. */
  predicate DropsOnce(k: Client) {
    && k.timerDrops <= 1
    && (if k.isRunning
        then k.pendingDrop == (k.timerDrops == 1) && (k.pendingDrop ==> k.lastDropSent > 0)
        else !k.pendingDrop && k.lastDropSent == 0)
  }

  /** Every charge is in the current window, was paid for by a closed one, or was forgiven. */
  predicate Accounted(cfg: Config, k: Client) {
    && k.charged == k.consumed + k.forgiven + k.runTime
    && k.forgiven >= 0
    && (cfg.carryPercent == 100 ==> k.forgiven == 0)
  }

  ghost predicate Books(cfg: Config, g: Gpu) {
    forall c :: c in g.clients ==> BooksOk(cfg, g.clients[c])
  }

  ghost predicate Inv(cfg: Config, g: Gpu, now: nat) {
    && Listed(g) && Ledger(g) && MemorySafe(cfg, g) && Exclusive(cfg, g) && Books(cfg, g)
    && Timely(g, now)
  }

  lemma InitiallyInv(cfg: Config, totalMemory: nat, now: nat)
    requires ValidConfig(cfg) && 0 < now
    ensures Inv(cfg, Gpu([], [], [], false, totalMemory, 0, false, 0, [], map[], 0), now)
  {}

  lemma TimePasses(cfg: Config, g: Gpu, now: nat, later: nat)
    requires Inv(cfg, g, now) && now <= later
    ensures Inv(cfg, g, later)
  {}

  // ---------------------------------------------------------------- steps that run nobody

  /** Nothing but the socket and the core limit changed. */
  predicate SameAccount(k: Client, k': Client) {
    k' == k.(socket := k'.socket, coreLimit := k'.coreLimit)
  }

  /** A step that moves clients between the queues, registers or unregisters them, sends
      or delivers messages, or changes a core limit. */
  ghost predicate Quiet(g: Gpu, g': Gpu) {
    && g'.running == g.running
    && g'.lockHeld == g.lockHeld
    && g'.totalMemory == g.totalMemory
    && g'.runningMemory == g.runningMemory
    && g'.overloaded == g.overloaded
    && g'.windowStart == g.windowStart
    && g'.billed == g.billed
    && (forall c :: c in g'.clients ==>
          if c in g.clients
          then SameAccount(g.clients[c], g'.clients[c])
          else c !in g.running && exists limit :: g'.clients[c] == NewClient(limit))
    && (forall c :: c in g.running && c in g.clients ==> c in g'.clients)
  }

  lemma QuietKeepsInv(cfg: Config, g: Gpu, g': Gpu, now: nat)
    requires Inv(cfg, g, now) && Quiet(g, g') && Listed(g')
    ensures Inv(cfg, g', now)
  {
    QuietKeepsMemory(cfg, g, g');
    QuietKeepsBooks(cfg, g, g', now);
  }

  lemma QuietKeepsMemory(cfg: Config, g: Gpu, g': Gpu)
    requires Listed(g) && Ledger(g) && MemorySafe(cfg, g) && Exclusive(cfg, g) && Quiet(g, g') && Listed(g')
    ensures Ledger(g') && MemorySafe(cfg, g') && Exclusive(cfg, g')
  {
    SameWeights(g.running, g.clients, g'.clients, Memory);
  }

  lemma QuietKeepsBooks(cfg: Config, g: Gpu, g': Gpu, now: nat)
    requires Listed(g) && Books(cfg, g) && Timely(g, now) && Quiet(g, g')
    ensures Books(cfg, g') && Timely(g', now)
  {}

  lemma InsertQuiet(g: Gpu, c: ClientId)
    requires Listed(g) && c in g.clients && c !in g.waitQueue && c !in g.running
    ensures Quiet(g, InsertReq(g, c)) && Listed(InsertReq(g, c))
  {}

  lemma MoveQuiet(g: Gpu)
    requires Listed(g) && g.requests != []
    ensures Quiet(g, MoveToWaitQueue(g))
  {}

  lemma PromoteQuiet(g: Gpu, i: nat)
    requires Listed(g) && i < |g.waitQueue|
    ensures Quiet(g, Promote(g, i))
  {}

  lemma ForgetQuiet(g: Gpu, c: ClientId)
    requires Listed(g)
    ensures Quiet(g, Forget(g, c))
  {}

  // ---------------------------------------------------------------- the memory side

  lemma {:induction false} SameMemory(s: seq<ClientId>, m: map<ClientId, Client>, m': map<ClientId, Client>)
    requires forall c :: c in s ==> c in m && c in m' && m'[c].memory == m[c].memory
    ensures Weigh(s, m', Memory) == Weigh(s, m, Memory)
  {
    SameWeights(s, m, m', Memory);
  }

  /** The memory of every client is as before, and the running flags follow the running list. */
  ghost predicate SameHoldings(g: Gpu, g': Gpu) {
    && g'.clients.Keys == g.clients.Keys
    && (forall c :: c in g.clients ==>
          && g'.clients[c].memory == g.clients[c].memory
          && (g'.clients[c].isRunning <==> c in g'.running))
  }

  /** Steps that leave the running list and all memory alone. */
  lemma StayKeepsMemory(cfg: Config, g: Gpu, g': Gpu)
    requires Listed(g) && Ledger(g) && MemorySafe(cfg, g) && Exclusive(cfg, g)
    requires g' == g.(clients := g'.clients, billed := g'.billed, windowStart := g'.windowStart)
    requires SameHoldings(g, g')
    ensures Ledger(g') && MemorySafe(cfg, g') && Exclusive(cfg, g')
  {
    SameMemory(g.running, g.clients, g'.clients);
  }

  /** A client that passed admission joins. */
  lemma JoinKeepsMemory(cfg: Config, g: Gpu, g': Gpu, c: ClientId)
    requires Listed(g) && Ledger(g) && MemorySafe(cfg, g) && Exclusive(cfg, g)
    requires c in g.clients && MemoryOk(cfg, g, g.clients[c]) && SameHoldings(g, g')
    requires g'.running == g.running + [c] && g'.lockHeld
    requires g'.overloaded == g.overloaded && g'.totalMemory == g.totalMemory
    requires g'.runningMemory == g.runningMemory + g.clients[c].memory
    ensures Ledger(g') && MemorySafe(cfg, g') && Exclusive(cfg, g')
  {
    WeighAppend(g.running, c, g'.clients, Memory);
    SameMemory(g.running, g.clients, g'.clients);
    if !g.overloaded && g'.runningMemory > SafeLimit(cfg, g') {
      assert c in g'.running && g'.clients[c].memory == g'.runningMemory;
    }
  }

  /** A runner leaves; the ledger always covers what it held. */
  lemma LeaveKeepsMemory(cfg: Config, g: Gpu, g': Gpu, c: ClientId)
    requires ValidConfig(cfg)
    requires Listed(g) && Ledger(g) && MemorySafe(cfg, g) && Exclusive(cfg, g)
    requires c in g.running && SameHoldings(g, g')
    requires g'.running == Without(g.running, c) && g'.lockHeld == (g'.running != [])
    requires g'.overloaded == g.overloaded && g'.totalMemory == g.totalMemory
    requires g.runningMemory >= g.clients[c].memory ==>
               g'.runningMemory == g.runningMemory - g.clients[c].memory
    ensures g.runningMemory >= g.clients[c].memory
    ensures Ledger(g') && MemorySafe(cfg, g') && Exclusive(cfg, g')
  {
    WeighMember(g.running, c, g.clients, Memory);
    WeighWithout(g.running, c, g.clients, Memory);
    SameMemory(g'.running, g.clients, g'.clients);
    if !g.overloaded && g.runningMemory > SafeLimit(cfg, g) {
      var d :| d in g.running && d in g.clients && g.clients[d].memory == g.runningMemory;
      if d != c {
        WeighPair(g.running, c, d, g.clients, Memory);
        assert d in g'.running && g'.clients[d].memory == g'.runningMemory;
      } else {
        SafeLimitNonNegative(cfg, g');
      }
    }
  }

  lemma SafeLimitNonNegative(cfg: Config, g: Gpu)
    requires ValidConfig(cfg)
    ensures 0 <= SafeLimit(cfg, g)
  {
    assert 0 <= g.totalMemory * (100 - cfg.reservePercent);
  }

  lemma {:induction false} OneMemoryChanged(s: seq<ClientId>, c: ClientId, m: map<ClientId, Client>, m': map<ClientId, Client>)
    requires Distinct(s) && c in m && c in m'
    requires forall d :: d in s ==> d in m && d in m' && (d != c ==> m'[d].memory == m[d].memory)
    ensures Weigh(s, m', Memory) == Weigh(s, m, Memory) + (if c in s then m'[c].memory - m[c].memory else 0)
  {
    if c in s {
      WeighExclude(s, c, m, Memory);
      WeighExclude(s, c, m', Memory);
      SameWeights(s, m - {c}, m' - {c}, Memory);
    } else {
      SameMemory(s, m, m');
    }
  }

  /** A client reports a new size; overload is flagged as soon as the runners exceed the limit. */
  lemma ResizeKeepsMemory(cfg: Config, g: Gpu, g': Gpu, c: ClientId)
    requires Listed(g) && Ledger(g) && MemorySafe(cfg, g) && Exclusive(cfg, g)
    requires c in g.clients && g'.clients.Keys == g.clients.Keys
    requires forall d :: d in g.clients ==> g'.clients[d].isRunning == g.clients[d].isRunning
    requires forall d :: d in g.clients && d != c ==> g'.clients[d].memory == g.clients[d].memory
    requires g'.running == g.running && g'.lockHeld == g.lockHeld && g'.totalMemory == g.totalMemory
    requires g.runningMemory >= g.clients[c].memory || c !in g.running ==>
               g'.runningMemory == g.runningMemory
                                   + (if c in g.running then g'.clients[c].memory - g.clients[c].memory else 0)
    requires g'.overloaded == (g.overloaded || (c in g.running && g'.runningMemory > SafeLimit(cfg, g)))
    ensures c in g.running ==> g.runningMemory >= g.clients[c].memory
    ensures Ledger(g') && MemorySafe(cfg, g') && Exclusive(cfg, g')
  {
    OneMemoryChanged(g.running, c, g.clients, g'.clients);
    if c in g.running {
      WeighMember(g.running, c, g.clients, Memory);
    } else if !g.overloaded && g.runningMemory > SafeLimit(cfg, g) {
      var d :| d in g.running && d in g.clients && g.clients[d].memory == g.runningMemory;
      assert d in g'.running && g'.clients[d].memory == g'.runningMemory;
    }
  }

  // ---------------------------------------------------------------- one client's books

  predicate BooksOk(cfg: Config, k: Client) {
    DropsOnce(k) && Accounted(cfg, k)
  }

  lemma CarryBounds(over: int, percent: int)
    requires 0 <= over && 0 <= percent <= 100
    ensures 0 <= over * percent / 100 <= over
    ensures percent == 100 ==> over * percent / 100 == over
  {
    assert 0 <= over * percent <= over * 100;
  }

  lemma CloseKeepsBooks(cfg: Config, limit: int, k: Client)
    requires ValidConfig(cfg) && BooksOk(cfg, k)
    ensures BooksOk(cfg, CloseWindow(cfg, limit, k))
  {
    CarryBounds(Max(0, k.runTime - limit), cfg.carryPercent);
  }

  /** What billing and the timer keep of one client: its memory, a segment that did not
      start before it did, and its books. */
  predicate Follows(cfg: Config, k: Client, k': Client, now: nat) {
    && k'.memory == k.memory
    && (k'.runStart == k.runStart || k'.runStart == now)
    && (BooksOk(cfg, k) ==> BooksOk(cfg, k'))
  }

  lemma SettleFollows(cfg: Config, k: Client, n: int, now: nat)
    requires n >= 1
    ensures Follows(cfg, k, Settle(k, n, now), now) && Settle(k, n, now).isRunning == k.isRunning
  {}

  lemma CloseFollows(cfg: Config, limit: int, k: Client, now: nat)
    requires ValidConfig(cfg)
    ensures Follows(cfg, k, CloseWindow(cfg, limit, k), now)
  {
    if BooksOk(cfg, k) {
      CloseKeepsBooks(cfg, limit, k);
    }
  }

  // ---------------------------------------------------------------- window reset

  lemma ResetAt(cfg: Config, g: Gpu, now: nat, c: ClientId)
    requires ValidConfig(cfg) && c in g.clients
    ensures var k, k' := g.clients[c], ResetWindow(cfg, g, now).clients[c];
            Follows(cfg, k, k', now) && k'.isRunning == k.isRunning
  {
    var k, k' := g.clients[c], ResetWindow(cfg, g, now).clients[c];
    if WindowDue(cfg, g, now) {
      var a := Accrue(g.(windowStart := now), now, {});
      var limit, j := QuotaOf(cfg, a, a.clients[c]), a.clients[c];
      assert k' == CloseWindow(cfg, limit, j);
      assert j == k || j == Settle(k, Concurrency(g), now);
      SettleFollows(cfg, k, Concurrency(g), now);
      CloseFollows(cfg, limit, j, now);
    }
  }

  lemma ResetKeepsInv(cfg: Config, g: Gpu, now: nat)
    requires ValidConfig(cfg) && Inv(cfg, g, now)
    ensures Inv(cfg, ResetWindow(cfg, g, now), now)
  {
    ResetKeepsBooks(cfg, g, now);
    StayKeepsMemory(cfg, g, ResetWindow(cfg, g, now));
  }

  lemma ResetKeepsBooks(cfg: Config, g: Gpu, now: nat)
    requires ValidConfig(cfg) && Listed(g) && Ledger(g) && Books(cfg, g) && Timely(g, now)
    ensures var r := ResetWindow(cfg, g, now); Books(cfg, r) && Timely(r, now) && SameHoldings(g, r)
  {
    var r := ResetWindow(cfg, g, now);
    forall c | c in g.clients
      ensures Follows(cfg, g.clients[c], r.clients[c], now) && r.clients[c].isRunning == g.clients[c].isRunning
    {
      ResetAt(cfg, g, now, c);
    }
  }

  // ---------------------------------------------------------------- grant

  lemma StartFollows(cfg: Config, k: Client, now: nat)
    requires !k.isRunning
    ensures Follows(cfg, k, Start(k, now), now)
  {}

  lemma GrantAt(cfg: Config, g: Gpu, now: nat, c: ClientId)
    requires g.requests != [] && g.requests[0] in g.clients && c in g.clients && c in Grant(g, now).clients
    requires g.requests[0] !in g.running
    requires !g.clients[g.requests[0]].isRunning
    ensures var k, k' := g.clients[c], Grant(g, now).clients[c];
            && Follows(cfg, k, k', now)
            && k'.isRunning == (k.isRunning || c == g.requests[0])
            && (c == g.requests[0] ==> k'.runStart == now)
  {
    var k, k' := g.clients[c], Grant(g, now).clients[c];
    if c == g.requests[0] {
      assert k' == Start(k, now);
      StartFollows(cfg, k, now);
    } else {
      assert k' == k || k' == Settle(k, Concurrency(g), now);
      SettleFollows(cfg, k, Concurrency(g), now);
    }
  }

  lemma GrantKeepsInv(cfg: Config, g: Gpu, now: nat)
    requires ValidConfig(cfg) && Inv(cfg, g, now)
    requires g.requests != [] && Admissible(cfg, g, g.requests[0])
    ensures Inv(cfg, Grant(g, now), now)
  {
    GrantKeepsBooks(cfg, g, now);
    JoinKeepsMemory(cfg, g, Grant(g, now), g.requests[0]);
  }

  lemma GrantKeepsBooks(cfg: Config, g: Gpu, now: nat)
    requires Listed(g) && Ledger(g) && Books(cfg, g) && Timely(g, now) && g.requests != []
    ensures var r := Grant(g, now); Books(cfg, r) && Timely(r, now) && SameHoldings(g, r)
  {
    var r := Grant(g, now);
    assert r.clients.Keys == g.clients.Keys;
    forall c | c in g.clients
      ensures Follows(cfg, g.clients[c], r.clients[c], now)
      ensures r.clients[c].isRunning == (g.clients[c].isRunning || c == g.requests[0])
      ensures c == g.requests[0] ==> r.clients[c].runStart == now
    {
      GrantAt(cfg, g, now, c);
    }
  }

  // ---------------------------------------------------------------- release

  lemma LeaveFollows(cfg: Config, k: Client, fee: int, now: nat)
    ensures Follows(cfg, k, Leave(k, fee), now)
  {}

  lemma ReleaseAt(cfg: Config, g: Gpu, now: nat, c: ClientId, d: ClientId)
    requires c in g.clients && d in g.clients
    ensures var k, k' := g.clients[d], Release(cfg, g, c, now).clients[d];
            && Follows(cfg, k, k', now)
            && k'.isRunning == (if d == c && c in g.running then false else k.isRunning)
  {
    var k, k' := g.clients[d], Release(cfg, g, c, now).clients[d];
    if c in g.running && d == c {
      var fee := LeaveFee(cfg, k, Concurrency(Accrue(g, now, {c})), now);
      assert k' == Leave(k, fee);
      LeaveFollows(cfg, k, fee, now);
    } else {
      assert k' == k || k' == Settle(k, Concurrency(g), now);
      SettleFollows(cfg, k, Concurrency(g), now);
    }
  }

  lemma ReleaseKeepsInv(cfg: Config, g: Gpu, c: ClientId, now: nat)
    requires ValidConfig(cfg) && Inv(cfg, g, now) && c in g.clients
    ensures Inv(cfg, Release(cfg, g, c, now), now)
  {
    ReleaseKeepsBooks(cfg, g, c, now);
    if c in g.running {
      LeaveKeepsMemory(cfg, g, Release(cfg, g, c, now), c);
    }
  }

  lemma ReleaseKeepsBooks(cfg: Config, g: Gpu, c: ClientId, now: nat)
    requires Listed(g) && Books(cfg, g) && Ledger(g) && Timely(g, now) && c in g.clients
    ensures var r := Release(cfg, g, c, now); Books(cfg, r) && Timely(r, now) && SameHoldings(g, r)
  {
    var r := Release(cfg, g, c, now);
    forall d | d in g.clients
      ensures Follows(cfg, g.clients[d], r.clients[d], now)
      ensures r.clients[d].isRunning == (if d == c && c in g.running then false else g.clients[d].isRunning)
    {
      ReleaseAt(cfg, g, now, c, d);
    }
  }

  // ---------------------------------------------------------------- memory updates

  /** What a memory update, with or without a preemption, does to one client. */
  predicate Resized(cfg: Config, k: Client, k': Client, memory: nat) {
    && k'.memory == memory
    && k'.isRunning == k.isRunning && k'.runStart == k.runStart
    && k'.coreLimit == k.coreLimit && k'.pendingDrop == k.pendingDrop
    && (BooksOk(cfg, k) ==> BooksOk(cfg, k'))
  }

  lemma PreemptResizes(cfg: Config, k: Client, k': Client, memory: nat, now: nat)
    requires k' == k.(memory := memory) || (k.isRunning && k' == Preempt(k.(memory := memory), now))
    requires 0 < now
    ensures Resized(cfg, k, k', memory)
  {}

  lemma MemUpdateAt(cfg: Config, g: Gpu, c: ClientId, usage: nat, now: nat, d: ClientId)
    requires c in g.clients && d in g.clients && 0 < now && (d in g.running ==> g.clients[d].isRunning)
    ensures d in OnMemUpdate(cfg, g, c, usage, now).clients
    ensures Resized(cfg, g.clients[d], OnMemUpdate(cfg, g, c, usage, now).clients[d],
                    if d == c then usage else g.clients[d].memory)
  {
    var k, k' := g.clients[d], OnMemUpdate(cfg, g, c, usage, now).clients[d];
    var memory := if d == c then usage else k.memory;
    assert k' == k.(memory := memory) || (d in g.running && k' == Preempt(k.(memory := memory), now));
    PreemptResizes(cfg, k, k', memory, now);
  }

  ghost predicate ResizedAll(cfg: Config, g: Gpu, g': Gpu, c: ClientId, usage: nat) {
    && g'.clients.Keys == g.clients.Keys
    && forall d :: d in g.clients ==>
         Resized(cfg, g.clients[d], g'.clients[d], if d == c then usage else g.clients[d].memory)
  }

  lemma MemUpdateResizes(cfg: Config, g: Gpu, c: ClientId, usage: nat, now: nat)
    requires Ledger(g) && c in g.clients && 0 < now
    ensures ResizedAll(cfg, g, OnMemUpdate(cfg, g, c, usage, now), c, usage)
  {
    var r := OnMemUpdate(cfg, g, c, usage, now);
    assert r.clients.Keys == g.clients.Keys;
    forall d | d in g.clients
      ensures Resized(cfg, g.clients[d], r.clients[d], if d == c then usage else g.clients[d].memory)
    {
      MemUpdateAt(cfg, g, c, usage, now, d);
    }
  }

  lemma MemUpdateKeepsInv(cfg: Config, g: Gpu, c: ClientId, usage: nat, now: nat)
    requires ValidConfig(cfg) && Inv(cfg, g, now) && c in g.clients
    ensures Inv(cfg, OnMemUpdate(cfg, g, c, usage, now), now)
  {
    var r := OnMemUpdate(cfg, g, c, usage, now);
    MemUpdateResizes(cfg, g, c, usage, now);
    ResizeKeepsMemory(cfg, g, r, c);
  }

  // ---------------------------------------------------------------- the timer

  lemma CutFollows(cfg: Config, k: Client, n: int, now: nat)
    requires n >= 1 && 0 < now && k.isRunning && !k.pendingDrop
    ensures Follows(cfg, k, Cut(k, n, now), now) && Cut(k, n, now).isRunning
  {}

  lemma ThrottleAt(cfg: Config, g: Gpu, now: nat, c: ClientId)
    requires c in g.clients && 0 < now && (c in g.running ==> g.clients[c].isRunning)
    ensures var k, k' := g.clients[c], Throttle(cfg, g, now).clients[c];
            Follows(cfg, k, k', now) && k'.isRunning == k.isRunning
  {
    if c in OverrunRunners(cfg, g, now) {
      CutFollows(cfg, g.clients[c], Concurrency(g), now);
    }
  }

  lemma ThrottleKeepsInv(cfg: Config, g: Gpu, now: nat)
    requires ValidConfig(cfg) && Inv(cfg, g, now)
    ensures Inv(cfg, Throttle(cfg, g, now), now)
  {
    ThrottleKeepsBooks(cfg, g, now);
    StayKeepsMemory(cfg, g, Throttle(cfg, g, now));
  }

  lemma ThrottleKeepsBooks(cfg: Config, g: Gpu, now: nat)
    requires Listed(g) && Books(cfg, g) && Ledger(g) && Timely(g, now)
    ensures var r := Throttle(cfg, g, now); Books(cfg, r) && Timely(r, now) && SameHoldings(g, r)
  {
    var r := Throttle(cfg, g, now);
    forall c | c in g.clients
      ensures Follows(cfg, g.clients[c], r.clients[c], now) && r.clients[c].isRunning == g.clients[c].isRunning
    {
      ThrottleAt(cfg, g, now, c);
    }
  }

  lemma AskFollows(cfg: Config, k: Client, n: int, now: nat)
    requires 0 < now && k.isRunning
    ensures Follows(cfg, k, Ask(k, n, now), now) && Ask(k, n, now).isRunning
  {}

  lemma RotateAt(cfg: Config, g: Gpu, now: nat, c: ClientId)
    requires c in g.clients && 0 < now && (c in g.running ==> g.clients[c].isRunning)
    ensures var k, k' := g.clients[c], Rotate(g, now).clients[c];
            Follows(cfg, k, k', now) && k'.isRunning == k.isRunning
  {
    if c in g.running {
      AskFollows(cfg, g.clients[c], Concurrency(g), now);
    }
  }

  lemma RotateKeepsInv(cfg: Config, g: Gpu, now: nat)
    requires ValidConfig(cfg) && Inv(cfg, g, now)
    ensures Inv(cfg, Rotate(g, now), now)
  {
    RotateKeepsBooks(cfg, g, now);
    StayKeepsMemory(cfg, g, Rotate(g, now));
  }

  lemma RotateKeepsBooks(cfg: Config, g: Gpu, now: nat)
    requires Listed(g) && Books(cfg, g) && Ledger(g) && Timely(g, now)
    ensures var r := Rotate(g, now); Books(cfg, r) && Timely(r, now) && SameHoldings(g, r)
  {
    var r := Rotate(g, now);
    forall c | c in g.clients
      ensures Follows(cfg, g.clients[c], r.clients[c], now) && r.clients[c].isRunning == g.clients[c].isRunning
    {
      RotateAt(cfg, g, now, c);
    }
  }

  lemma TimerWakeKeepsInv(cfg: Config, g: Gpu, fullQuantum: bool, now: nat)
    requires ValidConfig(cfg) && Inv(cfg, g, now)
    ensures Inv(cfg, TimerWake(cfg, g, fullQuantum, now), now)
  {
    ThrottleKeepsInv(cfg, g, now);
    RotateKeepsInv(cfg, Throttle(cfg, g, now), now);
  }

  // ---------------------------------------------------------------- scheduling

  lemma CheckWaitQueueKeepsInv(cfg: Config, g: Gpu, now: nat)
    requires ValidConfig(cfg) && Inv(cfg, g, now)
    ensures Inv(cfg, CheckWaitQueue(cfg, g, now), now)
  {
    var w := ResetWindow(cfg, g, now);
    ResetKeepsInv(cfg, g, now);
    var i := FirstAdmissible(cfg, w, w.waitQueue);
    if i < |w.waitQueue| {
      PromoteQuiet(w, i);
      QuietKeepsInv(cfg, w, Promote(w, i), now);
    }
  }

  lemma PassKeepsInv(cfg: Config, g: Gpu, now: nat)
    requires ValidConfig(cfg) && Inv(cfg, g, now)
    ensures Inv(cfg, Pass(cfg, g, now).0, now)
  {
    var g0 := if g.requests == [] then CheckWaitQueue(cfg, g, now) else g;
    CheckWaitQueueKeepsInv(cfg, g, now);
    if g0.requests != [] {
      var w := ResetWindow(cfg, g0, now);
      ResetKeepsInv(cfg, g0, now);
      if Admissible(cfg, w, w.requests[0]) {
        GrantKeepsInv(cfg, w, now);
      } else {
        MoveQuiet(w);
        QuietKeepsInv(cfg, w, MoveToWaitQueue(w), now);
      }
    }
  }

  lemma {:induction false} TryScheduleKeepsInv(cfg: Config, g: Gpu, now: nat)
    requires ValidConfig(cfg) && Inv(cfg, g, now)
    ensures Inv(cfg, TrySchedule(cfg, g, now), now)
    decreases |g.requests| + |g.waitQueue|, |g.requests|
  {
    PassKeepsInv(cfg, g, now);
    var (r, done) := Pass(cfg, g, now);
    if !done {
      TryScheduleKeepsInv(cfg, r, now);
    }
  }

  lemma RemoveReqKeepsInv(cfg: Config, g: Gpu, c: ClientId, now: nat)
    requires ValidConfig(cfg) && Inv(cfg, g, now) && c in g.clients
    ensures Inv(cfg, RemoveReq(cfg, g, c, now), now)
  {
    var g1 := Release(cfg, g, c, now);
    ReleaseKeepsInv(cfg, g, c, now);
    var g2 := if g1.running == [] then TrySchedule(cfg, CheckWaitQueue(cfg, g1, now), now) else g1;
    if g1.running == [] {
      CheckWaitQueueKeepsInv(cfg, g1, now);
      TryScheduleKeepsInv(cfg, CheckWaitQueue(cfg, g1, now), now);
    }
    ForgetQuiet(g2, c);
    QuietKeepsInv(cfg, g2, Forget(g2, c), now);
  }

  lemma OnReqLockKeepsInv(cfg: Config, g: Gpu, c: ClientId, now: nat)
    requires ValidConfig(cfg) && Inv(cfg, g, now)
    requires c in g.clients && c !in g.waitQueue && c !in g.running
    ensures Inv(cfg, OnReqLock(cfg, g, c, now), now)
  {
    InsertQuiet(g, c);
    QuietKeepsInv(cfg, g, InsertReq(g, c), now);
    TryScheduleKeepsInv(cfg, InsertReq(g, c), now);
  }

  lemma OnLockReleasedKeepsInv(cfg: Config, g: Gpu, c: ClientId, now: nat)
    requires ValidConfig(cfg) && Inv(cfg, g, now) && c in g.clients
    ensures Inv(cfg, OnLockReleased(cfg, g, c, now), now)
  {
    RemoveReqKeepsInv(cfg, g, c, now);
    TryScheduleKeepsInv(cfg, RemoveReq(cfg, g, c, now), now);
  }

  lemma TimerWindowKeepsInv(cfg: Config, g: Gpu, now: nat)
    requires ValidConfig(cfg) && Inv(cfg, g, now)
    ensures Inv(cfg, TimerWindow(cfg, g, now), now)
  {
    ResetKeepsInv(cfg, g, now);
    TryScheduleKeepsInv(cfg, ResetWindow(cfg, g, now), now);
  }
}
