/** What the scheduler's charges add up to: the counter `billed` is, over every run, the sum of
    what was charged to quota-limited runners with no drop pending. */
module Charges {
  import opened Lists
  import opened GpuModel
  import opened Arith
  import opened Sums
  import opened Billing
  import opened Departures
  import opened LockProtocol
  import opened System
  import opened GpuInvariants

  // ---------------------------------------------------------------- sums of amounts

  function At(due: map<ClientId, int>, c: ClientId): int { if c in due then due[c] else 0 }

  function Total(s: seq<ClientId>, due: map<ClientId, int>): int {
    if s == [] then 0 else Total(s[..|s| - 1], due) + At(due, s[|s| - 1])
  }

  lemma {:induction false} TotalAdds(s: seq<ClientId>, a: map<ClientId, int>, b: map<ClientId, int>, sum: map<ClientId, int>)
    requires forall c :: c in s ==> At(sum, c) == At(a, c) + At(b, c)
    ensures Total(s, sum) == Total(s, a) + Total(s, b)
  {
    if s != [] { TotalAdds(s[..|s| - 1], a, b, sum); }
  }

  lemma {:induction false} NothingDue(s: seq<ClientId>, due: map<ClientId, int>)
    requires forall c :: c in s ==> At(due, c) == 0
    ensures Total(s, due) == 0
  {
    if s != [] { NothingDue(s[..|s| - 1], due); }
  }

  lemma {:induction false} TotalWithout(s: seq<ClientId>, c: ClientId, due: map<ClientId, int>)
    requires Distinct(s) && c in s
    ensures Total(s, due) == Total(Without(s, c), due) + At(due, c)
  {
    var front, last := s[..|s| - 1], s[|s| - 1];
    assert s == front + [last];
    if last == c {
      assert c !in front;
    } else {
      TotalWithout(front, c, due);
      var rest := Without(front, c);
      assert (rest + [last])[..|rest|] == rest;
    }
  }

  /** Lists that hold everyone with an amount have the same total. */
  lemma {:induction false} Resum(a: seq<ClientId>, b: seq<ClientId>, due: map<ClientId, int>)
    requires Distinct(a) && Distinct(b)
    requires forall c :: c in a ==> c in b
    requires forall c :: c in b && c !in a ==> At(due, c) == 0
    ensures Total(a, due) == Total(b, due)
    decreases |a|
  {
    if a == [] {
      NothingDue(b, due);
    } else {
      var front, last := a[..|a| - 1], a[|a| - 1];
      assert a == front + [last];
      TotalWithout(b, last, due);
      Resum(front, Without(b, last), due);
    }
  }

  lemma {:induction false} WeighIsTotal(s: seq<ClientId>, m: map<ClientId, Client>, what: Measure, due: map<ClientId, int>)
    requires forall c :: c in s ==> At(due, c) == if c in m then Weight(m[c], what) else 0
    ensures Weigh(s, m, what) == Total(s, due)
  {
    if s != [] { WeighIsTotal(s[..|s| - 1], m, what, due); }
  }

  // ---------------------------------------------------------------- charges

  /** What each client that runs in g, limited and with no drop pending, was charged between g
      and the records r. */
  function Dues(g: Gpu, r: map<ClientId, Client>): map<ClientId, int> {
    map c | c in g.clients && c in r && ActiveRunner(g, c) :: r[c].charged - g.clients[c].charged
  }

  /** What they were charged together. */
  function Gains(g: Gpu, r: map<ClientId, Client>): int { Total(g.order, Dues(g, r)) }

  /** Nothing that the client could be charged for is open at this time. */
  predicate Still(g: Gpu, c: ClientId, now: nat) {
    c in g.clients && (c in g.running ==> g.clients[c].runStart == now)
  }

  /** Going from g to r at one time, the counter grows by what was charged; who has nothing
      open is charged nothing; and who joins or leaves the billed runners has nothing open. */
  ghost predicate Bills(g: Gpu, r: Gpu, now: nat) {
    && r.order == g.order && r.clients.Keys == g.clients.Keys
    && r.billed == g.billed + Gains(g, r.clients)
    && (forall c :: Still(g, c, now) ==> Still(r, c, now) && r.clients[c].charged == g.clients[c].charged)
    && (forall c :: c in g.clients && ActiveRunner(g, c) != ActiveRunner(r, c) ==> Still(r, c, now))
  }

  lemma BillsThen(g: Gpu, h: Gpu, r: Gpu, now: nat)
    requires Bills(g, h, now) && Bills(h, r, now)
    ensures Bills(g, r, now)
  {
    forall c | c in g.order
      ensures At(Dues(g, r.clients), c) == At(Dues(g, h.clients), c) + At(Dues(h, r.clients), c)
    {
      if c in g.clients && ActiveRunner(g, c) != ActiveRunner(h, c) {
        assert Still(h, c, now);
      }
    }
    TotalAdds(g.order, Dues(g, h.clients), Dues(h, r.clients), Dues(g, r.clients));
  }

  /** The same runners with the same segments and charges. */
  ghost predicate SameCharges(g: Gpu, r: Gpu) {
    && r.order == g.order && r.clients.Keys == g.clients.Keys && r.running == g.running && r.billed == g.billed
    && forall c :: c in g.clients ==> SameBill(g.clients[c], r.clients[c])
  }

  predicate SameBill(k: Client, k': Client) {
    k'.charged == k.charged && k'.runStart == k.runStart && k'.coreLimit == k.coreLimit && k'.pendingDrop == k.pendingDrop
  }

  lemma SameBills(g: Gpu, r: Gpu, now: nat)
    requires SameCharges(g, r)
    ensures Bills(g, r, now)
  {
    NothingDue(g.order, Dues(g, r.clients));
  }

  /** Runners are charged what a measure says. */
  lemma MeasuredGains(g: Gpu, r: map<ClientId, Client>, m: map<ClientId, Client>, what: Measure)
    requires Listed(g) && r.Keys == g.clients.Keys
    requires forall c :: c in g.running ==> At(Dues(g, r), c) == if c in m then Weight(m[c], what) else 0
    ensures Gains(g, r) == Weigh(g.running, m, what)
  {
    WeighIsTotal(g.running, m, what, Dues(g, r));
    Resum(g.running, g.order, Dues(g, r));
  }

  // ---------------------------------------------------------------- settling

  lemma AccrueBills(g: Gpu, now: nat, exclude: set<ClientId>)
    requires Listed(g)
    ensures Bills(g, Accrue(g, now, exclude), now)
  {
    var r := Accrue(g, now, exclude);
    MeasuredGains(g, r.clients, g.clients - exclude, Share(now, Concurrency(g)));
  }

  lemma ResetBills(cfg: Config, g: Gpu, now: nat)
    requires Listed(g)
    ensures Bills(g, ResetWindow(cfg, g, now), now)
  {
    if WindowDue(cfg, g, now) {
      var b := g.(windowStart := now);
      var a := Accrue(b, now, {});
      SameBills(g, b, now);
      AccrueBills(b, now, {});
      CloseBills(cfg, g, now);
      BillsThen(g, b, a, now);
      BillsThen(g, a, ResetWindow(cfg, g, now), now);
    } else {
      SameBills(g, ResetWindow(cfg, g, now), now);
    }
  }

  /** Closing the window charges nobody. */
  lemma CloseBills(cfg: Config, g: Gpu, now: nat)
    requires WindowDue(cfg, g, now)
    ensures Bills(Accrue(g.(windowStart := now), now, {}), ResetWindow(cfg, g, now), now)
  {
    var a, r := Accrue(g.(windowStart := now), now, {}), ResetWindow(cfg, g, now);
    forall c | c in a.clients ensures SameBill(a.clients[c], r.clients[c]) {
      assert r.clients[c] == CloseWindow(cfg, QuotaOf(cfg, a, a.clients[c]), a.clients[c]);
    }
    SameBills(a, r, now);
  }

  lemma PlaceBills(g: Gpu, now: nat)
    requires Listed(g) && g.requests != []
    ensures Bills(g, Place(g, now), now)
  {
    var r, head := Place(g, now), g.requests[0];
    assert head !in g.running;
    forall c | c in g.order ensures At(Dues(g, r.clients), c) == 0 {}
    NothingDue(g.order, Dues(g, r.clients));
  }

  lemma GrantBills(g: Gpu, now: nat)
    requires Listed(g) && g.requests != []
    ensures Bills(g, Grant(g, now), now)
  {
    if g.running != [] {
      AccrueBills(g, now, {});
      var a := Accrue(g, now, {});
      PlaceBills(a, now);
      BillsThen(g, a, Grant(g, now), now);
    } else {
      PlaceBills(g, now);
    }
  }

  lemma TakeOffBillsOne(cfg: Config, g: Gpu, c: ClientId, now: nat)
    requires Listed(g) && c in g.running
    ensures Bills(g, TakeOff(cfg, g, c, now), now)
  {
    TakeOffGains(cfg, g, c, now);
    TakenOffDue(cfg, g, c, now);
    assert forall d :: d in g.clients && d != c ==> TakeOff(cfg, g, c, now).clients[d] == g.clients[d];
  }

  lemma TakeOffGains(cfg: Config, g: Gpu, c: ClientId, now: nat)
    requires Listed(g) && c in g.running
    ensures var r := TakeOff(cfg, g, c, now); r.billed == g.billed + Gains(g, r.clients)
  {
    var r := TakeOff(cfg, g, c, now);
    var due := Dues(g, r.clients);
    TotalWithout(g.order, c, due);
    forall d | d in Without(g.order, c) ensures At(due, d) == 0 {
      assert r.clients[d] == g.clients[d];
    }
    NothingDue(Without(g.order, c), due);
    TakenOffDue(cfg, g, c, now);
  }

  lemma TakenOffDue(cfg: Config, g: Gpu, c: ClientId, now: nat)
    requires c in g.running && c in g.clients
    ensures var r := TakeOff(cfg, g, c, now);
            && r.billed == g.billed + At(Dues(g, r.clients), c)
            && (g.clients[c].runStart == now ==> r.clients[c].charged == g.clients[c].charged)
  {}

  lemma ReleaseBillsAll(cfg: Config, g: Gpu, c: ClientId, now: nat)
    requires Listed(g) && c in g.clients
    ensures Bills(g, Release(cfg, g, c, now), now)
  {
    if c in g.running {
      var a := Accrue(g, now, {c});
      AccrueBills(g, now, {c});
      TakeOffBillsOne(cfg, a, c, now);
      BillsThen(g, a, TakeOff(cfg, a, c, now), now);
    } else {
      SameBills(g, Release(cfg, g, c, now), now);
    }
  }

  /** A throttled runner is charged its open segment's share and starts a new one. */
  lemma CutCharges(cfg: Config, g: Gpu, c: ClientId, now: nat)
    requires c in g.clients
    ensures var k, k' := g.clients[c], Throttle(cfg, g, now).clients[c];
            if c in OverrunRunners(cfg, g, now)
            then ActiveRunner(g, c) && k'.charged == k.charged + (now - k.runStart) / Concurrency(g) && k'.runStart == now && k'.pendingDrop
            else k' == k
  {}

  lemma CutDue(cfg: Config, g: Gpu, c: ClientId, now: nat)
    requires c in g.running && c in g.clients
    ensures At(Dues(g, Throttle(cfg, g, now).clients), c)
         == if c in OverrunRunners(cfg, g, now) then Weight(g.clients[c], Segment(now, Concurrency(g))) else 0
  {
    CutCharges(cfg, g, c, now);
  }

  lemma ThrottleGains(cfg: Config, g: Gpu, now: nat)
    requires Listed(g)
    ensures var r := Throttle(cfg, g, now); r.billed == g.billed + Gains(g, r.clients)
  {
    var r, n, hit := Throttle(cfg, g, now), Concurrency(g), OverrunRunners(cfg, g, now);
    var m := map c | c in g.clients && c in hit :: g.clients[c];
    forall c | c in g.running ensures At(Dues(g, r.clients), c) == if c in m then Weight(m[c], Segment(now, n)) else 0 {
      CutDue(cfg, g, c, now);
    }
    MeasuredGains(g, r.clients, m, Segment(now, n));
  }

  lemma ThrottleBills(cfg: Config, g: Gpu, now: nat)
    requires Listed(g)
    ensures Bills(g, Throttle(cfg, g, now), now)
  {
    ThrottleGains(cfg, g, now);
    forall c | c in g.clients
      ensures Still(g, c, now) ==> Still(Throttle(cfg, g, now), c, now) && Throttle(cfg, g, now).clients[c].charged == g.clients[c].charged
      ensures ActiveRunner(g, c) != ActiveRunner(Throttle(cfg, g, now), c) ==> Still(Throttle(cfg, g, now), c, now)
    {
      CutCharges(cfg, g, c, now);
    }
  }

  // ---------------------------------------------------------------- who is charged what

  /** The clients on a list that have a core limit. */
  function LimitedAmong(s: seq<ClientId>, m: map<ClientId, Client>): set<ClientId> {
    set c | c in s && c in m && m[c].coreLimit < 100
  }

  function LimitedRunners(g: Gpu): set<ClientId> { LimitedAmong(g.running, g.clients) }

  /** The number that a segment is divided by. */
  function Sharers(g: Gpu): (n: int)
    ensures n >= 1
  {
    Max(1, |LimitedRunners(g)|)
  }

  lemma {:induction false} LimitedIsCard(s: seq<ClientId>, m: map<ClientId, Client>)
    requires Distinct(s)
    ensures Weigh(s, m, Limited) == |LimitedAmong(s, m)|
  {
    if s != [] {
      var front, last := s[..|s| - 1], s[|s| - 1];
      assert s == front + [last];
      LimitedIsCard(front, m);
      assert last !in front;
      OneMore(front, last, m);
    }
  }

  lemma OneMore(s: seq<ClientId>, c: ClientId, m: map<ClientId, Client>)
    requires c !in s
    ensures |LimitedAmong(s + [c], m)| == |LimitedAmong(s, m)| + if c in m && m[c].coreLimit < 100 then 1 else 0
  {
    assert c !in LimitedAmong(s, m);
    assert LimitedAmong(s + [c], m) == LimitedAmong(s, m) + if c in m && m[c].coreLimit < 100 then {c} else {};
  }

  lemma SharersIs(g: Gpu)
    requires Listed(g)
    ensures Concurrency(g) == Sharers(g)
  {
    LimitedIsCard(g.running, g.clients);
  }

  /** Between g and the records r, client c, if it is a limited runner with no drop pending,
      was charged its open segment divided by the number of limited runners, and opened a new
      segment; otherwise it was charged nothing and keeps its segment. */
  ghost predicate Settled(g: Gpu, r: map<ClientId, Client>, c: ClientId, now: nat)
    requires c in g.clients && c in r
  {
    var k, k' := g.clients[c], r[c];
    if c in g.running && k.coreLimit < 100 && !k.pendingDrop
    then k'.charged - k.charged == (now - k.runStart) / Sharers(g) && k'.runStart == now
    else k'.charged == k.charged && k'.runStart == k.runStart
  }

  /** Settling changes nothing but that, and the usage in the window grows by the charge. */
  lemma AccrueSettles(g: Gpu, now: nat, c: ClientId)
    requires Listed(g) && Timely(g, now) && c in g.clients
    ensures var k, r := g.clients[c], Accrue(g, now, {}).clients;
            && Settled(g, r, c, now)
            && r[c] == k.(charged := r[c].charged, runStart := r[c].runStart, runTime := k.runTime + (r[c].charged - k.charged))
  {
    SharersIs(g);
    var k, r := g.clients[c], Accrue(g, now, {}).clients;
    assert r[c] == if c in g.running then Settle(k, Sharers(g), now) else k;
    if c in g.running { SettleCharges(k, Sharers(g), now); }
  }

  lemma SettleCharges(k: Client, n: int, now: nat)
    requires n >= 1 && 0 < k.runStart <= now
    ensures var fee := if IsActive(k) then (now - k.runStart) / n else 0;
            Settle(k, n, now) == k.(runTime := k.runTime + fee, charged := k.charged + fee, runStart := if IsActive(k) then now else k.runStart)
  {
    if now == k.runStart { assert (now - k.runStart) / n == 0; }
  }

  /** A window reset settles everyone. */
  lemma ResetSettles(cfg: Config, g: Gpu, now: nat, c: ClientId)
    requires Listed(g) && Timely(g, now) && WindowDue(cfg, g, now) && c in g.clients
    ensures c in ResetWindow(cfg, g, now).clients && Settled(g, ResetWindow(cfg, g, now).clients, c, now)
  {
    var b := g.(windowStart := now);
    AccrueSettles(b, now, c);
    ResetRecord(cfg, g, now, c);
    CloseCloses(cfg, QuotaOf(cfg, g, g.clients[c]), Accrue(b, now, {}).clients[c]);
    SettledThen(g, b, Accrue(b, now, {}).clients, ResetWindow(cfg, g, now).clients, c, now);
  }

  lemma SettledThen(g: Gpu, b: Gpu, a: map<ClientId, Client>, r: map<ClientId, Client>, c: ClientId, now: nat)
    requires b.running == g.running && b.clients == g.clients && c in g.clients && c in a && c in r
    requires Settled(b, a, c, now) && SameBill(a[c], r[c])
    ensures Settled(g, r, c, now)
  {
    assert Sharers(b) == Sharers(g);
  }

  /** What a reset does to a record: the client is settled, then the window is closed. */
  lemma ResetRecord(cfg: Config, g: Gpu, now: nat, c: ClientId)
    requires WindowDue(cfg, g, now) && c in g.clients
    ensures ResetWindow(cfg, g, now).clients[c]
         == CloseWindow(cfg, QuotaOf(cfg, g, g.clients[c]), Accrue(g.(windowStart := now), now, {}).clients[c])
  {
    var a := Accrue(g.(windowStart := now), now, {});
    QuotaUnaffected(g, a);
    assert a.clients[c].coreLimit == g.clients[c].coreLimit;
  }

  /** What is left of a client's usage when a window closes: nothing for an unlimited client or
      one within its quota, else a percentage of what exceeds it; that is also noted as its
      debt, and the client is not throttled any more. */
  predicate Closed(cfg: Config, limited: bool, used: int, quota: int, k': Client) {
    && k'.debt == k'.runTime && !k'.throttled
    && k'.runTime == if !limited || used <= quota then 0 else Percent(used - quota, cfg.carryPercent)
  }

  /** A percentage of an amount, rounded down. */
  function Percent(x: int, percent: int): (r: int)
    ensures 100 * r <= x * percent < 100 * (r + 1)
  {
    DivBounds(x * percent, 100);
    x * percent / 100
  }

  lemma CloseCloses(cfg: Config, quota: int, k: Client)
    ensures Closed(cfg, k.coreLimit < 100, k.runTime, quota, CloseWindow(cfg, quota, k))
    ensures SameBill(k, CloseWindow(cfg, quota, k))
  {
    assert Percent(0, cfg.carryPercent) == 0;
  }

  /** When a window has lasted its time, a reset closes it for every client, whose usage is
      then what it was and what its last segment was charged, and starts the next one. */
  lemma WindowCloses(cfg: Config, g: Gpu, now: nat, c: ClientId)
    requires c in g.clients && g.windowStart != 0 && now >= g.windowStart + cfg.windowMs
    ensures var r := ResetWindow(cfg, g, now);
            && r.windowStart == now && c in r.clients
            && var k, k' := g.clients[c], r.clients[c];
               Closed(cfg, k.coreLimit < 100, k.runTime + (k'.charged - k.charged), QuotaOf(cfg, g, k), k')
  {
    var a := LastRecord(cfg, g, now, c);
    SettledCloses(cfg, QuotaOf(cfg, g, g.clients[c]), g.clients[c], a);
  }

  /** The client's record when the window is closed. */
  lemma LastRecord(cfg: Config, g: Gpu, now: nat, c: ClientId) returns (a: Client)
    requires WindowDue(cfg, g, now) && c in g.clients
    ensures var k := g.clients[c];
            && a == k.(charged := a.charged, runStart := a.runStart, runTime := k.runTime + (a.charged - k.charged))
            && ResetWindow(cfg, g, now).clients[c] == CloseWindow(cfg, QuotaOf(cfg, g, k), a)
  {
    var b := g.(windowStart := now);
    a := Accrue(b, now, {}).clients[c];
    AccrueRecord(b, now, c);
    ResetRecord(cfg, g, now, c);
  }

  /** Settling changes nothing but the charge, the usage and the segment of a client. */
  lemma AccrueRecord(g: Gpu, now: nat, c: ClientId)
    requires c in g.clients
    ensures var k, a := g.clients[c], Accrue(g, now, {}).clients[c];
            a == k.(charged := a.charged, runStart := a.runStart, runTime := k.runTime + (a.charged - k.charged))
  {}

  lemma SettledCloses(cfg: Config, quota: int, k: Client, a: Client)
    requires a == k.(charged := a.charged, runStart := a.runStart, runTime := k.runTime + (a.charged - k.charged))
    ensures var k' := CloseWindow(cfg, quota, a);
            Closed(cfg, k.coreLimit < 100, k.runTime + (k'.charged - k.charged), quota, k')
  {
    CloseCloses(cfg, quota, a);
  }

  /** Before that a reset does nothing, but for starting the first window. */
  lemma WindowLasts(cfg: Config, g: Gpu, now: nat)
    requires g.windowStart == 0 || now < g.windowStart + cfg.windowMs
    ensures ResetWindow(cfg, g, now) == if g.windowStart == 0 then g.(windowStart := now) else g
  {}

  /** A grant settles everyone who runs. */
  lemma GrantSettles(g: Gpu, now: nat, c: ClientId)
    requires Listed(g) && Timely(g, now) && g.requests != [] && c in g.clients && c != g.requests[0]
    ensures c in Grant(g, now).clients && Settled(g, Grant(g, now).clients, c, now)
  {
    if g.running != [] { AccrueSettles(g, now, c); }
  }

  /** A runner that leaves makes everyone else settle. */
  lemma ReleaseSettles(cfg: Config, g: Gpu, leaver: ClientId, now: nat, c: ClientId)
    requires Listed(g) && Timely(g, now) && leaver in g.running && c in g.clients && c != leaver
    ensures c in Release(cfg, g, leaver, now).clients && Settled(g, Release(cfg, g, leaver, now).clients, c, now)
  {
    AccrueSettles(g, now, c);
    assert Release(cfg, g, leaver, now).clients[c] == Accrue(g, now, {}).clients[c];
  }

  /** The leaver is charged its open segment, divided by the number of limited runners.  If it
      was told to drop the lock it is charged a percentage of the time since then instead,
      divided by the number of limited runners there were at that time. */
  lemma LeaverIsCharged(cfg: Config, g: Gpu, c: ClientId, now: nat)
    requires Listed(g) && Timely(g, now) && c in g.running
    ensures c in Release(cfg, g, c, now).clients
    ensures var k, k' := g.clients[c], Release(cfg, g, c, now).clients[c];
            var fee, m := k'.charged - k.charged, Max(1, k.dropConcurrency);
            && fee == k'.runTime - k.runTime
            && (!k.pendingDrop ==> fee == (now - k.runStart) / Sharers(g))
            && (k.pendingDrop ==> exists share ::
                  m * share <= now - k.runStart < m * (share + 1) && 100 * fee <= share * cfg.tailPercent < 100 * (fee + 1))
  {
    SharersIs(g);
    LeaverFee(cfg, g, c, now);
    var k := g.clients[c];
    var m, d := Max(1, k.dropConcurrency), now - k.runStart;
    DivBounds(d, m);
    DivBounds(d / m * cfg.tailPercent, 100);
  }

  lemma LeaverFee(cfg: Config, g: Gpu, c: ClientId, now: nat)
    requires Listed(g) && Timely(g, now) && c in g.running
    ensures c in Release(cfg, g, c, now).clients
    ensures var k, k' := g.clients[c], Release(cfg, g, c, now).clients[c];
            var d, fee := now - k.runStart, k'.charged - k.charged;
            && fee == k'.runTime - k.runTime
            && fee == if k.pendingDrop then d / Max(1, k.dropConcurrency) * cfg.tailPercent / 100 else d / Concurrency(g)
  {
    LeaverRecord(cfg, g, c, now);
    LeaveFeeIs(cfg, g.clients[c], Concurrency(g), now);
  }

  lemma LeaverRecord(cfg: Config, g: Gpu, c: ClientId, now: nat)
    requires Listed(g) && c in g.running
    ensures Release(cfg, g, c, now).clients[c] == Leave(g.clients[c], LeaveFee(cfg, g.clients[c], Concurrency(g), now))
  {
    AccrueKeepsConcurrency(g, now, {c});
  }

  lemma LeaveFeeIs(cfg: Config, k: Client, n: int, now: nat)
    requires n >= 1 && k.runStart <= now
    ensures LeaveFee(cfg, k, n, now)
         == if k.pendingDrop then (now - k.runStart) / Max(1, k.dropConcurrency) * cfg.tailPercent / 100 else (now - k.runStart) / n
  {
    var d := now - k.runStart;
    if d == 0 { assert d / n == 0 && d / Max(1, k.dropConcurrency) == 0; }
  }

  // ---------------------------------------------------------------- handlers

  lemma CheckBills(cfg: Config, g: Gpu, now: nat)
    requires Listed(g)
    ensures Bills(g, CheckWaitQueue(cfg, g, now), now)
  {
    if g.waitQueue == [] {
      SameBills(g, g, now);
    } else {
      var w := ResetWindow(cfg, g, now);
      ResetBills(cfg, g, now);
      var i := FirstAdmissible(cfg, w, w.waitQueue);
      if i < |w.waitQueue| {
        SameBills(w, Promote(w, i), now);
        BillsThen(g, w, Promote(w, i), now);
        assert CheckWaitQueue(cfg, g, now) == Promote(w, i);
      } else {
        assert CheckWaitQueue(cfg, g, now) == w;
      }
    }
  }

  lemma PassBills(cfg: Config, g: Gpu, now: nat)
    requires ValidConfig(cfg) && Listed(g)
    ensures Bills(g, Pass(cfg, g, now).0, now)
  {
    var g0 := if g.requests == [] then CheckWaitQueue(cfg, g, now) else g;
    SameBills(g, g, now);
    CheckBills(cfg, g, now);
    if g0.requests != [] {
      HeadBills(cfg, g0, now);
      var w := ResetWindow(cfg, g0, now);
      assert Pass(cfg, g, now).0 == if Admissible(cfg, w, w.requests[0]) then Grant(w, now) else MoveToWaitQueue(w);
      BillsThen(g, g0, Pass(cfg, g, now).0, now);
    }
  }

  lemma HeadBills(cfg: Config, g: Gpu, now: nat)
    requires Listed(g) && g.requests != []
    ensures var w := ResetWindow(cfg, g, now);
            Bills(g, if Admissible(cfg, w, w.requests[0]) then Grant(w, now) else MoveToWaitQueue(w), now)
  {
    var w := ResetWindow(cfg, g, now);
    ResetBills(cfg, g, now);
    if Admissible(cfg, w, w.requests[0]) {
      GrantBills(w, now);
      BillsThen(g, w, Grant(w, now), now);
    } else {
      SameBills(w, MoveToWaitQueue(w), now);
      BillsThen(g, w, MoveToWaitQueue(w), now);
    }
  }

  lemma {:induction false} RoundBills(cfg: Config, g: Gpu, now: nat)
    requires ValidConfig(cfg) && Listed(g)
    ensures Bills(g, TrySchedule(cfg, g, now), now)
    decreases |g.requests| + |g.waitQueue|, |g.requests|
  {
    PassBills(cfg, g, now);
    var (r, done) := Pass(cfg, g, now);
    if !done {
      RoundBills(cfg, r, now);
      BillsThen(g, r, TrySchedule(cfg, r, now), now);
    }
  }

  lemma RemoveReqBills(cfg: Config, g: Gpu, c: ClientId, now: nat)
    requires ValidConfig(cfg) && Listed(g) && c in g.clients
    ensures Bills(g, RemoveReq(cfg, g, c, now), now)
  {
    var g1 := Release(cfg, g, c, now);
    ReleaseBillsAll(cfg, g, c, now);
    if g1.running == [] {
      var q := CheckWaitQueue(cfg, g1, now);
      CheckBills(cfg, g1, now);
      RoundBills(cfg, q, now);
      var g2 := TrySchedule(cfg, q, now);
      BillsThen(g, g1, q, now);
      BillsThen(g, q, g2, now);
      ForgetBills(g, g2, c, now);
    } else {
      ForgetBills(g, g1, c, now);
    }
  }

  lemma ForgetBills(g: Gpu, h: Gpu, c: ClientId, now: nat)
    requires Bills(g, h, now)
    ensures Bills(g, Forget(h, c), now)
  {
    SameBills(h, Forget(h, c), now);
    BillsThen(g, h, Forget(h, c), now);
  }

  lemma RequestBills(cfg: Config, g: Gpu, c: ClientId, now: nat)
    requires ValidConfig(cfg) && Listed(g) && c in g.clients && c !in g.waitQueue && c !in g.running
    ensures Bills(g, OnReqLock(cfg, g, c, now), now)
  {
    var q := InsertReq(g, c);
    InsertBills(g, c, now);
    if !(cfg.mode == Serial && g.lockHeld) {
      RoundBills(cfg, q, now);
      BillsThen(g, q, TrySchedule(cfg, q, now), now);
    }
  }

  lemma InsertBills(g: Gpu, c: ClientId, now: nat)
    requires Listed(g) && c in g.clients && c !in g.waitQueue && c !in g.running
    ensures Listed(InsertReq(g, c)) && Bills(g, InsertReq(g, c), now)
  {
    SameBills(g, InsertReq(g, c), now);
  }

  lemma ReleasedBills(cfg: Config, g: Gpu, c: ClientId, now: nat)
    requires ValidConfig(cfg) && Listed(g) && c in g.clients
    ensures Bills(g, OnLockReleased(cfg, g, c, now), now)
  {
    var q := RemoveReq(cfg, g, c, now);
    RemoveReqBills(cfg, g, c, now);
    if !q.lockHeld {
      RoundBills(cfg, q, now);
      BillsThen(g, q, TrySchedule(cfg, q, now), now);
    }
  }

  lemma MemUpdateBills(cfg: Config, g: Gpu, c: ClientId, usage: nat, now: nat)
    requires c in g.clients
    ensures Bills(g, OnMemUpdate(cfg, g, c, usage, now), now)
  {
    var r := OnMemUpdate(cfg, g, c, usage, now);
    forall d | d in g.clients ensures SameBill(g.clients[d], r.clients[d]) {
      MemUpdateSpares(cfg, g, c, usage, now, d);
    }
    SameBills(g, r, now);
  }

  lemma MemUpdateSpares(cfg: Config, g: Gpu, c: ClientId, usage: nat, now: nat, d: ClientId)
    requires c in g.clients && d in g.clients
    ensures d in OnMemUpdate(cfg, g, c, usage, now).clients
    ensures SameBill(g.clients[d], OnMemUpdate(cfg, g, c, usage, now).clients[d])
  {
    var k := g.clients[d].(memory := if d == c then usage else g.clients[d].memory);
    var k' := OnMemUpdate(cfg, g, c, usage, now).clients[d];
    assert k' == k || k' == Preempt(k, now);
  }

  lemma TimerWindowBills(cfg: Config, g: Gpu, now: nat)
    requires ValidConfig(cfg) && Listed(g)
    ensures Bills(g, TimerWindow(cfg, g, now), now)
  {
    var w := ResetWindow(cfg, g, now);
    ResetBills(cfg, g, now);
    if WindowDue(cfg, g, now) {
      RoundBills(cfg, w, now);
      BillsThen(g, w, TrySchedule(cfg, w, now), now);
    }
  }

  /** A rotation charges nobody. */
  lemma TimerWakeBills(cfg: Config, g: Gpu, fullQuantum: bool, now: nat)
    requires Listed(g)
    ensures var r := TimerWake(cfg, g, fullQuantum, now); r.billed == g.billed + Gains(g, r.clients)
  {
    var t, r := Throttle(cfg, g, now), TimerWake(cfg, g, fullQuantum, now);
    ThrottleBills(cfg, g, now);
    WakeCharges(cfg, g, fullQuantum, now);
    SameDues(g, t.clients, r.clients);
  }

  lemma SameDues(g: Gpu, r: map<ClientId, Client>, r': map<ClientId, Client>)
    requires r.Keys == r'.Keys && forall c :: c in r ==> r'[c].charged == r[c].charged
    ensures Gains(g, r') == Gains(g, r)
  {
    assert Dues(g, r') == Dues(g, r);
  }

  lemma WakeCharges(cfg: Config, g: Gpu, fullQuantum: bool, now: nat)
    ensures var t, r := Throttle(cfg, g, now), TimerWake(cfg, g, fullQuantum, now);
            r.billed == t.billed && forall c :: c in t.clients ==> r.clients[c].charged == t.clients[c].charged
  {
    var t, r := Throttle(cfg, g, now), TimerWake(cfg, g, fullQuantum, now);
    assert r == t || r == Rotate(t, now);
    forall c | c in t.clients ensures r.clients[c].charged == t.clients[c].charged {
      RotateCharges(t, c, now);
    }
  }

  lemma RotateCharges(g: Gpu, c: ClientId, now: nat)
    requires c in g.clients
    ensures Rotate(g, now).clients[c].charged == g.clients[c].charged && Rotate(g, now).billed == g.billed
  {}

  // ---------------------------------------------------------------- steps and runs

  /** Everyone's record after a step; that of a client that leaves, before it is deleted. */
  ghost function Records(cfg: Config, s: Sys, step: Step): map<ClientId, Client>
    requires SysInv(cfg, s) && Enabled(cfg, s, step)
  {
    var after := NextGpu(cfg, s, step).clients;
    if step.act.Goes?
    then after[step.act.c := RemoveReq(cfg, s.gpu, step.act.c, step.at).clients[step.act.c]]
    else after
  }

  lemma GoesBills(cfg: Config, g: Gpu, c: ClientId, now: nat)
    requires ValidConfig(cfg) && Listed(g) && c in g.clients && OnDisconnect(cfg, g, c, now).Gone?
    ensures var r := OnDisconnect(cfg, g, c, now).gpu;
            r.billed == g.billed + Gains(g, r.clients[c := RemoveReq(cfg, g, c, now).clients[c]])
  {
    var g1 := RemoveReq(cfg, g, c, now);
    RemoveReqBills(cfg, g, c, now);
    var u := Unregister(g1, c);
    SameBills(u, u, now);
    if !u.lockHeld { RoundBills(cfg, u, now); }
    DeletedBills(g, g1, OnDisconnect(cfg, g, c, now).gpu, c, now);
  }

  lemma DeletedDue(g: Gpu, g1: Gpu, r: Gpu, c: ClientId, now: nat, d: ClientId)
    requires Listed(g1) && c in g1.clients && c !in g1.requests && c !in g1.waitQueue && c !in g1.running && d in g.clients
    requires Bills(g, g1, now) && Bills(Unregister(g1, c), r, now)
    ensures At(Dues(g, r.clients[c := g1.clients[c]]), d) == At(Dues(g, g1.clients), d) + At(Dues(Unregister(g1, c), r.clients), d)
  {
    var u, last := Unregister(g1, c), r.clients[c := g1.clients[c]];
    DueIs(g, last, d);
    DueIs(g, g1.clients, d);
    DueIs(u, r.clients, d);
    if d != c {
      assert ActiveRunner(u, d) == ActiveRunner(g1, d) && u.clients[d] == g1.clients[d];
      if ActiveRunner(g, d) != ActiveRunner(g1, d) {
        assert Still(g1, d, now);
        assert Still(u, d, now);
      }
    }
  }

  lemma DueIs(g: Gpu, r: map<ClientId, Client>, c: ClientId)
    ensures At(Dues(g, r), c) == if c in r && ActiveRunner(g, c) then r[c].charged - g.clients[c].charged else 0
  {}

  lemma DeletedBills(g: Gpu, g1: Gpu, r: Gpu, c: ClientId, now: nat)
    requires Listed(g) && Listed(g1) && c in g.clients && c !in g1.requests && c !in g1.waitQueue && c !in g1.running
    requires Bills(g, g1, now) && Bills(Unregister(g1, c), r, now)
    ensures r.billed == g.billed + Gains(g, r.clients[c := g1.clients[c]])
  {
    var u := Unregister(g1, c);
    var last := r.clients[c := g1.clients[c]];
    forall d | d in g.order
      ensures At(Dues(g, last), d) == At(Dues(g, g1.clients), d) + At(Dues(u, r.clients), d)
    {
      DeletedDue(g, g1, r, c, now, d);
    }
    TotalAdds(g.order, Dues(g, g1.clients), Dues(u, r.clients), Dues(g, last));
    TotalWithout(g.order, c, Dues(u, r.clients));
  }

  lemma SchedulerStepBills(cfg: Config, s: Sys, step: Step)
    requires SysInv(cfg, s) && Enabled(cfg, s, step)
    requires step.act.Reads? || step.act.TimerTop? || step.act.TimerBottom? || step.act.Goes?
    ensures NextGpu(cfg, s, step).billed == s.gpu.billed + Gains(s.gpu, Records(cfg, s, step))
  {
    var g, now := s.gpu, step.at;
    match step.act
    case Reads(c) => HandleBills(cfg, s, c, now);
    case TimerTop => TimerWindowBills(cfg, g, now);
    case TimerBottom(fullQuantum) => TimerWakeBills(cfg, g, fullQuantum, now);
    case Goes(c) => GoesBills(cfg, g, c, now);
  }

  lemma HandleBills(cfg: Config, s: Sys, c: ClientId, now: nat)
    requires ValidConfig(cfg) && Listed(s.gpu) && Protocol(s.gpu, s.apps)
    requires c in s.apps && s.apps[c].outbox != []
    ensures Bills(s.gpu, Handle(cfg, s, c, now), now)
  {
    match s.apps[c].outbox[0]
    case ReqLock => RequestIsFresh(s.gpu, s.apps, c); RequestBills(cfg, s.gpu, c, now);
    case LockReleased => ReleasedBills(cfg, s.gpu, c, now);
    case MemUpdate(usage) => MemUpdateBills(cfg, s.gpu, c, usage, now);
  }

  lemma OutsideBills(cfg: Config, s: Sys, step: Step)
    requires SysInv(cfg, s) && Enabled(cfg, s, step)
    requires !step.act.Reads? && !step.act.TimerTop? && !step.act.TimerBottom? && !step.act.Goes?
    ensures NextGpu(cfg, s, step).billed == s.gpu.billed + Gains(s.gpu, Records(cfg, s, step))
  {
    OutsideCharges(cfg, s, step);
    NothingCharged(s.gpu, Outside(cfg, s, step));
    assert NextGpu(cfg, s, step) == Outside(cfg, s, step);
  }

  lemma OutsideCharges(cfg: Config, s: Sys, step: Step)
    requires ValidConfig(cfg) && Listed(s.gpu) && Enabled(cfg, s, step)
    ensures var g, r := s.gpu, Outside(cfg, s, step);
            r.billed == g.billed && forall c :: c in g.clients && c in r.clients ==> r.clients[c].charged == g.clients[c].charged
  {}

  lemma NothingCharged(g: Gpu, r: Gpu)
    requires forall c :: c in g.clients && c in r.clients ==> r.clients[c].charged == g.clients[c].charged
    ensures Gains(g, r.clients) == 0
  {
    NothingDue(g.order, Dues(g, r.clients));
  }

  /** In every step, whatever it is, the counter grows by what was charged in that step to the
      limited runners that had no drop pending. */
  lemma StepBills(cfg: Config, s: Sys, step: Step)
    requires SysInv(cfg, s) && Enabled(cfg, s, step)
    ensures NextGpu(cfg, s, step).billed == s.gpu.billed + Gains(s.gpu, Records(cfg, s, step))
  {
    if step.act.Reads? || step.act.TimerTop? || step.act.TimerBottom? || step.act.Goes? {
      SchedulerStepBills(cfg, s, step);
    } else {
      OutsideBills(cfg, s, step);
    }
  }

  /** What a run charges, step by step, to limited runners with no drop pending. */
  ghost function Charged(cfg: Config, s: Sys, steps: seq<Step>): int
    requires SysInv(cfg, s) && IsRun(cfg, s, steps)
    decreases |steps|
  {
    if steps == [] then 0 else
      NextKeepsSysInv(cfg, s, steps[0]);
      Gains(s.gpu, Records(cfg, s, steps[0])) + Charged(cfg, Next(cfg, s, steps[0]), steps[1..])
  }

  /** Over every run the counter grows by what the run charged. */
  lemma {:induction false} BilledIsCharged(cfg: Config, s: Sys, steps: seq<Step>)
    requires SysInv(cfg, s) && IsRun(cfg, s, steps)
    ensures Run(cfg, s, steps).gpu.billed == s.gpu.billed + Charged(cfg, s, steps)
    decreases |steps|
  {
    if steps != [] {
      StepBills(cfg, s, steps[0]);
      NextKeepsSysInv(cfg, s, steps[0]);
      BilledIsCharged(cfg, Next(cfg, s, steps[0]), steps[1..]);
    }
  }
}
