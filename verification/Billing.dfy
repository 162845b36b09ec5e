/** Concurrency-weighted billing: the charges made to the quota-limited clients of a GPU,
    drop tails aside, never exceed the wall time that passed. */
module Billing {
  import opened Lists
  import opened GpuModel
  import opened Sums
  import opened Arith

  ghost predicate Timely(g: Gpu, now: nat) {
    && 0 < now && g.windowStart <= now
    && (forall c :: c in g.running && c in g.clients ==> 0 < g.clients[c].runStart <= now)
  }

  function LimitedCount(g: Gpu): int { Weigh(g.running, g.clients, Limited) }

  /** The time that the segments of the active runners last, added up. */
  function OpenTime(g: Gpu, now: nat): int { Weigh(g.running, g.clients, Open(now)) }

  /** The wall time since t0 that nobody was charged for. */
  function Unbilled(g: Gpu, t0: int, now: nat): int { now - t0 - g.billed }

  predicate ActiveRunner(g: Gpu, c: ClientId) {
    c in g.running && c in g.clients && IsActive(g.clients[c])
  }

  /** What settling everyone at t would bill: shares of the open segments, rounded down. */
  function Shares(g: Gpu, t: nat): int { Weigh(g.running, g.clients, Share(t, Concurrency(g))) }

  /** Whenever the active runners are settled from now on, wall time pays for it. */
  ghost predicate Solvent(g: Gpu, t0: int, now: nat) {
    forall t: nat :: now <= t ==> Shares(g, t) <= Unbilled(g, t0, t)
  }

  /** Wall time covers what is billed and the open segments at their shares, not rounded.
      This can be told from the present alone; it is more than being solvent. */
  predicate Covered(g: Gpu, t0: int, now: nat) {
    && 0 <= Unbilled(g, t0, now)
    && OpenTime(g, now) <= LimitedCount(g) * Unbilled(g, t0, now)
  }

  /** All active runners opened their segment at the same time. */
  ghost predicate SharedStart(g: Gpu) {
    forall c, d :: ActiveRunner(g, c) && ActiveRunner(g, d) ==> g.clients[c].runStart == g.clients[d].runStart
  }

  /** r is solvent, and if the start is shared in g it is in r. */
  ghost predicate Carries(g: Gpu, r: Gpu, t0: int, now: nat) {
    Solvent(r, t0, now) && (SharedStart(g) ==> SharedStart(r))
  }

  /** Every segment starts now. */
  ghost predicate Fresh(g: Gpu, now: nat) {
    forall c :: ActiveRunner(g, c) ==> g.clients[c].runStart == now
  }

  // ---------------------------------------------------------------- open time

  lemma {:induction false} OpenLater(s: seq<ClientId>, m: map<ClientId, Client>, now: nat, later: nat)
    ensures Weigh(s, m, Open(later)) == Weigh(s, m, Open(now)) + Weigh(s, m, Active) * (later - now)
  {
    if s != [] {
      OpenLater(s[..|s| - 1], m, now, later);
      Distribute(later - now, Weigh(s[..|s| - 1], m, Active), 1);
    }
  }

  /** Time passing keeps the charges covered: at most all limited runners are active. */
  lemma CoveredLater(g: Gpu, t0: int, now: nat, later: nat)
    requires now <= later && Covered(g, t0, now)
    ensures Covered(g, t0, later)
  {
    WeighBounds(g.running, g.clients);
    OpenLater(g.running, g.clients, now, later);
    MulLe(Weigh(g.running, g.clients, Active), LimitedCount(g), later - now);
    Distribute(LimitedCount(g), Unbilled(g, t0, now), later - now);
  }

  lemma {:induction false} NoOpenTime(s: seq<ClientId>, m: map<ClientId, Client>, now: nat)
    requires forall c :: c in s && c in m && IsActive(m[c]) ==> m[c].runStart == now
    ensures Weigh(s, m, Open(now)) == 0
  {
    if s != [] {
      NoOpenTime(s[..|s| - 1], m, now);
    }
  }

  /** With every segment started right now, it is enough that nothing is billed too much. */
  lemma FreshIsSolvent(g: Gpu, r: Gpu, t0: int, now: nat)
    requires 0 <= Unbilled(r, t0, now) && Fresh(r, now)
    ensures Carries(g, r, t0, now)
  {
    WeighBounds(r.running, r.clients);
    forall c | c in r.running && c in r.clients && IsActive(r.clients[c]) ensures r.clients[c].runStart == now {
      assert ActiveRunner(r, c);
    }
    NoOpenTime(r.running, r.clients, now);
    MulLe(0, Unbilled(r, t0, now), LimitedCount(r));
    CoveredIsSolvent(r, t0, now);
  }

  /** Client k' is active only if k is, and then with the same segment. */
  predicate Continues(k: Client, k': Client) {
    IsActive(k') ==> IsActive(k) && k'.runStart == k.runStart
  }

  lemma {:induction false} LessShares(s: seq<ClientId>, m: map<ClientId, Client>, m': map<ClientId, Client>, t: nat, n: int)
    requires n >= 1 && forall c :: c in s ==> c in m && c in m' && Continues(m[c], m'[c])
    ensures Weigh(s, m', Share(t, n)) <= Weigh(s, m, Share(t, n))
  {
    if s != [] {
      LessShares(s[..|s| - 1], m, m', t, n);
      var k := m[s[|s| - 1]];
      if Billable(k, t) { DivBounds(t - k.runStart, n); }
    }
  }

  /** Steps that bill nothing and leave the runners' segments alone; a drop may become
      pending, which moves the runner's segment to its drop tail. */
  lemma SameSegments(g: Gpu, g': Gpu, t0: int, now: nat)
    requires Solvent(g, t0, now)
    requires g'.running == g.running && g'.billed == g.billed
    requires forall c :: c in g.running ==> c in g.clients && c in g'.clients
    requires forall c :: c in g.running ==>
               g'.clients[c].coreLimit == g.clients[c].coreLimit && Continues(g.clients[c], g'.clients[c])
    ensures Carries(g, g', t0, now)
  {
    SameWeights(g.running, g.clients, g'.clients, Limited);
    forall t: nat | now <= t ensures Shares(g', t) <= Unbilled(g', t0, t) {
      LessShares(g.running, g.clients, g'.clients, t, Concurrency(g));
      assert Shares(g, t) <= Unbilled(g, t0, t);
    }
    assert forall c :: ActiveRunner(g', c) ==> ActiveRunner(g, c);
  }

  // ---------------------------------------------------------------- settling

  /** Shares rounded down cost no more than the time they are shares of. */
  lemma {:induction false} SharesCost(s: seq<ClientId>, m: map<ClientId, Client>, n: int, now: nat)
    requires n >= 1 && forall c :: c in s && c in m && IsActive(m[c]) ==> m[c].runStart <= now
    ensures n * Weigh(s, m, Share(now, n)) <= Weigh(s, m, Open(now))
  {
    if s != [] {
      var front, last := s[..|s| - 1], s[|s| - 1];
      SharesCost(front, m, n, now);
      if last in m {
        ShareCost(m[last], n, now);
        Distribute(n, Weigh(front, m, Share(now, n)), Weight(m[last], Share(now, n)));
      }
    }
  }

  lemma ShareCost(k: Client, n: int, now: nat)
    requires n >= 1 && (IsActive(k) ==> k.runStart <= now)
    ensures n * Weight(k, Share(now, n)) <= Weight(k, Open(now))
  {
    DivBounds(now - k.runStart, n);
  }

  /** What is covered at the shares of n runners can be paid. */
  lemma Payable(g: Gpu, t0: int, now: nat, cost: int)
    requires Covered(g, t0, now) && Concurrency(g) * cost <= OpenTime(g, now)
    ensures cost <= Unbilled(g, t0, now)
  {
    var n, u := LimitedCount(g), Unbilled(g, t0, now);
    WeighBounds(g.running, g.clients);
    if n >= 1 { CancelLe(n, cost, u); }
  }

  /** Settling every active runner is covered. */
  lemma AccrueCovered(g: Gpu, t0: int, now: nat)
    requires Covered(g, t0, now) && forall c :: ActiveRunner(g, c) ==> g.clients[c].runStart <= now
    ensures Shares(g, now) <= Unbilled(g, t0, now)
  {
    forall c | c in g.running && c in g.clients && IsActive(g.clients[c]) ensures g.clients[c].runStart <= now {
      assert ActiveRunner(g, c);
    }
    SharesCost(g.running, g.clients, Concurrency(g), now);
    Payable(g, t0, now, Shares(g, now));
  }

  /** Covered charges can be settled at any time. */
  lemma CoveredIsSolvent(g: Gpu, t0: int, now: nat)
    requires Covered(g, t0, now) && forall c :: ActiveRunner(g, c) ==> g.clients[c].runStart <= now
    ensures Solvent(g, t0, now)
  {
    forall t: nat | now <= t ensures Shares(g, t) <= Unbilled(g, t0, t) {
      CoveredLater(g, t0, now, t);
      AccrueCovered(g, t0, t);
    }
  }

  lemma {:induction false} SharesNonNegative(s: seq<ClientId>, m: map<ClientId, Client>, t: nat, n: int)
    ensures 0 <= Weigh(s, m, Share(t, n))
  {
    if s != [] {
      SharesNonNegative(s[..|s| - 1], m, t, n);
      var c := s[|s| - 1];
      if c in m && n > 0 && Billable(m[c], t) { DivBounds(t - m[c].runStart, n); }
    }
  }

  /** Nothing is billed too much in a solvent state. */
  lemma SolventNow(g: Gpu, t0: int, now: nat)
    requires Solvent(g, t0, now)
    ensures 0 <= Shares(g, now) <= Unbilled(g, t0, now)
  {
    SharesNonNegative(g.running, g.clients, now, Concurrency(g));
  }

  lemma AccrueConserves(g: Gpu, t0: int, now: nat)
    requires Listed(g) && Timely(g, now) && Solvent(g, t0, now)
    ensures var a := Accrue(g, now, {}); 0 <= Unbilled(a, t0, now) && Fresh(a, now)
  {
    var a := Accrue(g, now, {});
    assert g.clients - {} == g.clients;
    SolventNow(g, t0, now);
    assert a.billed == g.billed + Shares(g, now);
    forall d | ActiveRunner(a, d) ensures a.clients[d].runStart == now {
      assert ActiveRunner(g, d);
    }
  }

  lemma ResetConserves(cfg: Config, g: Gpu, t0: int, now: nat)
    requires ValidConfig(cfg) && Listed(g) && Timely(g, now) && Solvent(g, t0, now)
    ensures Carries(g, ResetWindow(cfg, g, now), t0, now)
  {
    var r := ResetWindow(cfg, g, now);
    if WindowDue(cfg, g, now) {
      CloseIsFresh(cfg, g, t0, now);
      FreshIsSolvent(g, r, t0, now);
    } else {
      SameSegments(g, r, t0, now);
    }
  }

  lemma CloseIsFresh(cfg: Config, g: Gpu, t0: int, now: nat)
    requires ValidConfig(cfg) && Listed(g) && Timely(g, now) && Solvent(g, t0, now) && WindowDue(cfg, g, now)
    ensures var r := ResetWindow(cfg, g, now); 0 <= Unbilled(r, t0, now) && Fresh(r, now)
  {
    var b := g.(windowStart := now);
    SameSegments(g, b, t0, now);
    AccrueConserves(b, t0, now);
    var r, a := ResetWindow(cfg, g, now), Accrue(b, now, {});
    forall c | ActiveRunner(r, c) ensures r.clients[c].runStart == now {
      assert ActiveRunner(a, c);
    }
  }

  lemma GrantConserves(g: Gpu, t0: int, now: nat)
    requires g.requests != [] && Listed(g) && Timely(g, now) && Solvent(g, t0, now)
    ensures Carries(g, Grant(g, now), t0, now)
  {
    var r := Grant(g, now);
    if g.running != [] {
      AccrueConserves(g, t0, now);
      var a := Accrue(g, now, {});
      forall d | ActiveRunner(r, d) ensures r.clients[d].runStart == now {
        if d != g.requests[0] {
          assert ActiveRunner(a, d);
        }
      }
    }
    SolventNow(g, t0, now);
    FreshIsSolvent(g, r, t0, now);
  }

  // ---------------------------------------------------------------- leaving

  function FeeAt(g: Gpu, c: ClientId, now: nat): int
    requires c in g.clients
  {
    (now - g.clients[c].runStart) / Concurrency(g)
  }

  /** The leaver is settled apart from the others, and together they cost what settling
      everyone costs. */
  lemma LeaveCosts(g: Gpu, c: ClientId, now: nat)
    requires Listed(g) && Timely(g, now) && c in g.running
    ensures Accrue(g, now, {c}).billed + (if ActiveRunner(g, c) then FeeAt(g, c, now) else 0) == g.billed + Shares(g, now)
  {
    WeighExclude(g.running, c, g.clients, Share(now, Concurrency(g)));
    if g.clients[c].runStart == now {
      assert FeeAt(g, c, now) == 0;
    }
  }

  lemma AccrueKeepsConcurrency(g: Gpu, now: nat, exclude: set<ClientId>)
    ensures Concurrency(Accrue(g, now, exclude)) == Concurrency(g)
  {
    SameWeights(g.running, g.clients, Accrue(g, now, exclude).clients, Limited);
  }

  /** A runner that leaves bills what settling everyone costs. */
  lemma ReleaseBills(cfg: Config, g: Gpu, c: ClientId, now: nat)
    requires Listed(g) && Timely(g, now) && c in g.running
    ensures Release(cfg, g, c, now).billed == g.billed + Shares(g, now)
  {
    var a := Accrue(g, now, {c});
    LeaverUnsettled(g, c, now);
    TakeOffBills(cfg, a, c, now);
    assert Release(cfg, g, c, now) == TakeOff(cfg, a, c, now);
    LeaveCosts(g, c, now);
  }

  /** The others are settled first; that changes neither the leaver's record nor its fee. */
  lemma LeaverUnsettled(g: Gpu, c: ClientId, now: nat)
    requires c in g.clients
    ensures var a := Accrue(g, now, {c}); c in a.clients && a.clients[c] == g.clients[c] && FeeAt(a, c, now) == FeeAt(g, c, now)
  {
    AccrueKeepsConcurrency(g, now, {c});
  }

  lemma TakeOffBills(cfg: Config, g: Gpu, c: ClientId, now: nat)
    requires c in g.clients && g.clients[c].runStart <= now
    ensures TakeOff(cfg, g, c, now).billed == g.billed + (if IsActive(g.clients[c]) then FeeAt(g, c, now) else 0)
  {
    var k := g.clients[c];
    if IsActive(k) {
      assert LeaveFee(cfg, k, Concurrency(g), now) == (now - k.runStart) / Concurrency(g);
    }
  }

  lemma ReleaseIsFresh(cfg: Config, g: Gpu, c: ClientId, now: nat)
    requires Listed(g) && Timely(g, now) && c in g.running
    ensures Fresh(Release(cfg, g, c, now), now)
  {
    var r := Release(cfg, g, c, now);
    forall d | ActiveRunner(r, d) ensures r.clients[d].runStart == now {
      assert ActiveRunner(g, d) && d != c;
    }
  }

  lemma ReleaseConserves(cfg: Config, g: Gpu, c: ClientId, t0: int, now: nat)
    requires Listed(g) && c in g.clients && Timely(g, now) && Solvent(g, t0, now)
    ensures Carries(g, Release(cfg, g, c, now), t0, now)
  {
    if c in g.running {
      SolventNow(g, t0, now);
      ReleaseBills(cfg, g, c, now);
      ReleaseIsFresh(cfg, g, c, now);
      FreshIsSolvent(g, Release(cfg, g, c, now), t0, now);
    } else {
      SameSegments(g, Release(cfg, g, c, now), t0, now);
    }
  }

  // ---------------------------------------------------------------- throttling

  lemma CutShare(k: Client, k': Client, hit: bool, n: int, now: nat, t: nat)
    requires n >= 1 && 0 < k.runStart <= now <= t
    requires if hit then IsActive(k) && !IsActive(k') else k' == k
    ensures (if hit then Weight(k, Segment(now, n)) else 0) + Weight(k', Share(t, n)) <= Weight(k, Share(t, n))
  {
    if hit {
      DivMonotone(now - k.runStart, t - k.runStart, n);
    }
  }

  /** Runners that are throttled are charged no more than they would be later. */
  lemma {:induction false} CutShares(s: seq<ClientId>, m: map<ClientId, Client>, m': map<ClientId, Client>,
                                     hit: set<ClientId>, n: int, now: nat, t: nat)
    requires n >= 1 && now <= t && forall c :: c in s ==> c in m && c in m' && 0 < m[c].runStart <= now
    requires forall c :: c in s ==> if c in hit then IsActive(m[c]) && !IsActive(m'[c]) else m'[c] == m[c]
    ensures Weigh(s, map c | c in m && c in hit :: m[c], Segment(now, n)) + Weigh(s, m', Share(t, n)) <= Weigh(s, m, Share(t, n))
  {
    if s != [] {
      var front, last := s[..|s| - 1], s[|s| - 1];
      CutShares(front, m, m', hit, n, now, t);
      CutShare(m[last], m'[last], last in hit, n, now, t);
    }
  }

  lemma ThrottleConserves(cfg: Config, g: Gpu, t0: int, now: nat)
    requires Listed(g) && Timely(g, now) && Solvent(g, t0, now)
    ensures Carries(g, Throttle(cfg, g, now), t0, now)
  {
    var r, n := Throttle(cfg, g, now), Concurrency(g);
    SameWeights(g.running, g.clients, r.clients, Limited);
    forall t: nat | now <= t ensures Shares(r, t) <= Unbilled(r, t0, t) {
      CutShares(g.running, g.clients, r.clients, OverrunRunners(cfg, g, now), n, now, t);
      assert Shares(g, t) <= Unbilled(g, t0, t);
    }
    assert forall c :: ActiveRunner(r, c) ==> ActiveRunner(g, c) && r.clients[c].runStart == g.clients[c].runStart;
  }

  lemma RotateConserves(g: Gpu, t0: int, now: nat)
    requires Listed(g) && Solvent(g, t0, now)
    ensures Carries(g, Rotate(g, now), t0, now)
  {
    SameSegments(g, Rotate(g, now), t0, now);
  }
}
