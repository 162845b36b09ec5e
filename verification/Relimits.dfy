/** Changes of a core limit while its client runs: exactly when the state stays solvent. */
module Relimits {
  import opened Lists
  import opened GpuModel
  import opened Sums
  import opened Billing
  import opened Arith

  /** The change gives a limit to a runner that has none, or takes it away. */
  predicate Crosses(g: Gpu, c: ClientId, limit: int) {
    c in g.running && c in g.clients && (IsLimited(g.clients[c]) <==> limit >= 100)
  }

  /** A sum in which one client's record changed. */
  lemma OneWeight(s: seq<ClientId>, c: ClientId, m: map<ClientId, Client>, m': map<ClientId, Client>, what: Measure)
    requires Distinct(s) && c in s && c in m && c in m' && m' == m[c := m'[c]]
    ensures Weigh(s, m', what) - Weigh(s, m, what) == Weight(m'[c], what) - Weight(m[c], what)
  {
    WeighExclude(s, c, m, what);
    WeighExclude(s, c, m', what);
    assert m - {c} == m' - {c};
  }

  /** What the change adds to a sum over the running list. */
  lemma RelimitAdds(g: Gpu, c: ClientId, limit: int, what: Measure)
    requires Listed(g) && c in g.clients
    ensures var r := SetCoreLimit(g, c, limit);
            Weigh(r.running, r.clients, what) - Weigh(g.running, g.clients, what)
            == if c in g.running then Weight(r.clients[c], what) - Weight(g.clients[c], what) else 0
  {
    var r := SetCoreLimit(g, c, limit);
    if c in g.running {
      OneWeight(g.running, c, g.clients, r.clients, what);
    } else {
      SameWeights(g.running, g.clients, r.clients, what);
    }
  }

  // ---------------------------------------------------------------- the time that is needed

  function ActiveCount(g: Gpu): int { Weigh(g.running, g.clients, Active) }

  lemma {:induction false} ShareLater(s: seq<ClientId>, m: map<ClientId, Client>, t: nat, n: nat)
    requires n >= 1 && forall c :: c in s && c in m ==> 0 < m[c].runStart <= t
    ensures Weigh(s, m, Share(t + n, n)) == Weigh(s, m, Share(t, n)) + Weigh(s, m, Active)
  {
    if s != [] {
      ShareLater(s[..|s| - 1], m, t, n);
      var c := s[|s| - 1];
      if c in m && IsActive(m[c]) {
        DivAdd(t - m[c].runStart, 1, n);
      }
    }
  }

  /** In n ms, n being the number of limited runners, the shares grow by at most n. */
  lemma SharesLater(g: Gpu, t: nat)
    requires Timely(g, t)
    ensures Shares(g, t + Concurrency(g)) <= Shares(g, t) + Concurrency(g)
  {
    ShareLater(g.running, g.clients, t, Concurrency(g));
    WeighBounds(g.running, g.clients);
  }

  /** The unbilled time that settling within the next k ms needs. */
  function NeedWithin(g: Gpu, now: nat, k: nat): int {
    var last := Shares(g, now + k) - k;
    if k == 0 then last else Max(NeedWithin(g, now, k - 1), last)
  }

  /** The unbilled time that a state needs: what settling needs within as many ms as there
      are limited runners.  The scheduler's own fields tell it. */
  function Need(g: Gpu, now: nat): int { NeedWithin(g, now, Concurrency(g) - 1) }

  lemma {:induction false} NeedWithinIs(g: Gpu, now: nat, k: nat, u: int)
    ensures NeedWithin(g, now, k) <= u <==> forall t: nat :: now <= t <= now + k ==> Shares(g, t) <= u + (t - now)
  {
    if k > 0 {
      NeedWithinIs(g, now, k - 1, u);
    }
  }

  lemma {:induction false} NeedLasts(g: Gpu, t0: int, now: nat, t: nat)
    requires Timely(g, now) && Need(g, now) <= Unbilled(g, t0, now) && now <= t
    ensures Shares(g, t) <= Unbilled(g, t0, t)
    decreases t
  {
    var n := Concurrency(g);
    if t < now + n {
      NeedWithinIs(g, now, n - 1, Unbilled(g, t0, now));
    } else {
      NeedLasts(g, t0, now, t - n);
      SharesLater(g, t - n);
    }
  }

  /** A state is solvent if and only if the unbilled time is what it needs; a look as many ms
      ahead as there are limited runners is enough. */
  lemma SolventExactly(g: Gpu, t0: int, now: nat)
    requires Timely(g, now)
    ensures Solvent(g, t0, now) <==> Need(g, now) <= Unbilled(g, t0, now)
  {
    if Need(g, now) <= Unbilled(g, t0, now) {
      forall t: nat | now <= t ensures Shares(g, t) <= Unbilled(g, t0, t) {
        NeedLasts(g, t0, now, t);
      }
    }
    if Solvent(g, t0, now) {
      NeedWithinIs(g, now, Concurrency(g) - 1, Unbilled(g, t0, now));
    }
  }

  // ---------------------------------------------------------------- changes

  lemma RelimitTimely(g: Gpu, c: ClientId, limit: int, now: nat)
    requires Timely(g, now) && c in g.clients
    ensures Timely(SetCoreLimit(g, c, limit), now)
  {}

  /** A change that makes no runner gain or lose its limit changes no share. */
  lemma SameShares(g: Gpu, c: ClientId, limit: int, t: nat)
    requires Listed(g) && c in g.clients && !Crosses(g, c, limit)
    ensures Shares(SetCoreLimit(g, c, limit), t) == Shares(g, t)
    ensures Concurrency(SetCoreLimit(g, c, limit)) == Concurrency(g)
  {
    RelimitAdds(g, c, limit, Limited);
    RelimitAdds(g, c, limit, Share(t, Concurrency(g)));
  }

  lemma {:induction false} SameNeed(g: Gpu, c: ClientId, limit: int, now: nat, k: nat)
    requires Listed(g) && c in g.clients && !Crosses(g, c, limit)
    ensures NeedWithin(SetCoreLimit(g, c, limit), now, k) == NeedWithin(g, now, k)
  {
    SameShares(g, c, limit, now + k);
    if k > 0 { SameNeed(g, c, limit, now, k - 1); }
  }

  /** For every client, every old and new limit, both values of the pending drop and every
      history: after the change the state is solvent if and only if the unbilled time is what
      the changed state needs.  A change that makes no runner gain or lose its limit needs
      nothing more than before. */
  lemma RelimitSafe(g: Gpu, c: ClientId, limit: int, t0: int, now: nat)
    requires Listed(g) && Timely(g, now) && c in g.clients
    ensures Solvent(SetCoreLimit(g, c, limit), t0, now)
            <==> Need(SetCoreLimit(g, c, limit), now) <= Unbilled(g, t0, now)
    ensures !Crosses(g, c, limit) ==> Need(SetCoreLimit(g, c, limit), now) == Need(g, now)
  {
    RelimitTimely(g, c, limit, now);
    SolventExactly(SetCoreLimit(g, c, limit), t0, now);
    if !Crosses(g, c, limit) {
      SameShares(g, c, limit, now);
      SameNeed(g, c, limit, now, Concurrency(g) - 1);
    }
  }

  /** What the scheduler can check, since it keeps no history: a change keeps every solvent
      history solvent if and only if the changed state needs no more unbilled time. */
  lemma RelimitAlwaysSafe(g: Gpu, c: ClientId, limit: int, now: nat)
    requires Listed(g) && Timely(g, now) && c in g.clients
    ensures (forall billed, t0 :: Solvent(g.(billed := billed), t0, now) ==>
               Solvent(SetCoreLimit(g.(billed := billed), c, limit), t0, now))
            <==> Need(SetCoreLimit(g, c, limit), now) <= Need(g, now)
  {
    var r := SetCoreLimit(g, c, limit);
    forall billed, t0
      ensures Solvent(g.(billed := billed), t0, now) <==> Need(g, now) <= now - t0 - billed
      ensures Solvent(SetCoreLimit(g.(billed := billed), c, limit), t0, now) <==> Need(r, now) <= now - t0 - billed
    {
      WithHistory(g, billed, t0, now);
      RelimitTimely(g, c, limit, now);
      WithHistory(r, billed, t0, now);
      assert SetCoreLimit(g.(billed := billed), c, limit) == r.(billed := billed);
    }
    var tight := now - Need(g, now);
    assert Solvent(g.(billed := tight), 0, now);
    assert Solvent(SetCoreLimit(g.(billed := tight), c, limit), 0, now) <==> Need(r, now) <= Need(g, now);
  }

  lemma {:induction false} NeedIgnoresBilled(g: Gpu, billed: int, now: nat, k: nat)
    ensures NeedWithin(g.(billed := billed), now, k) == NeedWithin(g, now, k)
  {
    if k > 0 { NeedIgnoresBilled(g, billed, now, k - 1); }
  }

  lemma WithHistory(g: Gpu, billed: int, t0: int, now: nat)
    requires Timely(g, now)
    ensures Solvent(g.(billed := billed), t0, now) <==> Need(g, now) <= now - t0 - billed
  {
    var h := g.(billed := billed);
    SolventExactly(h, t0, now);
    NeedIgnoresBilled(g, billed, now, Concurrency(g) - 1);
  }

  // ---------------------------------------------------------------- a limit that is taken away

  lemma {:induction false} SharedSum(s: seq<ClientId>, m: map<ClientId, Client>, start: nat, t: nat, n: int)
    requires n >= 1 && 0 < start <= t
    requires forall c :: c in s && c in m && IsActive(m[c]) ==> m[c].runStart == start
    ensures Weigh(s, m, Share(t, n)) == Weigh(s, m, Active) * ((t - start) / n)
  {
    if s != [] {
      SharedSum(s[..|s| - 1], m, start, t, n);
      Distribute((t - start) / n, Weigh(s[..|s| - 1], m, Active), 1);
    }
  }

  /** With a shared start every active runner has the same share. */
  lemma SharedShares(g: Gpu, start: nat, t: nat)
    requires 0 < start <= t && forall c :: ActiveRunner(g, c) ==> g.clients[c].runStart == start
    ensures Shares(g, t) == ActiveCount(g) * ((t - start) / Concurrency(g))
  {
    forall c | c in g.running && c in g.clients && IsActive(g.clients[c]) ensures g.clients[c].runStart == start {
      assert ActiveRunner(g, c);
    }
    SharedSum(g.running, g.clients, start, t, Concurrency(g));
  }

  /** n runners share d ms, m of them active.  If that can be paid now, and when the shares
      are next whole, then so can the shares of one runner less. */
  lemma OneRunnerLess(n: int, m: int, d: int, u: int)
    requires 2 <= n && 1 <= m <= n && 0 <= d
    requires m * (d / n) <= u
    requires m * (d / n + 1) <= u + (n * (d / n + 1) - d)
    ensures (m - 1) * (d / (n - 1)) <= u
  {
    var q, f := d / n, d / (n - 1);
    DivBounds(d, n);
    DivBounds(d, n - 1);
    if f <= q {
      MulLe(f, q, m - 1);
      Distribute(q, m - 1, 1);
    } else {
      OneRunnerLessMore(n, m, d, u, q, f);
    }
  }

  lemma OneRunnerLessMore(n: int, m: int, d: int, u: int, q: int, f: int)
    requires 2 <= n && 1 <= m <= n && 0 <= q < f
    requires (n - 1) * f <= d && m * (q + 1) <= u + (n * (q + 1) - d)
    ensures (m - 1) * f <= u
  {
    // u >= d - (n - m) * (q + 1) >= (n - 1) * f - (n - m) * f
    MulLe(q + 1, f, n - m);
    assert m * (q + 1) - n * (q + 1) == -((n - m) * (q + 1));
    assert (n - 1) * f - (n - m) * f == (m - 1) * f;
  }

  /** Taking the limit away from an active runner is always safe while the segments started
      together. */
  lemma RaiseIsSafe(g: Gpu, c: ClientId, limit: int, t0: int, now: nat)
    requires Listed(g) && Timely(g, now) && Solvent(g, t0, now) && SharedStart(g) && ActiveRunner(g, c) && limit >= 100
    ensures Solvent(SetCoreLimit(g, c, limit), t0, now)
  {
    var r := SetCoreLimit(g, c, limit);
    forall t: nat | now <= t ensures Shares(r, t) <= Unbilled(r, t0, t) {
      RaisedShares(g, c, limit, t0, now, t);
    }
  }

  lemma RaisedShares(g: Gpu, c: ClientId, limit: int, t0: int, now: nat, t: nat)
    requires Listed(g) && Timely(g, now) && Solvent(g, t0, now) && SharedStart(g) && ActiveRunner(g, c) && limit >= 100
    requires now <= t
    ensures Shares(SetCoreLimit(g, c, limit), t) <= Unbilled(g, t0, t)
  {
    var n, m, start := LimitedCount(g), ActiveCount(g), g.clients[c].runStart;
    RaisedCounts(g, c, limit);
    RaisedSum(g, c, limit, t);
    if n == 1 {
      SharesNonNegative(g.running, g.clients, t, n);
      assert Shares(g, t) <= Unbilled(g, t0, t);
    } else {
      SharedPays(g, start, t0, now, t);
      OneRunnerLess(n, m, t - start, Unbilled(g, t0, t));
    }
  }

  lemma RaisedSum(g: Gpu, c: ClientId, limit: int, t: nat)
    requires Listed(g) && SharedStart(g) && ActiveRunner(g, c) && limit >= 100 && 0 < g.clients[c].runStart <= t
    ensures var n, m, d := LimitedCount(g), ActiveCount(g), t - g.clients[c].runStart;
            && (n == 1 ==> Shares(SetCoreLimit(g, c, limit), t) == 0)
            && (n > 1 ==> Shares(SetCoreLimit(g, c, limit), t) == (m - 1) * (d / (n - 1)))
  {
    var r := SetCoreLimit(g, c, limit);
    RaisedCounts(g, c, limit);
    assert forall e :: ActiveRunner(r, e) ==> ActiveRunner(g, e);
    SharedShares(r, g.clients[c].runStart, t);
    assert LimitedCount(g) == 1 ==> ActiveCount(r) == 0;
  }

  lemma RaisedCounts(g: Gpu, c: ClientId, limit: int)
    requires Listed(g) && ActiveRunner(g, c) && limit >= 100
    ensures var r := SetCoreLimit(g, c, limit);
            LimitedCount(r) == LimitedCount(g) - 1 && ActiveCount(r) == ActiveCount(g) - 1
    ensures 1 <= ActiveCount(g) <= LimitedCount(g)
  {
    RelimitAdds(g, c, limit, Limited);
    RelimitAdds(g, c, limit, Active);
    WeighBounds(g.running, g.clients);
    WeighMember(g.running, c, g.clients, Active);
  }

  /** With a shared start, the shares are paid at t and when they are next whole. */
  lemma SharedPays(g: Gpu, start: nat, t0: int, now: nat, t: nat)
    requires Solvent(g, t0, now) && now <= t && LimitedCount(g) >= 1
    requires 0 < start <= t && forall c :: ActiveRunner(g, c) ==> g.clients[c].runStart == start
    ensures var n, m, d := LimitedCount(g), ActiveCount(g), t - start;
            && m * (d / n) <= Unbilled(g, t0, t)
            && m * (d / n + 1) <= Unbilled(g, t0, t) + (n * (d / n + 1) - d)
  {
    var n, d := LimitedCount(g), t - start;
    SharedShares(g, start, t);
    assert Shares(g, t) <= Unbilled(g, t0, t);
    DivBounds(d, n);
    var whole: nat := start + n * (d / n + 1);
    SharedShares(g, start, whole);
    WholeShare(n, d / n + 1);
    assert Shares(g, whole) <= Unbilled(g, t0, whole);
  }

  lemma WholeShare(n: int, q: int)
    requires 1 <= n
    ensures n * q / n == q
  {
    DivAdd(0, q, n);
  }

  // ---------------------------------------------------------------- a test of the present

  /** The open segment of a client, 0 while its drop is pending. */
  function OpenSegment(k: Client, now: nat): int {
    if k.pendingDrop then 0 else now - k.runStart
  }

  /** A test that looks at the present only: u ms of unbilled time suffice for the open
      segments, counted with the runner that gains a limit and without the one that loses
      it, shared out, without rounding, over the limited runners there are then. */
  predicate Suffices(g: Gpu, c: ClientId, limit: int, now: nat, u: int) {
    Crosses(g, c, limit) ==>
      var n, open, k := LimitedCount(g), OpenTime(g, now), g.clients[c];
      if limit < 100
      then k.pendingDrop || open + (now - k.runStart) <= (n + 1) * u
      else open - OpenSegment(k, now) <= (n - 1) * u
  }

  /** From covered charges, a change that passes the test is safe. */
  lemma SufficesIsSafe(g: Gpu, c: ClientId, limit: int, t0: int, now: nat)
    requires Listed(g) && Timely(g, now) && c in g.clients && Covered(g, t0, now)
    requires Suffices(g, c, limit, now, Unbilled(g, t0, now))
    ensures Covered(SetCoreLimit(g, c, limit), t0, now) && Solvent(SetCoreLimit(g, c, limit), t0, now)
  {
    var r := SetCoreLimit(g, c, limit);
    RelimitAdds(g, c, limit, Limited);
    RelimitAdds(g, c, limit, Open(now));
    if Crosses(g, c, limit) && limit < 100 {
      Distribute(Unbilled(g, t0, now), LimitedCount(g), 1);
    }
    RelimitTimely(g, c, limit, now);
    CoveredIsSolvent(r, t0, now);
  }

  /** A runner since 101 ms, without a limit. */
  const RUNNER := Client(100, 0, true, 0, 101, false, false, 0, 0, 0, [], 1, 0, 0, 0, 0)

  /** Client 1 was limited and settled at 101 ms, which leaves nothing unbilled since 1 ms;
      client 2 joined at 100 ms and client 3 at 101 ms. */
  const SETTLED := Gpu([], [], [1, 2, 3], true, 0, 0, false, 1, [1, 2, 3],
                       map[1 := RUNNER.(coreLimit := 50), 2 := RUNNER.(runStart := 100), 3 := RUNNER], 100)

  /** The test may refuse a change that is safe: client 2 has 1 ms open and nothing is
      unbilled, but half a millisecond is not billed before wall time makes up for it. */
  lemma TestIsStricter()
    ensures Listed(SETTLED) && Timely(SETTLED, 101) && Covered(SETTLED, 1, 101)
    ensures !Suffices(SETTLED, 2, 50, 101, Unbilled(SETTLED, 1, 101))
    ensures Solvent(SetCoreLimit(SETTLED, 2, 50), 1, 101)
  {
    SettledIsCovered();
    SettledNeed();
    RelimitSafe(SETTLED, 2, 50, 1, 101);
  }

  lemma SettledIsCovered()
    ensures LimitedCount(SETTLED) == 1 && OpenTime(SETTLED, 101) == 0 && Unbilled(SETTLED, 1, 101) == 0
  {
    ThreeRunners(SETTLED, Limited);
    ThreeRunners(SETTLED, Open(101));
  }

  lemma SettledNeed()
    ensures Need(SetCoreLimit(SETTLED, 2, 50), 101) == 0
  {
    var r := SetCoreLimit(SETTLED, 2, 50);
    ThreeRunners(r, Limited);
    ThreeRunners(r, Share(101, 2));
    ThreeRunners(r, Share(102, 2));
    assert NeedWithin(r, 101, 0) == 0;
  }

  lemma ThreeRunners(g: Gpu, what: Measure)
    requires g.running == [1, 2, 3] && {1, 2, 3} <= g.clients.Keys
    ensures Weigh(g.running, g.clients, what)
            == Weight(g.clients[1], what) + Weight(g.clients[2], what) + Weight(g.clients[3], what)
  {
    assert g.running == [1] + [2] + [3];
    WeighAppend([1] + [2], 3, g.clients, what);
    WeighAppend([1], 2, g.clients, what);
    assert [1] == [] + [1];
    WeighAppend([], 1, g.clients, what);
  }

  // ---------------------------------------------------------------- the shared start

  /** A change keeps the shared start if and only if the runner that becomes active, if any,
      opened its segment with the active ones. */
  lemma RelimitSharesStart(g: Gpu, c: ClientId, limit: int)
    requires Listed(g) && SharedStart(g) && c in g.clients
    ensures SharedStart(SetCoreLimit(g, c, limit))
            <==> (Crosses(g, c, limit) && limit < 100 && !g.clients[c].pendingDrop ==>
                    forall d :: ActiveRunner(g, d) ==> g.clients[d].runStart == g.clients[c].runStart)
  {
    var r := SetCoreLimit(g, c, limit);
    assert forall d :: d != c ==> (ActiveRunner(r, d) <==> ActiveRunner(g, d));
    if Crosses(g, c, limit) && limit < 100 && !g.clients[c].pendingDrop {
      assert ActiveRunner(r, c);
    } else {
      assert ActiveRunner(r, c) ==> ActiveRunner(g, c);
    }
  }
}
