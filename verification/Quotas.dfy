/** Quotas: how limits share a window. */
module Quotas {
  import opened Lists
  import opened GpuModel
  import opened Sums
  import opened Arith

  // ---------------------------------------------------------------- scaling

  /** What the limits are shares of: 100, or their sum if that is more. */
  function Scale(total: int): int { Max(total, 100) }

  /** An effective quota is its exact share of the window, short of less than 2 ms. */
  lemma QuotaIsShare(windowMs: int, total: int, coreLimit: int)
    requires 0 <= windowMs && 0 <= coreLimit
    ensures var q := EffectiveQuota(windowMs, total, coreLimit);
            && 0 <= q
            && Scale(total) * q <= windowMs * coreLimit
            && windowMs * coreLimit < Scale(total) * q + 2 * Scale(total)
  {
    var exact := windowMs * coreLimit;
    MulLe(0, coreLimit, windowMs);
    var base := exact / 100;
    if total > 100 {
      ScaledShare(exact, total, base, base * 100 / total);
    }
  }

  lemma ScaledShare(exact: int, total: int, base: int, q: int)
    requires 0 <= exact && 100 < total && base == exact / 100 && q == base * 100 / total
    ensures 0 <= q && total * q <= exact < total * q + 2 * total
  {
    DivBounds(base * 100, total);
    Distribute(total, q, 1);
  }

  lemma {:induction false} QuotaSums(s: seq<ClientId>, m: map<ClientId, Client>, windowMs: int, total: int)
    requires 0 <= windowMs
    requires forall c :: c in s && c in m ==> 0 <= m[c].coreLimit
    ensures var sum, limits, n := Weigh(s, m, Effective(windowMs, total)), Weigh(s, m, Quota), Weigh(s, m, Limited);
            && 0 <= sum && 0 <= n
            && Scale(total) * sum <= windowMs * limits
            && windowMs * limits <= Scale(total) * sum + 2 * (Scale(total) * n)
  {
    if s != [] {
      var front, last := s[..|s| - 1], s[|s| - 1];
      QuotaSums(front, m, windowMs, total);
      if last in m && IsLimited(m[last]) {
        QuotaIsShare(windowMs, total, m[last].coreLimit);
        var sum, limits, n := Weigh(front, m, Effective(windowMs, total)), Weigh(front, m, Quota), Weigh(front, m, Limited);
        Distribute(Scale(total), sum, EffectiveQuota(windowMs, total, m[last].coreLimit));
        Distribute(windowMs, limits, m[last].coreLimit);
        Distribute(Scale(total), n, 1);
      }
    }
  }

  /** The effective quotas of a GPU's limited clients add up to at most the window, and to
      what the limits ask for, scaled to the window, less 2 ms for each client. */
  lemma QuotasShareTheWindow(cfg: Config, g: Gpu)
    requires ValidConfig(cfg)
    requires forall c :: c in g.order && c in g.clients ==> 1 <= g.clients[c].coreLimit
    ensures var limits := Weigh(g.order, g.clients, Quota);
            var sum := Weigh(g.order, g.clients, Effective(cfg.windowMs, TotalQuota(g)));
            && sum <= cfg.windowMs
            && sum >= cfg.windowMs * Min(limits, 100) / 100 - 2 * Weigh(g.order, g.clients, Limited)
  {
    var limits := Weigh(g.order, g.clients, Quota);
    var n := Weigh(g.order, g.clients, Limited);
    var sum := Weigh(g.order, g.clients, Effective(cfg.windowMs, TotalQuota(g)));
    QuotaSums(g.order, g.clients, cfg.windowMs, TotalQuota(g));
    if limits > 100 {
      assert limits * sum <= limits * cfg.windowMs;
      CancelLe(limits, sum, cfg.windowMs);
      assert limits * cfg.windowMs <= limits * (sum + 2 * n);
      CancelLe(limits, cfg.windowMs, sum + 2 * n);
    } else {
      MulLe(limits, 100, cfg.windowMs);
    }
  }

  /** Scaling keeps the order of the configured limits. */
  lemma QuotaKeepsOrder(windowMs: int, total: int, low: int, high: int)
    requires 0 <= windowMs && 0 <= low <= high
    ensures EffectiveQuota(windowMs, total, low) <= EffectiveQuota(windowMs, total, high)
  {
    assert windowMs * low <= windowMs * high;
    var b, b' := windowMs * low / 100, windowMs * high / 100;
    if total > 100 {
      DivMonotone(b * 100, b' * 100, total);
    }
  }

  lemma TotalOnlyShrinksQuota(windowMs: int, total: int, more: int, coreLimit: int)
    requires 0 <= windowMs && 0 <= coreLimit && total <= more
    ensures EffectiveQuota(windowMs, more, coreLimit) <= EffectiveQuota(windowMs, total, coreLimit)
  {
    assert 0 <= windowMs * coreLimit;
    var base := windowMs * coreLimit / 100;
    if more > 100 {
      DivAntitone(base * 100, 100, more);
      if total > 100 {
        DivAntitone(base * 100, total, more);
      }
    }
  }

  /** Nobody's quota grows when a client registers. */
  lemma NewcomerRaisesNoQuota(cfg: Config, g: Gpu, c: ClientId, coreLimit: int, k: Client)
    requires ValidConfig(cfg) && Listed(g) && c !in g.clients && 1 <= coreLimit <= 100 && 0 <= k.coreLimit
    requires forall d :: d in g.clients ==> 0 <= g.clients[d].coreLimit
    ensures QuotaOf(cfg, Register(g, c, coreLimit), k) <= QuotaOf(cfg, g, k)
  {
    var r := Register(g, c, coreLimit);
    WeighAppend(g.order, c, r.clients, Quota);
    SameWeights(g.order, g.clients, r.clients, Quota);
    QuotaSums(g.order, g.clients, 0, 0);
    QuotaNonNegative(g.order, g.clients);
    if TotalQuota(g) <= TotalQuota(r) {
      TotalOnlyShrinksQuota(cfg.windowMs, TotalQuota(g), TotalQuota(r), k.coreLimit);
    }
  }

  /** A new client with a limit gets that share of the window, scaled by the sum of all limits
      if it is more than 100, short of less than 2 ms. */
  lemma NewcomerGetsItsShare(cfg: Config, g: Gpu, c: ClientId, coreLimit: int)
    requires ValidConfig(cfg) && Listed(g) && c !in g.clients && 1 <= coreLimit < 100
    requires forall d :: d in g.clients ==> 0 <= g.clients[d].coreLimit
    ensures var r := Register(g, c, coreLimit);
            var quota, all := QuotaOf(cfg, r, r.clients[c]), Max(100, Weigh(g.order, g.clients, Quota) + coreLimit);
            all * quota <= cfg.windowMs * coreLimit < all * (quota + 2)
  {
    var r := Register(g, c, coreLimit);
    WeighAppend(g.order, c, r.clients, Quota);
    SameWeights(g.order, g.clients, r.clients, Quota);
    QuotaNonNegative(g.order, g.clients);
    var all := Max(100, Weigh(g.order, g.clients, Quota) + coreLimit);
    assert Scale(TotalQuota(r)) == all;
    QuotaIsShare(cfg.windowMs, TotalQuota(r), coreLimit);
    Distribute(all, EffectiveQuota(cfg.windowMs, TotalQuota(r), coreLimit), 2);
  }

  lemma {:induction false} QuotaNonNegative(s: seq<ClientId>, m: map<ClientId, Client>)
    requires forall c :: c in s && c in m ==> 0 <= m[c].coreLimit
    ensures 0 <= Weigh(s, m, Quota)
  {
    if s != [] {
      QuotaNonNegative(s[..|s| - 1], m);
    }
  }
}
