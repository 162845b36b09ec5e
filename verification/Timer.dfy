/** How long the timer sleeps, and what that bounds. */
module Timer {
  import opened Lists
  import opened GpuModel
  import opened Arith

  const GIB := 1024 * 1024 * 1024

  /** Switch time in seconds. */
  function SwitchTime(cfg: Config, g: Gpu): int {
    if cfg.fixedSwitch then
      cfg.fixedSwitchSec
    else
      var gigabytes := g.runningMemory / GIB;
      Min(300, Max(10, (if gigabytes > 0 then gigabytes else 1) * cfg.multiplier))
  }

  function WindowRemaining(cfg: Config, g: Gpu, now: nat): int {
    if g.windowStart > 0 then Max(0, cfg.windowMs - (now - g.windowStart)) else cfg.windowMs
  }

  /** Quota a runner has left, in billed ms. */
  function QuotaLeft(cfg: Config, g: Gpu, k: Client, now: nat): int {
    QuotaOf(cfg, g, k) - UsageAt(k, Concurrency(g), now)
  }

  /** A sleep shortened for one runner. */
  function Shorten(cfg: Config, g: Gpu, c: ClientId, sleep: int, now: nat): int {
    if c in g.clients && IsLimited(g.clients[c]) then
      var left := QuotaLeft(cfg, g, g.clients[c], now);
      if left <= 0 then 0 else Min(sleep, left * Concurrency(g))
    else
      sleep
  }

  /** A sleep shortened for the first i runners in turn. */
  function ShortenAll(cfg: Config, g: Gpu, sleep: int, now: nat, i: nat): int
    requires i <= |g.running|
  {
    if i == 0 then sleep else Shorten(cfg, g, g.running[i - 1], ShortenAll(cfg, g, sleep, now, i - 1), now)
  }

  predicate HasLimitedRunner(g: Gpu) {
    exists i :: 0 <= i < |g.running| && g.running[i] in g.clients && IsLimited(g.clients[g.running[i]])
  }

  /** The sleep before the floor of 10 ms is applied. */
  function RawSleep(cfg: Config, g: Gpu, now: nat): int {
    var s := Min(SwitchTime(cfg, g) * 1000, WindowRemaining(cfg, g, now));
    var t := ShortenAll(cfg, g, s, now, |g.running|);
    var u := if cfg.sampleMs > 0 && HasLimitedRunner(g) then Min(t, cfg.sampleMs) else t;
    if u > cfg.windowMs then cfg.windowMs else u
  }

  function SleepTime(cfg: Config, g: Gpu, now: nat): int {
    var s := RawSleep(cfg, g, now);
    if 0 < s < 10 && WindowRemaining(cfg, g, now) > 10 then 10 else s
  }

  lemma {:induction false} ShortenedFits(cfg: Config, g: Gpu, sleep: int, now: nat, i: nat)
    requires i <= |g.running|
    ensures ShortenAll(cfg, g, sleep, now, i) <= Max(0, sleep)
  {
    if i > 0 {
      ShortenedFits(cfg, g, sleep, now, i - 1);
    }
  }

  /** The sleep never passes the window boundary. */
  lemma SleepEndsWithWindow(cfg: Config, g: Gpu, now: nat)
    requires ValidConfig(cfg)
    ensures SleepTime(cfg, g, now) <= WindowRemaining(cfg, g, now)
  {
    ShortenedFits(cfg, g, Min(SwitchTime(cfg, g) * 1000, WindowRemaining(cfg, g, now)), now, |g.running|);
  }

  /** A runner with quota left bounds the sleep by that quota. */
  lemma {:induction false} ShortenedByRunner(cfg: Config, g: Gpu, sleep: int, now: nat, i: nat, j: nat)
    requires j < i <= |g.running| && g.running[j] in g.clients && IsLimited(g.clients[g.running[j]])
    requires QuotaLeft(cfg, g, g.clients[g.running[j]], now) > 0
    ensures ShortenAll(cfg, g, sleep, now, i) <= QuotaLeft(cfg, g, g.clients[g.running[j]], now) * Concurrency(g)
  {
    if j < i - 1 {
      ShortenedByRunner(cfg, g, sleep, now, i - 1, j);
      assert QuotaLeft(cfg, g, g.clients[g.running[j]], now) * Concurrency(g) >= 0;
    }
  }

  /** The usage of a runner after a sleep that its quota bounds, or of 10 ms. */
  lemma UsageAfter(k: Client, n: int, now: nat, sleep: nat, left: int)
    requires 1 <= n && 1 <= left && (sleep <= left * n || sleep <= 10)
    ensures UsageAt(k, n, now + sleep) <= UsageAt(k, n, now) + left + 9
    ensures sleep <= left * n ==> UsageAt(k, n, now + sleep) <= UsageAt(k, n, now) + left
  {
    var pending := now - k.runStart;
    if sleep <= left * n {
      DivAdd(pending, left, n);
      DivMonotone(pending + sleep, pending + left * n, n);
    } else {
      DivAdd(pending, 10, n);
      assert 10 <= 10 * n;
      DivMonotone(pending + sleep, pending + 10 * n, n);
    }
  }

  /** If the timer wakes on time and the running set did not change, a runner that had quota
      left when the sleep began is at most 9 ms over its quota. */
  lemma OverrunIsBounded(cfg: Config, g: Gpu, now: nat, j: nat)
    requires ValidConfig(cfg) && j < |g.running|
    requires g.running[j] in g.clients && IsLimited(g.clients[g.running[j]])
    requires QuotaLeft(cfg, g, g.clients[g.running[j]], now) > 0
    ensures var k := g.clients[g.running[j]];
            var wake := now + Max(0, SleepTime(cfg, g, now));
            UsageAt(k, Concurrency(g), wake) <= QuotaOf(cfg, g, k) + 9
  {
    var k := g.clients[g.running[j]];
    var left, n := QuotaLeft(cfg, g, k, now), Concurrency(g);
    var s := Min(SwitchTime(cfg, g) * 1000, WindowRemaining(cfg, g, now));
    ShortenedByRunner(cfg, g, s, now, |g.running|, j);
    assert 0 <= left * n;
    UsageAfter(k, n, now, Max(0, SleepTime(cfg, g, now)), left);
  }

  // ---------------------------------------------------------------- what the sleep is

  /** A configured switch time is used as it is; a computed one is the multiplier times the
      runners' memory in whole GiB, 1 at least, but no less than 10 s and no more than 300 s. */
  lemma SwitchTimeIs(cfg: Config, g: Gpu, gib: nat)
    requires gib * 0x4000_0000 <= g.runningMemory < (gib + 1) * 0x4000_0000
    ensures cfg.fixedSwitch ==> SwitchTime(cfg, g) == cfg.fixedSwitchSec
    ensures !cfg.fixedSwitch ==>
              var wanted, t := Max(1, gib) * cfg.multiplier, SwitchTime(cfg, g);
              10 <= t <= 300 && (t < wanted ==> t == 300) && (wanted < t ==> t == 10)
  {
    assert g.runningMemory / GIB == gib;
  }

  /** Something that the sleep must not outlast: the switch time, the window, the sampling
      interval if a runner is limited, and the wall time for which a limited runner has quota. */
  ghost predicate Deadline(cfg: Config, g: Gpu, now: nat, ms: int) {
    || ms == SwitchTime(cfg, g) * 1000
    || (ms == g.windowStart + cfg.windowMs - now && 0 < g.windowStart)
    || ms == cfg.windowMs
    || (ms == cfg.sampleMs && 0 < cfg.sampleMs && exists c :: LimitedRunner(g, c))
    || exists c :: LimitedRunner(g, c) && ms == Max(0, QuotaLeft(cfg, g, g.clients[c], now)) * Concurrency(g)
  }

  predicate LimitedRunner(g: Gpu, c: ClientId) { c in g.running && c in g.clients && g.clients[c].coreLimit < 100 }

  /** A sleep shortened for some runners is no longer than their quotas allow, and no shorter
      than it was or one of them needs. */
  lemma {:induction false} ShortenedIs(cfg: Config, g: Gpu, sleep: int, now: nat, i: nat)
    requires i <= |g.running|
    ensures var s := Max(0, ShortenAll(cfg, g, sleep, now, i));
            && s <= Max(0, sleep)
            && (forall j :: 0 <= j < i && LimitedRunner(g, g.running[j]) ==>
                  s <= Max(0, QuotaLeft(cfg, g, g.clients[g.running[j]], now)) * Concurrency(g))
            && (s == Max(0, sleep)
                || exists j :: 0 <= j < i && LimitedRunner(g, g.running[j])
                     && s == Max(0, QuotaLeft(cfg, g, g.clients[g.running[j]], now)) * Concurrency(g))
  {
    if i > 0 {
      ShortenedIs(cfg, g, sleep, now, i - 1);
      ShortenedOnce(cfg, g, g.running[i - 1], ShortenAll(cfg, g, sleep, now, i - 1), now);
    }
  }

  lemma ShortenedOnce(cfg: Config, g: Gpu, c: ClientId, sleep: int, now: nat)
    requires c in g.running
    ensures var s := Max(0, Shorten(cfg, g, c, sleep, now));
            if LimitedRunner(g, c)
            then s == Min(Max(0, sleep), Max(0, QuotaLeft(cfg, g, g.clients[c], now)) * Concurrency(g))
            else s == Max(0, sleep)
  {
    if LimitedRunner(g, c) {
      MulLe(0, Concurrency(g), Max(0, QuotaLeft(cfg, g, g.clients[c], now)));
    }
  }

  /** The earliest of the deadlines. */
  ghost predicate Earliest(cfg: Config, g: Gpu, now: nat, ms: int) {
    && Deadline(cfg, g, now, ms)
    && forall other :: Deadline(cfg, g, now, other) ==> Max(0, ms) <= Max(0, other)
  }

  /** The sleep lasts to the earliest of the deadlines; one of less than 10 ms is prolonged to
      10 ms, but not in the last 10 ms of a window. */
  lemma SleepIsEarliest(cfg: Config, g: Gpu, now: nat)
    ensures exists ms :: Earliest(cfg, g, now, ms)
    ensures forall ms :: Earliest(cfg, g, now, ms) ==>
              Max(0, SleepTime(cfg, g, now))
              == if 0 < ms < 10 && (if g.windowStart == 0 then 10 < cfg.windowMs else now + 10 < g.windowStart + cfg.windowMs)
                 then 10 else Max(0, ms)
  {
    var s := Min(SwitchTime(cfg, g) * 1000, WindowRemaining(cfg, g, now));
    EarliestBound(cfg, g, now, s);
    EarliestMet(cfg, g, now, s);
    var ms :| Deadline(cfg, g, now, ms) && Max(0, RawSleep(cfg, g, now)) == Max(0, ms);
    assert Earliest(cfg, g, now, ms);
    forall e | Earliest(cfg, g, now, e) ensures Max(0, RawSleep(cfg, g, now)) == Max(0, e) {}
  }

  lemma HasLimitedIs(g: Gpu)
    ensures HasLimitedRunner(g) <==> exists c :: LimitedRunner(g, c)
  {
    if HasLimitedRunner(g) {
      var i :| 0 <= i < |g.running| && g.running[i] in g.clients && IsLimited(g.clients[g.running[i]]);
      assert LimitedRunner(g, g.running[i]);
    }
  }

  lemma EarliestBound(cfg: Config, g: Gpu, now: nat, s: int)
    requires s == Min(SwitchTime(cfg, g) * 1000, WindowRemaining(cfg, g, now))
    ensures forall ms :: Deadline(cfg, g, now, ms) ==> Max(0, RawSleep(cfg, g, now)) <= Max(0, ms)
  {
    ShortenedIs(cfg, g, s, now, |g.running|);
    HasLimitedIs(g);
    forall ms | Deadline(cfg, g, now, ms) ensures Max(0, RawSleep(cfg, g, now)) <= Max(0, ms) {
      if c :| LimitedRunner(g, c) && ms == Max(0, QuotaLeft(cfg, g, g.clients[c], now)) * Concurrency(g) {
        var j :| 0 <= j < |g.running| && g.running[j] == c;
        assert LimitedRunner(g, g.running[j]);
      }
    }
  }

  lemma EarliestMet(cfg: Config, g: Gpu, now: nat, s: int)
    requires s == Min(SwitchTime(cfg, g) * 1000, WindowRemaining(cfg, g, now))
    ensures exists ms :: Deadline(cfg, g, now, ms) && Max(0, RawSleep(cfg, g, now)) == Max(0, ms)
  {
    ShortenedIs(cfg, g, s, now, |g.running|);
    HasLimitedIs(g);
    var t, raw := Max(0, ShortenAll(cfg, g, s, now, |g.running|)), Max(0, RawSleep(cfg, g, now));
    var end := if s == SwitchTime(cfg, g) * 1000 then s
               else if 0 < g.windowStart then g.windowStart + cfg.windowMs - now else cfg.windowMs;
    assert Deadline(cfg, g, now, end) && Max(0, end) == Max(0, s) && Deadline(cfg, g, now, cfg.windowMs);
    if raw == t && t != Max(0, s) {
      var j :| 0 <= j < |g.running| && LimitedRunner(g, g.running[j])
               && t == Max(0, QuotaLeft(cfg, g, g.clients[g.running[j]], now)) * Concurrency(g);
      assert Deadline(cfg, g, now, t);
    } else if raw != t && raw != Max(0, cfg.windowMs) {
      assert Deadline(cfg, g, now, cfg.sampleMs);
    }
  }

  /** Whether the timer slept a whole switch time. */
  predicate FullQuantum(cfg: Config, g: Gpu, now: nat, timedOut: bool) {
    timedOut && SleepTime(cfg, g, now) >= SwitchTime(cfg, g) * 1000
  }

  /** With a switch time of a second or more, the timer sleeps for all of it exactly if nothing
      wakes it and no other deadline is earlier. */
  lemma FullQuantumExactly(cfg: Config, g: Gpu, now: nat, timedOut: bool)
    requires SwitchTime(cfg, g) >= 1
    ensures FullQuantum(cfg, g, now, timedOut)
            <==> timedOut && forall ms :: Deadline(cfg, g, now, ms) ==> SwitchTime(cfg, g) * 1000 <= ms
  {
    SleepIsEarliest(cfg, g, now);
    var ms :| Earliest(cfg, g, now, ms);
    assert Deadline(cfg, g, now, SwitchTime(cfg, g) * 1000) && Deadline(cfg, g, now, cfg.windowMs);
  }

  /** A rotation needs a switch time that fits in what is left of the window; a computed
      switch time is 10 s at least, so it never fits in a shorter window. */
  lemma RotationFitsWindow(cfg: Config, g: Gpu, now: nat, timedOut: bool)
    requires ValidConfig(cfg) && FullQuantum(cfg, g, now, timedOut)
    ensures SwitchTime(cfg, g) * 1000 <= WindowRemaining(cfg, g, now)
    ensures cfg.fixedSwitch || g.windowStart > now || cfg.windowMs >= 10000
  {
    SleepEndsWithWindow(cfg, g, now);
  }
}
