/** Sums over the scheduler's lists. */
module Sums {
  import opened Lists
  import opened GpuModel
  import opened Arith

  lemma WeighAppend(s: seq<ClientId>, c: ClientId, m: map<ClientId, Client>, what: Measure)
    requires c in m
    ensures Weigh(s + [c], m, what) == Weigh(s, m, what) + Weight(m[c], what)
  {
    assert (s + [c])[..|s|] == s;
  }

  lemma {:induction false} WeighWithout(s: seq<ClientId>, c: ClientId, m: map<ClientId, Client>, what: Measure)
    requires Distinct(s) && c in s && c in m
    ensures Weigh(s, m, what) == Weigh(Without(s, c), m, what) + Weight(m[c], what)
  {
    var front, last := s[..|s| - 1], s[|s| - 1];
    assert s == front + [last];
    if last == c {
      assert c !in front;
    } else {
      WeighWithout(front, c, m, what);
      var rest := Without(front, c);
      assert (rest + [last])[..|rest|] == rest;
    }
  }

  /** Leaving a client out of the table is leaving it out of the list. */
  lemma {:induction false} WeighExclude(s: seq<ClientId>, c: ClientId, m: map<ClientId, Client>, what: Measure)
    requires Distinct(s) && c in s && c in m
    ensures Weigh(s, m, what) == Weigh(s, m - {c}, what) + Weight(m[c], what)
  {
    var front, last := s[..|s| - 1], s[|s| - 1];
    assert s == front + [last];
    if last == c {
      SameWeights(front, m, m - {c}, what);
    } else {
      WeighExclude(front, c, m, what);
    }
  }

  predicate IsCount(what: Measure) {
    what.Memory? || what.Limited? || what.Active?
  }

  lemma {:induction false} WeighBounds(s: seq<ClientId>, m: map<ClientId, Client>)
    ensures 0 <= Weigh(s, m, Active) <= Weigh(s, m, Limited)
    ensures 0 <= Weigh(s, m, Memory)
  {
    if s != [] {
      WeighBounds(s[..|s| - 1], m);
    }
  }

  /** One member, or two, cannot hold more than the whole list does. */
  lemma WeighMember(s: seq<ClientId>, c: ClientId, m: map<ClientId, Client>, what: Measure)
    requires Distinct(s) && c in s && c in m && IsCount(what)
    ensures Weight(m[c], what) <= Weigh(s, m, what)
  {
    WeighWithout(s, c, m, what);
    WeighBounds(Without(s, c), m);
  }

  lemma WeighPair(s: seq<ClientId>, c: ClientId, d: ClientId, m: map<ClientId, Client>, what: Measure)
    requires Distinct(s) && c in s && d in s && c != d && c in m && d in m && IsCount(what)
    ensures Weight(m[c], what) + Weight(m[d], what) <= Weigh(s, m, what)
  {
    WeighWithout(s, c, m, what);
    WeighMember(Without(s, c), d, m, what);
  }
}
