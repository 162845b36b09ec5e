/** Client lists.  The scheduler keeps its requests in singly linked lists; here a list
    is the sequence of the clients it holds, in list order. */
module Lists {

  /** A client, identified the way the scheduler compares clients: by its socket. */
  type ClientId = nat

  ghost predicate Distinct(s: seq<ClientId>) {
    forall i, j :: 0 <= i < j < |s| ==> s[i] != s[j]
  }

  /** The list with every entry of client x deleted. */
  function Without(s: seq<ClientId>, x: ClientId): (r: seq<ClientId>)
    ensures forall y :: y in r <==> y in s && y != x
    ensures |r| <= |s| && (x in s ==> |r| < |s|)
    ensures x !in s ==> r == s
    ensures Distinct(s) ==> Distinct(r)
  {
    if s == [] then
      []
    else
      var front, last := s[..|s| - 1], s[|s| - 1];
      assert s == front + [last];
      assert Distinct(s) ==> Distinct(front) && forall i :: 0 <= i < |front| ==> front[i] != last;
      var rest := Without(front, x);
      assert Distinct(s) ==> last !in rest;
      if last == x then rest else rest + [last]
  }

  lemma {:induction false} WithoutConcat(a: seq<ClientId>, b: seq<ClientId>, x: ClientId)
    ensures Without(a + b, x) == Without(a, x) + Without(b, x)
  {
    if b == [] {
      assert a + b == a;
    } else {
      var last := |b| - 1;
      assert (a + b)[..|a + b| - 1] == a + b[..last];
      WithoutConcat(a, b[..last], x);
    }
  }

  /** Deleting the single entry at index i is deleting the client. */
  lemma {:induction false} WithoutAt(s: seq<ClientId>, i: nat)
    requires i < |s| && Distinct(s)
    ensures Without(s, s[i]) == s[..i] + s[i + 1..]
  {
    var front := s[..|s| - 1];
    if i < |s| - 1 {
      WithoutAt(front, i);
      assert s[i + 1..] == front[i + 1..] + [s[|s| - 1]];
    }
  }
}
