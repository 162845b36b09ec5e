/** The lock protocol between the scheduler and any number of clients.  Each client has a
    FIFO channel in both directions; messages may be in flight for any time.  The two
    senders of LOCK_RELEASED, the DROP_LOCK handler and the early-release thread, act
    independently of the scheduler. */
module LockProtocol {
  import opened Lists
  import opened GpuModel
  import opened Scheduling
  import opened GpuInvariants
  import opened Departures

  datatype Notice = ReqLock | LockReleased | MemUpdate(usage: nat)

  /** A client process: its two lock flags and what it sent and the scheduler has not read. */
  datatype App = App(
    ownLock: bool,
    needLock: bool,
    outbox: seq<Notice>,
    // History, read by no handler:
    ownGrant: nat,        // number of the LOCK_OK received last
    okCount: nat,         // LOCK_OK messages received
    releaseCount: nat)    // LOCK_RELEASED messages sent

  const NEW_APP := App(false, false, [], 0, 0, 0)

  /** A thread of the application wants to submit work: ask for the lock, once. */
  function Ask(a: App): App {
    if a.ownLock || a.needLock then a else a.(needLock := true, outbox := a.outbox + [ReqLock])
  }

  /** Give the lock up, if the client owns it. */
  function Surrender(a: App): App {
    if a.ownLock
    then a.(ownLock := false, outbox := a.outbox + [LockReleased], releaseCount := a.releaseCount + 1)
    else a
  }

  /** The client's reaction to a message of the scheduler. */
  function Receive(a: App, m: Message): App {
    match m.kind
    case LockOk => a.(ownLock := true, needLock := false, ownGrant := m.grant, okCount := a.okCount + 1)
    case DropLock => Surrender(a)
    case WaitForMem => a
    case MemAvailable => a
  }

  // ---------------------------------------------------------------- channel contents

  /** The lock messages of a client that are still to be read. */
  function Locks(o: seq<Notice>): seq<Notice> {
    if o == [] then []
    else if o[0].MemUpdate? then Locks(o[1..])
    else [o[0]] + Locks(o[1..])
  }

  /** Number of LOCK_OK messages in flight to a client. */
  function Oks(s: seq<Message>): nat {
    if s == [] then 0 else (if s[0].kind == LockOk then 1 else 0) + Oks(s[1..])
  }

  lemma {:induction false} LocksAppend(o: seq<Notice>, n: Notice)
    ensures Locks(o + [n]) == Locks(o) + (if n.MemUpdate? then [] else [n])
  {
    if o == [] {
      assert Locks([n]) == (if n.MemUpdate? then Locks([n][1..]) else [n] + Locks([n][1..]));
    } else {
      LocksAppend(o[1..], n);
      assert (o + [n])[1..] == o[1..] + [n];
    }
  }

  lemma {:induction false} OksAppend(s: seq<Message>, m: Message)
    ensures Oks(s + [m]) == Oks(s) + (if m.kind == LockOk then 1 else 0)
  {
    if s != [] {
      OksAppend(s[1..], m);
      assert (s + [m])[1..] == s[1..] + [m];
    }
  }

  lemma {:induction false} OksMember(s: seq<Message>)
    ensures Oks(s) == 0 <==> forall i :: 0 <= i < |s| ==> s[i].kind != LockOk
  {
    if s != [] {
      OksMember(s[1..]);
      assert forall i :: 0 < i < |s| ==> s[i] == s[1..][i - 1];
    }
  }

  // ---------------------------------------------------------------- the invariant

  predicate Queued(g: Gpu, c: ClientId) {
    c in g.requests || c in g.waitQueue
  }

  /** The phases a client goes through, each with the lock messages that may be in flight. */
  predicate Coherent(a: App, queued: bool, running: bool, oks: nat) {
    var out := Locks(a.outbox);
    if running then
      && !queued
      && if a.ownLock then !a.needLock && out == [] && oks == 0            // owns the lock
         else if oks == 1 then a.needLock && out == []                     // grant in flight
         else oks == 0 && out == (if a.needLock then [LockReleased, ReqLock] else [LockReleased])
    else
      && !a.ownLock && oks == 0
      && out == (if a.needLock && !queued then [ReqLock] else [])
      && (queued ==> a.needLock)
  }

  /** Messages arrive grant by grant, LOCK_OK first; what reaches an owner belongs to the
      grant it owns. */
  ghost predicate Tagged(a: App, k: Client) {
    && (forall i :: 0 <= i < |k.socket| ==> k.socket[i].grant <= k.grants)
    && (forall i, j :: 0 <= i < j < |k.socket| ==> k.socket[i].grant <= k.socket[j].grant)
    && (forall i, j :: 0 <= i < j < |k.socket| && k.socket[j].kind == LockOk ==> k.socket[i].grant < k.socket[j].grant)
    && (forall i :: 0 <= i < |k.socket| && k.socket[i].kind == LockOk ==> k.socket[i].grant == k.grants)
    && (a.ownLock ==> a.ownGrant == k.grants && forall i :: 0 <= i < |k.socket| ==> k.socket[i].grant == k.grants)
    && a.okCount == a.releaseCount + (if a.ownLock then 1 else 0)
    && k.grants == a.okCount + Oks(k.socket)
  }

  ghost predicate ClientOk(a: App, k: Client, queued: bool, running: bool) {
    Coherent(a, queued, running, Oks(k.socket)) && Tagged(a, k)
  }

  ghost predicate Protocol(g: Gpu, apps: map<ClientId, App>) {
    && apps.Keys <= g.clients.Keys
    && forall c :: c in apps ==> ClientOk(apps[c], g.clients[c], Queued(g, c), c in g.running)
  }

  // ---------------------------------------------------------------- scheduler steps

  /** A step of the scheduler that leaves client c where it is; it may send it one message
      other than LOCK_OK. */
  predicate Stays(k: Client, k': Client) {
    && k'.grants == k.grants
    && (k'.socket == k.socket
        || (&& |k'.socket| == |k.socket| + 1
            && k'.socket == k.socket + [k'.socket[|k.socket|]]
            && k'.socket[|k.socket|].kind != LockOk
            && k'.socket[|k.socket|].grant == k.grants))
  }

  lemma StaysOk(a: App, k: Client, k': Client, queued: bool, running: bool)
    requires ClientOk(a, k, queued, running) && Stays(k, k')
    ensures ClientOk(a, k', queued, running)
  {
    if k'.socket != k.socket {
      OksAppend(k.socket, k'.socket[|k.socket|]);
    }
  }

  lemma StartsOk(a: App, k: Client, k': Client)
    requires ClientOk(a, k, true, false)
    requires k'.grants == k.grants + 1 && k'.socket == k.socket + [Message(LockOk, k'.grants)]
    ensures ClientOk(a, k', false, true)
  {
    OksAppend(k.socket, Message(LockOk, k'.grants));
    OksMember(k.socket);
  }

  ghost predicate StaysIn(g: Gpu, g': Gpu, c: ClientId)
    requires c in g.clients && c in g'.clients
  {
    && Stays(g.clients[c], g'.clients[c])
    && Queued(g', c) == Queued(g, c)
    && (c in g'.running <==> c in g.running)
  }

  /** Steps after which every client is where it was. */
  lemma StayKeepsProtocol(g: Gpu, g': Gpu, apps: map<ClientId, App>)
    requires Protocol(g, apps)
    requires g'.clients.Keys == g.clients.Keys
    requires forall c :: c in apps ==> StaysIn(g, g', c)
    ensures Protocol(g', apps)
  {
    forall c | c in apps ensures ClientOk(apps[c], g'.clients[c], Queued(g', c), c in g'.running) {
      assert StaysIn(g, g', c);
      StaysOk(apps[c], g.clients[c], g'.clients[c], Queued(g, c), c in g.running);
    }
  }

  lemma ResetKeepsProtocol(cfg: Config, g: Gpu, apps: map<ClientId, App>, now: nat)
    requires Protocol(g, apps)
    ensures Protocol(ResetWindow(cfg, g, now), apps)
  {
    var r := ResetWindow(cfg, g, now);
    forall c | c in apps ensures StaysIn(g, r, c) {
      ResetStays(cfg, g, c, now);
    }
    StayKeepsProtocol(g, r, apps);
  }

  lemma ResetStays(cfg: Config, g: Gpu, c: ClientId, now: nat)
    requires c in g.clients
    ensures Stays(g.clients[c], ResetWindow(cfg, g, now).clients[c])
  {
    var k' := ResetWindow(cfg, g, now).clients[c];
    if WindowDue(cfg, g, now) {
      var a := Accrue(g.(windowStart := now), now, {});
      assert k' == CloseWindow(cfg, QuotaOf(cfg, a, a.clients[c]), a.clients[c]);
    }
  }

  lemma MoveKeepsProtocol(g: Gpu, apps: map<ClientId, App>)
    requires Listed(g) && g.requests != [] && Protocol(g, apps)
    ensures Protocol(MoveToWaitQueue(g), apps)
  {
    var r := MoveToWaitQueue(g);
    assert g.requests == [g.requests[0]] + g.requests[1..];
    forall c | c in apps ensures StaysIn(g, r, c) {
      assert Queued(r, c) <==> Queued(g, c);
    }
    StayKeepsProtocol(g, r, apps);
  }

  lemma PromoteKeepsProtocol(g: Gpu, i: nat, apps: map<ClientId, App>)
    requires Listed(g) && i < |g.waitQueue| && Protocol(g, apps)
    ensures Protocol(Promote(g, i), apps)
  {
    var r := Promote(g, i);
    var w := g.waitQueue;
    assert w == w[..i] + [w[i]] + w[i + 1..];
    forall c | c in apps ensures StaysIn(g, r, c) {
      assert Queued(r, c) <==> Queued(g, c);
    }
    StayKeepsProtocol(g, r, apps);
  }

  lemma CheckKeepsProtocol(cfg: Config, g: Gpu, apps: map<ClientId, App>, now: nat)
    requires Listed(g) && Protocol(g, apps)
    ensures Protocol(CheckWaitQueue(cfg, g, now), apps)
  {
    if g.waitQueue != [] {
      var w := ResetWindow(cfg, g, now);
      ResetKeepsProtocol(cfg, g, apps, now);
      var i := FirstAdmissible(cfg, w, w.waitQueue);
      if i < |w.waitQueue| {
        PromoteKeepsProtocol(w, i, apps);
        assert CheckWaitQueue(cfg, g, now) == Promote(w, i);
      } else {
        assert CheckWaitQueue(cfg, g, now) == w;
      }
    }
  }

  lemma GrantOther(g: Gpu, c: ClientId, now: nat)
    requires Listed(g) && g.requests != [] && c in g.clients && c != g.requests[0]
    ensures c in Grant(g, now).clients && StaysIn(g, Grant(g, now), c)
  {
    assert g.requests == [g.requests[0]] + g.requests[1..];
  }

  lemma GrantHead(g: Gpu, now: nat)
    requires Listed(g) && g.requests != []
    ensures var c, r := g.requests[0], Grant(g, now);
            && c in r.clients && c in r.running && !Queued(r, c)
            && r.clients[c].grants == g.clients[c].grants + 1
            && r.clients[c].socket == g.clients[c].socket + [Message(LockOk, r.clients[c].grants)]
  {
    var c, r := g.requests[0], Grant(g, now);
    assert c !in g.running;
    assert r.clients[c] == Start(g.clients[c], now);
  }

  lemma GrantKeepsProtocol(g: Gpu, apps: map<ClientId, App>, now: nat)
    requires Listed(g) && g.requests != [] && Protocol(g, apps)
    ensures Protocol(Grant(g, now), apps)
  {
    var r, head := Grant(g, now), g.requests[0];
    assert apps.Keys <= r.clients.Keys;
    forall c | c in apps ensures ClientOk(apps[c], r.clients[c], Queued(r, c), c in r.running) {
      if c == head {
        GrantHead(g, now);
        StartsOk(apps[c], g.clients[c], r.clients[c]);
      } else {
        GrantOther(g, c, now);
        StaysOk(apps[c], g.clients[c], r.clients[c], Queued(g, c), c in g.running);
      }
    }
  }

  lemma PassKeepsProtocol(cfg: Config, g: Gpu, apps: map<ClientId, App>, now: nat)
    requires ValidConfig(cfg) && Listed(g) && Protocol(g, apps)
    ensures Protocol(Pass(cfg, g, now).0, apps)
  {
    var g0 := if g.requests == [] then CheckWaitQueue(cfg, g, now) else g;
    CheckKeepsProtocol(cfg, g, apps, now);
    if g0.requests != [] {
      var w := ResetWindow(cfg, g0, now);
      ResetKeepsProtocol(cfg, g0, apps, now);
      if Admissible(cfg, w, w.requests[0]) {
        GrantKeepsProtocol(w, apps, now);
      } else {
        MoveKeepsProtocol(w, apps);
      }
    }
  }

  lemma {:induction false} TryScheduleKeepsProtocol(cfg: Config, g: Gpu, apps: map<ClientId, App>, now: nat)
    requires ValidConfig(cfg) && Listed(g) && Protocol(g, apps)
    ensures Protocol(TrySchedule(cfg, g, now), apps)
    decreases |g.requests| + |g.waitQueue|, |g.requests|
  {
    PassKeepsProtocol(cfg, g, apps, now);
    var (r, done) := Pass(cfg, g, now);
    if !done {
      TryScheduleKeepsProtocol(cfg, r, apps, now);
    }
  }

  lemma ThrottleStays(cfg: Config, g: Gpu, c: ClientId, now: nat)
    requires c in g.clients
    ensures StaysIn(g, Throttle(cfg, g, now), c)
  {
    var k' := Throttle(cfg, g, now).clients[c];
    assert k' == g.clients[c] || k' == Cut(g.clients[c], Concurrency(g), now);
  }

  lemma RotateStays(g: Gpu, c: ClientId, now: nat)
    requires c in g.clients
    ensures StaysIn(g, Rotate(g, now), c)
  {
    var k' := Rotate(g, now).clients[c];
    assert k' == g.clients[c] || k' == GpuModel.Ask(g.clients[c], Concurrency(g), now);
  }

  lemma TimerWakeKeepsProtocol(cfg: Config, g: Gpu, apps: map<ClientId, App>, fullQuantum: bool, now: nat)
    requires Protocol(g, apps)
    ensures Protocol(TimerWake(cfg, g, fullQuantum, now), apps)
  {
    var t := Throttle(cfg, g, now);
    forall c | c in apps ensures StaysIn(g, t, c) {
      ThrottleStays(cfg, g, c, now);
    }
    StayKeepsProtocol(g, t, apps);
    RotateKeepsProtocol(t, apps, now);
  }

  lemma RotateKeepsProtocol(g: Gpu, apps: map<ClientId, App>, now: nat)
    requires Protocol(g, apps)
    ensures Protocol(Rotate(g, now), apps)
  {
    var r := Rotate(g, now);
    forall c | c in apps ensures StaysIn(g, r, c) {
      RotateStays(g, c, now);
    }
    StayKeepsProtocol(g, r, apps);
  }

  lemma MemUpdateStays(cfg: Config, g: Gpu, c: ClientId, usage: nat, d: ClientId, now: nat)
    requires c in g.clients && d in g.clients
    ensures d in OnMemUpdate(cfg, g, c, usage, now).clients
    ensures StaysIn(g, OnMemUpdate(cfg, g, c, usage, now), d)
  {
    var k := g.clients[d].(memory := if d == c then usage else g.clients[d].memory);
    var k' := OnMemUpdate(cfg, g, c, usage, now).clients[d];
    assert k' == k || k' == Preempt(k, now);
  }

  lemma MemUpdateKeepsProtocol(cfg: Config, g: Gpu, apps: map<ClientId, App>, c: ClientId, usage: nat, now: nat)
    requires Protocol(g, apps) && c in g.clients
    ensures Protocol(OnMemUpdate(cfg, g, c, usage, now), apps)
  {
    var r := OnMemUpdate(cfg, g, c, usage, now);
    assert r.clients.Keys == g.clients.Keys;
    forall d | d in apps ensures StaysIn(g, r, d) {
      MemUpdateStays(cfg, g, c, usage, d, now);
    }
    StayKeepsProtocol(g, r, apps);
  }

  // ---------------------------------------------------------------- messages read by the scheduler

  function Read(apps: map<ClientId, App>, c: ClientId): map<ClientId, App>
    requires c in apps && apps[c].outbox != []
  {
    apps[c := apps[c].(outbox := apps[c].outbox[1..])]
  }

  /** A lock request is read: its sender is on no list. */
  lemma RequestIsFresh(g: Gpu, apps: map<ClientId, App>, c: ClientId)
    requires Protocol(g, apps) && c in apps && apps[c].outbox != [] && apps[c].outbox[0] == ReqLock
    ensures !Queued(g, c) && c !in g.running
  {
    assert ClientOk(apps[c], g.clients[c], Queued(g, c), c in g.running);
    assert Locks(apps[c].outbox)[0] == ReqLock;
  }

  lemma InsertKeepsProtocol(g: Gpu, apps: map<ClientId, App>, c: ClientId)
    requires Protocol(g, apps) && c in apps && apps[c].outbox != [] && apps[c].outbox[0] == ReqLock
    ensures Protocol(InsertReq(g, c), Read(apps, c))
  {
    RequestIsFresh(g, apps, c);
    var r, apps' := InsertReq(g, c), Read(apps, c);
    forall d | d in apps' ensures ClientOk(apps'[d], r.clients[d], Queued(r, d), d in r.running) {
      assert ClientOk(apps[d], g.clients[d], Queued(g, d), d in g.running);
      if d == c {
        assert Locks(apps[c].outbox) == [ReqLock] + Locks(apps'[c].outbox);
      }
    }
  }

  lemma ReleaseStays(cfg: Config, g: Gpu, c: ClientId, d: ClientId, now: nat)
    requires c in g.clients && d in g.clients
    ensures var r := Release(cfg, g, c, now);
            && Stays(g.clients[d], r.clients[d])
            && Queued(r, d) == Queued(g, d)
            && (d in r.running <==> d in g.running && d != c)
  {
    var r := Release(cfg, g, c, now);
    var k, k' := g.clients[d], r.clients[d];
    if c in g.running && d == c {
      assert k' == Leave(k, LeaveFee(cfg, k, Concurrency(Accrue(g, now, {c})), now));
    } else {
      assert k' == k || k' == Settle(k, Concurrency(g), now);
    }
  }

  lemma ReleasedOk(a: App, k: Client, queued: bool, running: bool)
    requires ClientOk(a, k, queued, running) && a.outbox != [] && a.outbox[0] == LockReleased
    ensures !queued && running
    ensures ClientOk(a.(outbox := a.outbox[1..]), k, false, false)
  {
    var rest := Locks(a.outbox[1..]);
    assert Locks(a.outbox) == [LockReleased] + rest;
    assert Locks(a.outbox)[0] == LockReleased;
    assert rest == Locks(a.outbox)[1..];
  }

  /** A release is read: its sender is running, and no longer. */
  lemma ReleaseKeepsProtocol(cfg: Config, g: Gpu, apps: map<ClientId, App>, c: ClientId, now: nat)
    requires Protocol(g, apps) && c in apps && apps[c].outbox != [] && apps[c].outbox[0] == LockReleased
    ensures Protocol(Release(cfg, g, c, now), Read(apps, c))
    ensures !Queued(g, c) && c in g.running
  {
    var r, apps' := Release(cfg, g, c, now), Read(apps, c);
    ReleasedOk(apps[c], g.clients[c], Queued(g, c), c in g.running);
    forall d | d in apps' ensures ClientOk(apps'[d], r.clients[d], Queued(r, d), d in r.running) {
      ReleaseStays(cfg, g, c, d, now);
      StaysOk(apps'[d], g.clients[d], r.clients[d], Queued(r, d), d in r.running);
    }
  }

  lemma ReadMemUpdate(g: Gpu, apps: map<ClientId, App>, c: ClientId)
    requires Protocol(g, apps) && c in apps && apps[c].outbox != [] && apps[c].outbox[0].MemUpdate?
    ensures Protocol(g, Read(apps, c))
  {
    forall d | d in apps ensures ClientOk(Read(apps, c)[d], g.clients[d], Queued(g, d), d in g.running) {
      assert ClientOk(apps[d], g.clients[d], Queued(g, d), d in g.running);
    }
  }

  /** The rest of `remove_req` once the client is off the running list. */
  lemma AdmitKeepsProtocol(cfg: Config, g: Gpu, apps: map<ClientId, App>, now: nat)
    requires ValidConfig(cfg) && Listed(g) && Protocol(g, apps)
    ensures Protocol(TrySchedule(cfg, CheckWaitQueue(cfg, g, now), now), apps)
  {
    CheckKeepsProtocol(cfg, g, apps, now);
    TryScheduleKeepsProtocol(cfg, CheckWaitQueue(cfg, g, now), apps, now);
  }

  lemma ForgetKeepsProtocol(g: Gpu, apps: map<ClientId, App>, c: ClientId)
    requires Protocol(g, apps) && (c in apps ==> !Queued(g, c))
    ensures Protocol(Forget(g, c), apps)
  {
    StayKeepsProtocol(g, Forget(g, c), apps);
  }

  lemma RemoveReqKeepsProtocol(cfg: Config, g: Gpu, apps: map<ClientId, App>, c: ClientId, now: nat)
    requires ValidConfig(cfg) && Listed(g) && c in g.clients
    requires Protocol(Release(cfg, g, c, now), apps)
    requires c in apps ==> c !in Everyone(Release(cfg, g, c, now))
    ensures Protocol(RemoveReq(cfg, g, c, now), apps)
  {
    var g1 := Release(cfg, g, c, now);
    if g1.running == [] {
      AdmitKeepsProtocol(cfg, g1, apps, now);
      if c in apps {
        OutsiderStaysOut(cfg, g1, c, now);
      }
      ForgetKeepsProtocol(TrySchedule(cfg, CheckWaitQueue(cfg, g1, now), now), apps, c);
    } else {
      ForgetKeepsProtocol(g1, apps, c);
    }
  }

  lemma LockReleasedKeepsProtocol(cfg: Config, g: Gpu, apps: map<ClientId, App>, c: ClientId, now: nat)
    requires ValidConfig(cfg) && Listed(g) && Protocol(g, apps)
    requires c in apps && apps[c].outbox != [] && apps[c].outbox[0] == LockReleased
    ensures Protocol(OnLockReleased(cfg, g, c, now), Read(apps, c))
  {
    ReleaseKeepsProtocol(cfg, g, apps, c, now);
    ReleaseStays(cfg, g, c, c, now);
    RemoveReqKeepsProtocol(cfg, g, Read(apps, c), c, now);
    TryScheduleKeepsProtocol(cfg, RemoveReq(cfg, g, c, now), Read(apps, c), now);
  }

  lemma ReqLockKeepsProtocol(cfg: Config, g: Gpu, apps: map<ClientId, App>, c: ClientId, now: nat)
    requires ValidConfig(cfg) && Listed(g) && Protocol(g, apps)
    requires c in apps && apps[c].outbox != [] && apps[c].outbox[0] == ReqLock
    ensures c !in g.waitQueue && c !in g.running
    ensures Protocol(OnReqLock(cfg, g, c, now), Read(apps, c))
  {
    RequestIsFresh(g, apps, c);
    InsertKeepsProtocol(g, apps, c);
    InsertQuiet(g, c);
    TryScheduleKeepsProtocol(cfg, InsertReq(g, c), Read(apps, c), now);
  }

  // ---------------------------------------------------------------- a client disappears

  lemma LeaverKeepsProtocol(cfg: Config, g: Gpu, apps: map<ClientId, App>, c: ClientId, now: nat)
    requires Protocol(g, apps) && c in g.clients && c !in apps
    ensures Protocol(Release(cfg, g, c, now), apps)
  {
    var r := Release(cfg, g, c, now);
    forall d | d in apps ensures StaysIn(g, r, d) {
      ReleaseStays(cfg, g, c, d, now);
    }
    StayKeepsProtocol(g, r, apps);
  }

  lemma DisconnectKeepsProtocol(cfg: Config, g: Gpu, apps: map<ClientId, App>, c: ClientId, now: nat)
    requires ValidConfig(cfg) && Listed(g) && Protocol(g, apps)
    requires c in g.clients && OnDisconnect(cfg, g, c, now).Gone?
    ensures Protocol(OnDisconnect(cfg, g, c, now).gpu, apps - {c})
  {
    var rest := apps - {c};
    LeaverKeepsProtocol(cfg, g, rest, c, now);
    RemoveReqKeepsProtocol(cfg, g, rest, c, now);
    var g1 := RemoveReq(cfg, g, c, now);
    UnregisterKeepsProtocol(g1, rest, c);
    TryScheduleKeepsProtocol(cfg, Unregister(g1, c), rest, now);
  }

  lemma UnregisterKeepsProtocol(g: Gpu, apps: map<ClientId, App>, c: ClientId)
    requires Listed(g) && Protocol(g, apps) && c !in apps
    requires c !in g.requests && c !in g.waitQueue && c !in g.running
    ensures Protocol(Unregister(g, c), apps)
  {
    var r := Unregister(g, c);
    forall d | d in apps ensures ClientOk(apps[d], r.clients[d], Queued(r, d), d in r.running) {
      assert ClientOk(apps[d], g.clients[d], Queued(g, d), d in g.running);
    }
  }

  // ---------------------------------------------------------------- client steps

  function Pop(g: Gpu, c: ClientId): Gpu
    requires c in g.clients && g.clients[c].socket != []
  {
    g.(clients := g.clients[c := g.clients[c].(socket := g.clients[c].socket[1..])])
  }

  lemma AskOk(a: App, k: Client, queued: bool, running: bool)
    requires ClientOk(a, k, queued, running)
    ensures ClientOk(Ask(a), k, queued, running)
    ensures Ask(a).ownLock || Ask(a).needLock
    ensures Ask(a).outbox == if a.ownLock || a.needLock then a.outbox else a.outbox + [ReqLock]
  {
    LocksAppend(a.outbox, ReqLock);
  }

  lemma SurrenderOk(a: App, k: Client, queued: bool, running: bool)
    requires ClientOk(a, k, queued, running)
    ensures ClientOk(Surrender(a), k, queued, running)
    ensures !Surrender(a).ownLock && Surrender(a).needLock == a.needLock
    ensures Surrender(a).outbox == if a.ownLock then a.outbox + [LockReleased] else a.outbox
  {
    LocksAppend(a.outbox, LockReleased);
  }

  lemma ReportOk(a: App, k: Client, queued: bool, running: bool, usage: nat)
    requires ClientOk(a, k, queued, running)
    ensures ClientOk(a.(outbox := a.outbox + [MemUpdate(usage)]), k, queued, running)
  {
    LocksAppend(a.outbox, MemUpdate(usage));
  }

  /** A message is delivered.  A LOCK_OK reaches a client that does not own the lock; a
      DROP_LOCK that finds the client owning the lock was sent for that very grant. */
  lemma ReceiveOk(a: App, k: Client, queued: bool, running: bool)
    requires ClientOk(a, k, queued, running) && k.socket != []
    ensures ClientOk(Receive(a, k.socket[0]), k.(socket := k.socket[1..]), queued, running)
    ensures k.socket[0].kind == LockOk ==>
              !a.ownLock && running && Receive(a, k.socket[0]).ownLock && !Receive(a, k.socket[0]).needLock
    ensures k.socket[0].kind == DropLock ==> !Receive(a, k.socket[0]).ownLock
    ensures k.socket[0].kind == DropLock && a.ownLock ==> k.socket[0].grant == a.ownGrant
  {
    var m, rest := k.socket[0], k.socket[1..];
    var a', k' := Receive(a, m), k.(socket := rest);
    LocksAppend(a.outbox, LockReleased);
    OksMember(rest);
    assert forall i :: 0 <= i < |rest| ==> rest[i] == k.socket[i + 1];
  }
}
