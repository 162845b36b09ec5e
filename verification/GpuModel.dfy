/** The scheduler's view of one GPU as a value, and every handler of the scheduler as a
    function on that value.  The class in GpuScheduler.dfy does the same work in place
    and is proved to compute exactly these functions. */
module GpuModel {
  import opened Lists
  import opened Arith

  datatype Mode = Auto | Serial | Concurrent

  datatype Config = Config(
    mode: Mode,
    fixedSwitch: bool,       // switch time: fixed, or computed from memory use
    fixedSwitchSec: int,
    multiplier: int,
    reservePercent: int,
    sampleMs: int,
    windowMs: int,           // length of the compute window
    carryPercent: int,       // share of an overrun carried to the next window
    tailPercent: int)        // share of a drop tail that is billed

  /** What the configuration reader's clamps guarantee, and a reserve that is a percentage. */
  predicate ValidConfig(cfg: Config) {
    && 0 <= cfg.reservePercent <= 100
    && 10 <= cfg.sampleMs <= 1000
    && 500 <= cfg.windowMs <= 20000
    && 0 <= cfg.carryPercent <= 100
    && 0 <= cfg.tailPercent <= 100
  }

  datatype Kind = LockOk | DropLock | WaitForMem | MemAvailable

  /** A message on its way to a client.  `grant` is history only: the number of LOCK_OK
      messages sent to that client so far, this one included. */
  datatype Message = Message(kind: Kind, grant: nat)

  datatype Client = Client(
    coreLimit: int,
    memory: nat,
    isRunning: bool,
    runTime: int,            // billed in the current window, ms
    runStart: nat,           // start of the segment not yet billed, ms
    throttled: bool,
    pendingDrop: bool,
    dropConcurrency: int,
    lastDropSent: nat,
    debt: int,
    socket: seq<Message>,    // sent, not yet received by the client
    // History, read by no handler:
    grants: nat,             // LOCK_OK messages sent
    timerDrops: nat,         // DROP_LOCK messages the timer sent since the last LOCK_OK
    charged: int,            // everything ever added to runTime by billing
    consumed: int,           // usage paid for by the windows that closed
    forgiven: int)           // overrun dropped when windows closed

  datatype Gpu = Gpu(
    requests: seq<ClientId>,
    waitQueue: seq<ClientId>,
    running: seq<ClientId>,
    lockHeld: bool,
    totalMemory: nat,
    runningMemory: nat,
    overloaded: bool,
    windowStart: nat,
    order: seq<ClientId>,              // the registered clients, in list order
    clients: map<ClientId, Client>,
    billed: int)                       // history: charges to limited clients outside drop tails

  ghost predicate Disjoint(a: seq<ClientId>, b: seq<ClientId>) {
    forall c :: c in a ==> c !in b
  }

  /** No client is on two of the three lists, or twice on one of them, and every list
      entry is a registered client. */
  ghost predicate Listed(g: Gpu) {
    && Distinct(g.requests) && Distinct(g.waitQueue) && Distinct(g.running) && Distinct(g.order)
    && Disjoint(g.requests, g.waitQueue)
    && Disjoint(g.requests, g.running)
    && Disjoint(g.waitQueue, g.running)
    && (forall c :: c in g.order <==> c in g.clients)
    && (forall c :: c in g.requests || c in g.waitQueue || c in g.running ==> c in g.clients)
  }

  // ---------------------------------------------------------------- sums over a list

  /** What a client contributes to a sum over a list. */
  datatype Measure =
    | Memory                           // its allocated memory
    | Quota                            // its core limit, if it has one
    | Limited                          // 1 if it is quota-limited
    | Active                           // 1 if it is quota-limited with no drop pending
    | Share(now: nat, n: int)          // what settling at `now` bills it
    | Segment(now: nat, n: int)        // its share of the segment that is open at `now`
    | Open(now: nat)                   // the time its open segment lasts, if it is active
    | Effective(windowMs: int, total: int)  // its effective quota, if it is limited

  predicate IsLimited(k: Client) { k.coreLimit < 100 }

  predicate IsActive(k: Client) { k.coreLimit < 100 && !k.pendingDrop }

  /** The clients that `accrue_running_usage` does not skip. */
  predicate Billable(k: Client, now: nat) {
    IsActive(k) && 0 < k.runStart < now
  }

  function Weight(k: Client, what: Measure): int {
    match what
    case Memory => k.memory
    case Quota => if IsLimited(k) then k.coreLimit else 0
    case Limited => if IsLimited(k) then 1 else 0
    case Active => if IsActive(k) then 1 else 0
    case Share(now, n) => if n > 0 && Billable(k, now) then (now - k.runStart) / n else 0
    case Segment(now, n) => if n > 0 then (now - k.runStart) / n else 0
    case Open(now) => if IsActive(k) then now - k.runStart else 0
    case Effective(windowMs, total) => if IsLimited(k) then EffectiveQuota(windowMs, total, k.coreLimit) else 0
  }

  /** Sum of a measure over a list.  An entry that is not a registered client counts 0. */
  function Weigh(s: seq<ClientId>, m: map<ClientId, Client>, what: Measure): int {
    if s == [] then
      0
    else
      var last := s[|s| - 1];
      Weigh(s[..|s| - 1], m, what) + (if last in m then Weight(m[last], what) else 0)
  }

  // ---------------------------------------------------------------- quotas

  function TotalQuota(g: Gpu): int {
    var total := Weigh(g.order, g.clients, Quota);
    if total > 0 then total else 100
  }

  /** The quota of a client in ms, scaled down when the limits add up to more than 100. */
  function EffectiveQuota(windowMs: int, total: int, coreLimit: int): int {
    var base := windowMs * coreLimit / 100;
    if total <= 100 then base else base * 100 / total
  }

  function QuotaOf(cfg: Config, g: Gpu, k: Client): int {
    EffectiveQuota(cfg.windowMs, TotalQuota(g), k.coreLimit)
  }

  /** Limited clients on the running list, at least 1. */
  function Concurrency(g: Gpu): (n: int)
    ensures n >= 1
  {
    var count := Weigh(g.running, g.clients, Limited);
    if count > 0 then count else 1
  }

  // ---------------------------------------------------------------- billing

  function Charge(k: Client, fee: int): Client {
    k.(runTime := k.runTime + fee, charged := k.charged + fee)
  }

  /** What settling does to a client. */
  function Settle(k: Client, n: int, now: nat): Client
    requires n >= 1
  {
    if Billable(k, now) then Charge(k, (now - k.runStart) / n).(runStart := now) else k
  }

  /** Settle the running limited clients up to `now`, except those in `exclude`. */
  function Accrue(g: Gpu, now: nat, exclude: set<ClientId>): (r: Gpu)
    ensures Listed(g) ==> Listed(r)
    ensures r == g.(clients := r.clients, billed := r.billed)
    ensures r.clients.Keys == g.clients.Keys
  {
    var n := Concurrency(g);
    g.(clients := map c | c in g.clients ::
         if c in g.running && c !in exclude then Settle(g.clients[c], n, now) else g.clients[c],
       billed := g.billed + Weigh(g.running, g.clients - exclude, Share(now, n)))
  }

  /** One client at a window boundary: what exceeds the limit is carried over in part. */
  function CloseWindow(cfg: Config, limit: int, k: Client): Client {
    if IsLimited(k) then
      var over := Max(0, k.runTime - limit);
      var carry := over * cfg.carryPercent / 100;
      k.(debt := carry, runTime := carry, throttled := false,
         consumed := k.consumed + Min(k.runTime, limit),
         forgiven := k.forgiven + (over - carry))
    else
      k.(debt := 0, runTime := 0, throttled := false, consumed := k.consumed + k.runTime)
  }

  predicate WindowDue(cfg: Config, g: Gpu, now: nat) {
    g.windowStart != 0 && now - g.windowStart >= cfg.windowMs
  }

  function ResetWindow(cfg: Config, g: Gpu, now: nat): (r: Gpu)
    ensures Listed(g) ==> Listed(r)
    ensures r == g.(clients := r.clients, billed := r.billed, windowStart := r.windowStart)
    ensures r.clients.Keys == g.clients.Keys
  {
    if g.windowStart == 0 then
      g.(windowStart := now)
    else if WindowDue(cfg, g, now) then
      var a := Accrue(g.(windowStart := now), now, {});
      a.(clients := map c | c in a.clients :: CloseWindow(cfg, QuotaOf(cfg, a, a.clients[c]), a.clients[c]))
    else
      g
  }

  // ---------------------------------------------------------------- admission

  function SafeLimit(cfg: Config, g: Gpu): int {
    g.totalMemory * (100 - cfg.reservePercent) / 100
  }

  predicate MemoryOk(cfg: Config, g: Gpu, k: Client) {
    if g.overloaded || cfg.mode == Serial then
      !g.lockHeld
    else
      || g.runningMemory == 0
      || g.runningMemory + k.memory <= SafeLimit(cfg, g)
      || (cfg.mode == Auto && !g.lockHeld)
  }

  predicate QuotaOk(cfg: Config, g: Gpu, k: Client) {
    IsLimited(k) ==> !k.throttled && k.runTime < QuotaOf(cfg, g, k)
  }

  /** `can_run` once the window is fresh. */
  predicate Admissible(cfg: Config, g: Gpu, c: ClientId) {
    c in g.clients && QuotaOk(cfg, g, g.clients[c]) && MemoryOk(cfg, g, g.clients[c])
  }

  // ---------------------------------------------------------------- list moves

  function Send(k: Client, kind: Kind): Client {
    k.(socket := k.socket + [Message(kind, k.grants)])
  }

  function InsertReq(g: Gpu, c: ClientId): Gpu {
    if c in g.requests then g else g.(requests := g.requests + [c])
  }

  /** Head of the requests to the end of the wait queue. */
  function MoveToWaitQueue(g: Gpu): (r: Gpu)
    requires g.requests != [] && Listed(g)
    ensures Listed(r)
    ensures r.clients.Keys == g.clients.Keys
  {
    var c := g.requests[0];
    var k := g.clients[c];
    assert c !in g.waitQueue && c !in g.requests[1..];
    g.(requests := g.requests[1..],
       waitQueue := g.waitQueue + [c],
       clients := g.clients[c := if IsLimited(k) && k.throttled then k else Send(k, WaitForMem)])
  }

  /** Entry i of the wait queue to the front of the requests. */
  function Promote(g: Gpu, i: nat): (r: Gpu)
    requires i < |g.waitQueue| && Listed(g)
    ensures Listed(r)
    ensures r.clients.Keys == g.clients.Keys
  {
    var c := g.waitQueue[i];
    g.(requests := [c] + g.requests,
       waitQueue := g.waitQueue[..i] + g.waitQueue[i + 1..],
       clients := g.clients[c := Send(g.clients[c], MemAvailable)])
  }

  /** Index of the first client of q that may run, |q| if there is none. */
  function FirstAdmissible(cfg: Config, g: Gpu, q: seq<ClientId>): (i: nat)
    ensures i <= |q|
    ensures forall j :: 0 <= j < i ==> !Admissible(cfg, g, q[j])
    ensures i < |q| ==> Admissible(cfg, g, q[i])
  {
    if q == [] || Admissible(cfg, g, q[0]) then 0 else 1 + FirstAdmissible(cfg, g, q[1..])
  }

  function CheckWaitQueue(cfg: Config, g: Gpu, now: nat): (r: Gpu)
    requires Listed(g)
    ensures Listed(r)
    ensures r.clients.Keys == g.clients.Keys
  {
    if g.waitQueue == [] then
      g
    else
      var w := ResetWindow(cfg, g, now);
      var i := FirstAdmissible(cfg, w, w.waitQueue);
      if i < |w.waitQueue| then Promote(w, i) else w
  }

  /** What LOCK_OK does to a client. */
  function Start(k: Client, now: nat): Client {
    Send(k.(isRunning := true, pendingDrop := false, dropConcurrency := 1, runStart := now,
            grants := k.grants + 1, timerDrops := 0), LockOk)
  }

  /** Head of the requests to the end of the running list, with LOCK_OK. */
  function Place(g: Gpu, now: nat): (r: Gpu)
    requires g.requests != [] && g.requests[0] in g.clients
    ensures Listed(g) ==> Listed(r)
    ensures r.clients.Keys == g.clients.Keys
  {
    var c := g.requests[0];
    var k := g.clients[c];
    assert Listed(g) ==> c !in g.running && c !in g.requests[1..];
    g.(requests := g.requests[1..],
       running := g.running + [c],
       lockHeld := true,
       runningMemory := g.runningMemory + k.memory,
       clients := g.clients[c := Start(k, now)])
  }

  /** Settle the runners, then let the head of the requests run. */
  function Grant(g: Gpu, now: nat): (r: Gpu)
    requires g.requests != [] && g.requests[0] in g.clients
    ensures Listed(g) ==> Listed(r)
    ensures r.clients.Keys == g.clients.Keys
  {
    Place(if g.running != [] then Accrue(g, now, {}) else g, now)
  }

  // ---------------------------------------------------------------- scheduling

  lemma ResetWindowIdempotent(cfg: Config, g: Gpu, now: nat)
    requires ValidConfig(cfg)
    ensures ResetWindow(cfg, ResetWindow(cfg, g, now), now) == ResetWindow(cfg, g, now)
  {
    if now == 0 && g.windowStart == 0 {
      assert ResetWindow(cfg, g, now) == g;
    }
  }

  /** A client promoted from the wait queue passes the check that `try_schedule` repeats. */
  lemma PromotedIsAdmissible(cfg: Config, g: Gpu, now: nat)
    requires ValidConfig(cfg) && Listed(g)
    requires g.requests == [] && CheckWaitQueue(cfg, g, now).requests != []
    ensures var r := CheckWaitQueue(cfg, g, now);
            && ResetWindow(cfg, r, now) == r
            && Admissible(cfg, r, r.requests[0])
            && |r.requests| == 1 && |r.waitQueue| == |g.waitQueue| - 1
  {
    var w := ResetWindow(cfg, g, now);
    ResetWindowIdempotent(cfg, g, now);
    var i := FirstAdmissible(cfg, w, w.waitQueue);
    var c := w.waitQueue[i];
    var r := Promote(w, i);
    QuotaUnaffected(w, r);
  }

  /** Quotas depend on nothing but the core limits of the registered clients. */
  lemma {:induction false} SameWeights(s: seq<ClientId>, m: map<ClientId, Client>, m': map<ClientId, Client>, what: Measure)
    requires forall c :: c in s ==> (c in m <==> c in m')
    requires forall c :: c in s && c in m && c in m' ==> Weight(m[c], what) == Weight(m'[c], what)
    ensures Weigh(s, m, what) == Weigh(s, m', what)
  {
    if s != [] {
      SameWeights(s[..|s| - 1], m, m', what);
    }
  }

  lemma QuotaUnaffected(g: Gpu, g': Gpu)
    requires g'.order == g.order && g'.clients.Keys == g.clients.Keys
    requires forall c :: c in g.clients ==> g'.clients[c].coreLimit == g.clients[c].coreLimit
    ensures TotalQuota(g') == TotalQuota(g)
  {
    SameWeights(g.order, g.clients, g'.clients, Quota);
  }

  /** One pass of the loop in `try_schedule`, and whether the round ends with it. */
  function Pass(cfg: Config, g: Gpu, now: nat): (p: (Gpu, bool))
    requires ValidConfig(cfg) && Listed(g)
    ensures Listed(p.0)
    ensures p.0.clients.Keys == g.clients.Keys
    ensures !p.1 ==> var before, after := |g.requests| + |g.waitQueue|, |p.0.requests| + |p.0.waitQueue|;
                     after < before || (after == before && |p.0.requests| < |g.requests|)
  {
    var g0 := if g.requests == [] then CheckWaitQueue(cfg, g, now) else g;
    if g0.requests == [] then
      (g0, true)
    else
      var w := ResetWindow(cfg, g0, now);
      assert g.requests == [] ==>
          Admissible(cfg, w, w.requests[0]) && |w.requests| + |w.waitQueue| == |g.waitQueue| by {
        if g.requests == [] { PromotedIsAdmissible(cfg, g, now); }
      }
      if Admissible(cfg, w, w.requests[0])
      then (Grant(w, now), cfg.mode == Serial)
      else (MoveToWaitQueue(w), false)
  }

  function TrySchedule(cfg: Config, g: Gpu, now: nat): (r: Gpu)
    requires ValidConfig(cfg) && Listed(g)
    ensures Listed(r)
    ensures r.clients.Keys == g.clients.Keys
    decreases |g.requests| + |g.waitQueue|, |g.requests|
  {
    var (r, done) := Pass(cfg, g, now);
    if done then r else TrySchedule(cfg, r, now)
  }

  // ---------------------------------------------------------------- leaving

  /** The fee for the time a client spent between DROP_LOCK and LOCK_RELEASED. */
  function TailFee(cfg: Config, k: Client, duration: int): int {
    var n := if k.dropConcurrency > 0 then k.dropConcurrency else 1;
    duration / n * cfg.tailPercent / 100
  }

  /** What leaving the running list does to a client. */
  function Leave(k: Client, fee: int): Client {
    Charge(k, fee).(isRunning := false, pendingDrop := false, dropConcurrency := 1, lastDropSent := 0)
  }

  /** The bill for the segment a leaving client has open. */
  function LeaveFee(cfg: Config, k: Client, n: int, now: nat): int
    requires n >= 1
  {
    var duration := now - k.runStart;
    if duration <= 0 then 0
    else if k.pendingDrop then TailFee(cfg, k, duration)
    else duration / n
  }

  /** Take runner c off the running list and bill it; the others are settled. */
  function TakeOff(cfg: Config, g: Gpu, c: ClientId, now: nat): (r: Gpu)
    requires c in g.clients
    ensures Listed(g) ==> Listed(r)
    ensures r.clients.Keys == g.clients.Keys
  {
    var k := g.clients[c];
    var fee := LeaveFee(cfg, k, Concurrency(g), now);
    var rest := Without(g.running, c);
    g.(runningMemory := if g.runningMemory >= k.memory then g.runningMemory - k.memory else 0,
       running := rest,
       lockHeld := g.lockHeld && rest != [],
       clients := g.clients[c := Leave(k, fee)],
       billed := g.billed + (if IsActive(k) then fee else 0))
  }

  /** Take client c off the running list, if it is there. */
  function Release(cfg: Config, g: Gpu, c: ClientId, now: nat): (r: Gpu)
    requires c in g.clients
    ensures Listed(g) ==> Listed(r)
    ensures r.clients.Keys == g.clients.Keys
  {
    if c in g.running
    then TakeOff(cfg, Accrue(g, now, {c}), c, now)
    else g.(lockHeld := g.lockHeld && g.running != [])
  }

  /** Drop the entries of client c from the requests and the wait queue. */
  function Forget(g: Gpu, c: ClientId): (r: Gpu)
    ensures Listed(g) ==> Listed(r)
    ensures r.clients.Keys == g.clients.Keys
  {
    g.(requests := Without(g.requests, c), waitQueue := Without(g.waitQueue, c))
  }

  function RemoveReq(cfg: Config, g: Gpu, c: ClientId, now: nat): (r: Gpu)
    requires ValidConfig(cfg) && Listed(g) && c in g.clients
    ensures Listed(r)
    ensures r.clients.Keys == g.clients.Keys
  {
    var g1 := Release(cfg, g, c, now);
    var g2 := if g1.running == [] then TrySchedule(cfg, CheckWaitQueue(cfg, g1, now), now) else g1;
    Forget(g2, c)
  }

  // ---------------------------------------------------------------- messages

  function OnReqLock(cfg: Config, g: Gpu, c: ClientId, now: nat): (r: Gpu)
    requires ValidConfig(cfg) && Listed(g) && c in g.clients
    requires c !in g.waitQueue && c !in g.running
    ensures Listed(r)
    ensures r.clients.Keys == g.clients.Keys
  {
    var g1 := InsertReq(g, c);
    if cfg.mode == Serial && g.lockHeld then g1 else TrySchedule(cfg, g1, now)
  }

  function OnLockReleased(cfg: Config, g: Gpu, c: ClientId, now: nat): (r: Gpu)
    requires ValidConfig(cfg) && Listed(g) && c in g.clients
    ensures Listed(r)
    ensures r.clients.Keys == g.clients.Keys
  {
    var g1 := RemoveReq(cfg, g, c, now);
    if g1.lockHeld then g1 else TrySchedule(cfg, g1, now)
  }

  function Preempt(k: Client, now: nat): Client {
    Send(k, DropLock).(lastDropSent := now)
  }

  /** DROP_LOCK to every runner, on overload. */
  function ForcePreemption(g: Gpu, now: nat): (r: Gpu)
    ensures Listed(g) ==> Listed(r)
    ensures r == g.(clients := r.clients)
    ensures r.clients.Keys == g.clients.Keys
  {
    g.(clients := map c | c in g.clients ::
         if c in g.running then Preempt(g.clients[c], now) else g.clients[c])
  }

  function OnMemUpdate(cfg: Config, g: Gpu, c: ClientId, usage: nat, now: nat): (r: Gpu)
    requires c in g.clients
    ensures Listed(g) ==> Listed(r)
    ensures r.clients.Keys == g.clients.Keys
  {
    var k := g.clients[c];
    var g1 := g.(clients := g.clients[c := k.(memory := usage)]);
    if !k.isRunning then
      g1
    else
      var base := if g.runningMemory >= k.memory then g.runningMemory - k.memory else g.runningMemory;
      var g2 := g1.(runningMemory := base + usage);
      if !g.overloaded && g2.runningMemory > SafeLimit(cfg, g)
      then ForcePreemption(g2.(overloaded := true), now)
      else g2
  }

  // ---------------------------------------------------------------- the timer

  function TimerWindow(cfg: Config, g: Gpu, now: nat): (r: Gpu)
    requires ValidConfig(cfg) && Listed(g)
    ensures Listed(r)
    ensures r.clients.Keys == g.clients.Keys
  {
    var w := ResetWindow(cfg, g, now);
    if WindowDue(cfg, g, now) then TrySchedule(cfg, w, now) else w
  }

  /** Usage of a runner at `now`: what is billed plus its share of the open segment. */
  function UsageAt(k: Client, n: int, now: nat): int
    requires n >= 1
  {
    k.runTime + (now - k.runStart) / n
  }

  /** A runner among n limited ones has used up its quota. */
  predicate Overrun(cfg: Config, g: Gpu, k: Client, n: int, now: nat)
    requires n >= 1
  {
    IsActive(k) && !k.throttled && UsageAt(k, n, now) >= QuotaOf(cfg, g, k)
  }

  /** The running clients that used up their quota. */
  function OverrunRunners(cfg: Config, g: Gpu, now: nat): set<ClientId> {
    set c | c in g.running && c in g.clients && Overrun(cfg, g, g.clients[c], Concurrency(g), now)
  }

  /** What throttling does to a runner. */
  function Cut(k: Client, n: int, now: nat): Client
    requires n >= 1
  {
    Send(Charge(k, (now - k.runStart) / n).(throttled := true, pendingDrop := true, dropConcurrency := n,
                                            runStart := now, lastDropSent := now,
                                            timerDrops := k.timerDrops + 1), DropLock)
  }

  /** Bill the runners that used up their quota and ask them to drop the lock. */
  function Throttle(cfg: Config, g: Gpu, now: nat): (r: Gpu)
    ensures Listed(g) ==> Listed(r)
    ensures r.clients.Keys == g.clients.Keys
  {
    var n := Concurrency(g);
    var hit := OverrunRunners(cfg, g, now);
    g.(clients := map c | c in g.clients ::
         if c in hit then Cut(g.clients[c], n, now) else g.clients[c],
       billed := g.billed + Weigh(g.running, map c | c in g.clients && c in hit :: g.clients[c], Segment(now, n)))
  }

  /** What a rotation does to a runner: nothing if it was asked to drop the lock before. */
  function Ask(k: Client, n: int, now: nat): Client {
    if !k.throttled && k.lastDropSent == 0
    then Send(k.(pendingDrop := true, dropConcurrency := n, lastDropSent := now,
                 timerDrops := k.timerDrops + 1), DropLock)
    else k
  }

  /** Ask every runner that has not been asked yet to drop the lock. */
  function Rotate(g: Gpu, now: nat): (r: Gpu)
    ensures Listed(g) ==> Listed(r)
    ensures r.clients.Keys == g.clients.Keys
  {
    g.(clients := map c | c in g.clients ::
         if c in g.running then Ask(g.clients[c], Concurrency(g), now) else g.clients[c])
  }

  /** The timer after its sleep; `fullQuantum` says that it slept a whole switch time undisturbed. */
  function TimerWake(cfg: Config, g: Gpu, fullQuantum: bool, now: nat): (r: Gpu)
    ensures Listed(g) ==> Listed(r)
    ensures r.clients.Keys == g.clients.Keys
  {
    var t := Throttle(cfg, g, now);
    if fullQuantum && (g.requests != [] || g.waitQueue != []) then Rotate(t, now) else t
  }

  // ---------------------------------------------------------------- registration

  function NewClient(coreLimit: int): Client {
    Client(coreLimit, 0, false, 0, 0, false, false, 1, 0, 0, [], 0, 0, 0, 0, 0)
  }

  function Register(g: Gpu, c: ClientId, coreLimit: int): (r: Gpu)
    requires c !in g.clients
    ensures Listed(g) ==> Listed(r)
  {
    g.(order := g.order + [c], clients := g.clients[c := NewClient(coreLimit)])
  }

  function Unregister(g: Gpu, c: ClientId): (r: Gpu)
    requires Listed(g)
    requires c !in g.requests && c !in g.waitQueue && c !in g.running
    ensures Listed(r)
  {
    g.(order := Without(g.order, c), clients := g.clients - {c})
  }

  function SetCoreLimit(g: Gpu, c: ClientId, coreLimit: int): (r: Gpu)
    requires c in g.clients
    ensures Listed(g) ==> Listed(r)
    ensures r.clients.Keys == g.clients.Keys
  {
    g.(clients := g.clients[c := g.clients[c].(coreLimit := coreLimit)])
  }
}
