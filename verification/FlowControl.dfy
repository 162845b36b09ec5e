/** The kernel window of a client: how many kernels it may launch before it has to
    synchronize.  The window grows while synchronizations are quick and shrinks when they
    take long. */
module FlowControl {
  import opened Arith

  const KERN_SYNC_WINDOW_MAX := 2048
  const INITIAL_WINDOW := 64
  const MILD_TIMEOUT_SEC := 1
  const ABUSE_THRESHOLD := 3

  /** The two settings that matter here; both come from the environment. */
  datatype Settings = Settings(criticalSec: int, floor: int)

  predicate ValidSettings(s: Settings) {
    1 <= s.floor <= KERN_SYNC_WINDOW_MAX
  }

  /** The largest window a client with this core limit may have. */
  function WindowMax(coreLimit: int): (cap: int)
    ensures 16 <= cap <= KERN_SYNC_WINDOW_MAX
    ensures coreLimit >= 100 ==> cap == 2048
    ensures coreLimit < 100 ==> cap <= 32
    ensures coreLimit < 100 && 2 * cap + 1 < coreLimit ==> cap == 32
    ensures coreLimit < 100 && coreLimit < 2 * cap ==> cap == 16
  {
    if coreLimit >= 100 then KERN_SYNC_WINDOW_MAX
    else if coreLimit < 32 then 16
    else if coreLimit > 65 then 32
    else coreLimit / 2
  }

  datatype Window = Window(size: int, sinceSync: nat, timeouts: nat)

  /** One synchronization: how long it took and what held at that time. */
  datatype Sync = Sync(seconds: nat, warmup: bool, coreLimit: int)

  predicate Timely(s: Settings, y: Sync) {
    y.seconds < s.criticalSec && y.seconds < 1
  }

  /** A second or more, but not critical. */
  predicate Mild(s: Settings, y: Sync) {
    1 <= y.seconds < s.criticalSec && !y.warmup
  }

  predicate Critical(s: Settings, y: Sync) {
    y.seconds >= s.criticalSec && !y.warmup
  }

  /** Events of a client: a launch, with the synchronization it leads to if the window is
      full; and a synchronization that the lock protocol asks for. */
  datatype Event = Launch(sync: Sync) | ContextSync

  /** The window after a synchronization. */
  function Adapt(s: Settings, w: Window, y: Sync): Window {
    var grown := Min(w.size * 2, WindowMax(y.coreLimit));
    if y.seconds >= s.criticalSec then
      if y.warmup then Window(grown, 0, w.timeouts)
      else if w.timeouts + 1 > ABUSE_THRESHOLD then Window(1, 0, w.timeouts + 1)
      else Window(Max(s.floor, w.size / 2), 0, w.timeouts + 1)
    else if y.seconds >= MILD_TIMEOUT_SEC && !y.warmup then Window(Max(s.floor, 4 * w.size / 5), 0, 0)
    else Window(grown, 0, 0)
  }

  predicate Full(w: Window) { w.sinceSync + 1 >= w.size }

  function Step(s: Settings, w: Window, e: Event): Window {
    match e
    case ContextSync => w.(size := 1)
    case Launch(y) => if Full(w) then Adapt(s, w, y) else w.(sinceSync := w.sinceSync + 1)
  }

  /** The state the original keeps in global variables. */
  class Launcher {
    var pendingKernelWindow: int
    var kernSinceSync: nat
    var consecutiveTimeoutCount: nat

    ghost function View(): Window
      reads this
    {
      Window(pendingKernelWindow, kernSinceSync, consecutiveTimeoutCount)
    }

    constructor ()
      ensures View() == Window(INITIAL_WINDOW, 0, 0)
    {
      pendingKernelWindow, kernSinceSync, consecutiveTimeoutCount := INITIAL_WINDOW, 0, 0;
    }

    method LaunchKernel(s: Settings, y: Sync)
      modifies this
      ensures View() == Step(s, old(View()), Launch(y))
    {
      kernSinceSync := kernSinceSync + 1;
      if kernSinceSync >= pendingKernelWindow {
        var cap := KernelWindowMax(y.coreLimit);
        if y.seconds >= s.criticalSec {
          if y.warmup {
            pendingKernelWindow := Min(pendingKernelWindow * 2, cap);
          } else {
            consecutiveTimeoutCount := consecutiveTimeoutCount + 1;
            if consecutiveTimeoutCount > ABUSE_THRESHOLD {
              pendingKernelWindow := 1;
            } else {
              pendingKernelWindow := Max(s.floor, pendingKernelWindow / 2);
            }
          }
        } else if y.seconds >= MILD_TIMEOUT_SEC {
          consecutiveTimeoutCount := 0;
          if y.warmup {
            pendingKernelWindow := Min(pendingKernelWindow * 2, cap);
          } else {
            pendingKernelWindow := Max(s.floor, 4 * pendingKernelWindow / 5);
          }
        } else {
          consecutiveTimeoutCount := 0;
          pendingKernelWindow := Min(pendingKernelWindow * 2, cap);
        }
        kernSinceSync := 0;
      }
    }

    /** The part of a context synchronization that concerns the window. */
    method SyncContext()
      modifies this
      ensures forall s :: View() == Step(s, old(View()), ContextSync)
    {
      pendingKernelWindow := 1;
    }
  }

  method KernelWindowMax(coreLimit: int) returns (cap: int)
    ensures cap == WindowMax(coreLimit)
  {
    if coreLimit >= 100 {
      cap := KERN_SYNC_WINDOW_MAX;
    } else {
      cap := coreLimit / 2;
      if cap < 16 { cap := 16; }
      if cap > 32 { cap := 32; }
    }
    if cap > KERN_SYNC_WINDOW_MAX { cap := KERN_SYNC_WINDOW_MAX; }
  }

  // ---------------------------------------------------------------- whole runs

  /** The window after a series of events. */
  function After(s: Settings, w: Window, run: seq<Event>): Window
    decreases |run|
  {
    if run == [] then w else Step(s, After(s, w, run[..|run| - 1]), run[|run| - 1])
  }

  /** The number of synchronizations that launches led to. */
  function Syncs(s: Settings, w: Window, run: seq<Event>): nat
    decreases |run|
  {
    if run == [] then 0 else
      var before := run[..|run| - 1];
      Syncs(s, w, before) + if run[|run| - 1].Launch? && Full(After(s, w, before)) then 1 else 0
  }

  predicate Bounded(w: Window) {
    && 1 <= w.size <= KERN_SYNC_WINDOW_MAX
    && w.sinceSync < KERN_SYNC_WINDOW_MAX
  }

  /** Whatever happens, the window stays within bounds, and so does the number of kernels
      launched since the last synchronization. */
  lemma {:induction false} WindowStaysBounded(s: Settings, w: Window, run: seq<Event>)
    requires ValidSettings(s) && Bounded(w)
    ensures Bounded(After(s, w, run))
    decreases |run|
  {
    if run != [] {
      WindowStaysBounded(s, w, run[..|run| - 1]);
    }
  }

  /** A series of launches whose synchronizations would all be timely, or in the warm-up when
      time does not matter, at one core limit. */
  predicate AllTimely(s: Settings, run: seq<Event>, coreLimit: int) {
    forall i :: 0 <= i < |run| ==>
      run[i].Launch? && (Timely(s, run[i].sync) || run[i].sync.warmup) && run[i].sync.coreLimit == coreLimit
  }

  /** Such synchronizations double the window until it reaches the cap. */
  lemma {:induction false} TimelySyncsDouble(s: Settings, w: Window, run: seq<Event>, coreLimit: int)
    requires w.size >= 1 && AllTimely(s, run, coreLimit)
    ensures var k := Syncs(s, w, run);
            After(s, w, run).size == if k == 0 then w.size else Min(Pow2(k) * w.size, WindowMax(coreLimit))
    decreases |run|
  {
    if run != [] {
      var n := |run| - 1;
      var before := run[..n];
      TimelySyncsDouble(s, w, before, coreLimit);
      var k := Syncs(s, w, before);
      assert Timely(s, run[n].sync) || run[n].sync.warmup;
      Doubling(k, w.size);
      assert After(s, w, run) == Step(s, After(s, w, before), run[n]);
    }
  }

  lemma Doubling(k: nat, x: int)
    requires x >= 1
    ensures Pow2(k + 1) * x == 2 * (Pow2(k) * x) && Pow2(k) * x >= 1
  {
    calc {
      Pow2(k + 1) * x;
      (2 * Pow2(k)) * x;
      2 * (Pow2(k) * x);
    }
  }

  /** Launches fill the window: as long as nothing else happens, exactly the launch that
      makes the count reach the window synchronizes. */
  lemma {:induction false} FillsTheWindow(s: Settings, w: Window, run: seq<Event>)
    requires w.sinceSync + |run| < w.size
    requires forall i :: 0 <= i < |run| ==> run[i].Launch?
    ensures After(s, w, run) == w.(sinceSync := w.sinceSync + |run|) && Syncs(s, w, run) == 0
    ensures Full(After(s, w, run)) <==> w.sinceSync + |run| + 1 == w.size
    decreases |run|
  {
    if run != [] {
      FillsTheWindow(s, w, run[..|run| - 1]);
    }
  }

  /** After a synchronization that the lock protocol asks for, the very next launch synchronizes
      again, and a timely synchronization there opens the window to 2. */
  lemma ContextSyncRestarts(s: Settings, w: Window, y: Sync)
    requires Timely(s, y)
    ensures var r := Step(s, w, ContextSync); Full(r) && Step(s, r, Launch(y)).size == 2 && Step(s, r, Launch(y)).sinceSync == 0
  {}

  /** Four critical synchronizations in a row, with no quicker one between them, force the
      client to synchronize after every kernel, and it stays so for as long as they last. */
  lemma {:induction false} AbuseForcesSync(s: Settings, w: Window, run: seq<Event>)
    requires forall i :: 0 <= i < |run| ==> run[i].Launch? && Critical(s, run[i].sync)
    ensures var k := Syncs(s, w, run);
            && After(s, w, run).timeouts == w.timeouts + k
            && (k > 0 && w.timeouts + k > 3 ==> After(s, w, run).size == 1)
    decreases |run|
  {
    if run != [] {
      var n := |run| - 1;
      AbuseForcesSync(s, w, run[..n]);
      assert Critical(s, run[n].sync);
    }
  }

  lemma HalfDiv(x: nat, d: nat)
    requires d > 0
    ensures x / d / 2 == x / (2 * d)
  {
    var q := x / d;
    var h := q / 2;
    DivBounds(x, d);
    MulLe(2 * h, q, d);
    MulLe(q + 1, 2 * h + 2, d);
    assert d * (2 * h) == (2 * d) * h;
    assert d * (2 * h + 2) == (2 * d) * (h + 1);
    DivIs(x, 2 * d, h);
  }

  /** Up to three critical synchronizations in a row halve the window, each of them, down to
      the floor. */
  lemma {:induction false} CriticalSyncsHalve(s: Settings, w: Window, run: seq<Event>)
    requires s.floor >= 0 && w.size >= 0
    requires forall i :: 0 <= i < |run| ==> run[i].Launch? && Critical(s, run[i].sync)
    requires w.timeouts + Syncs(s, w, run) <= 3
    ensures var k := Syncs(s, w, run);
            After(s, w, run).size == if k == 0 then w.size else Max(s.floor, w.size / Pow2(k))
    decreases |run|
  {
    if run != [] {
      var n := |run| - 1;
      var before := run[..n];
      CriticalSyncsHalve(s, w, before);
      AbuseForcesSync(s, w, before);
      assert Critical(s, run[n].sync);
      HalfDiv(w.size, Pow2(Syncs(s, w, before)));
      assert After(s, w, run) == Step(s, After(s, w, before), run[n]);
    }
  }

  /** A mild delay cuts the window by a fifth, down to the floor.  It ends a series of critical
      synchronizations, as every quicker one does; in the warm-up a critical one does not count. */
  lemma MildSyncShrinks(s: Settings, w: Window, y: Sync)
    requires Full(w)
    ensures var r := Step(s, w, Launch(y));
            && r.sinceSync == 0
            && (Mild(s, y) ==> r.size >= s.floor && 5 * r.size >= 4 * w.size - 4 && (5 * r.size <= 4 * w.size || r.size == s.floor))
            && (y.seconds < s.criticalSec ==> r.timeouts == 0)
            && (y.seconds >= s.criticalSec ==> r.timeouts == w.timeouts + if y.warmup then 0 else 1)
  {}

  /** Mild delays in a row bring the window down to the floor, by one kernel each at least. */
  lemma {:induction false} MildSyncsReachFloor(s: Settings, w: Window, run: seq<Event>)
    requires 1 <= s.floor <= w.size
    requires forall i :: 0 <= i < |run| ==> run[i].Launch? && Mild(s, run[i].sync)
    ensures s.floor <= After(s, w, run).size <= Max(s.floor, w.size - Syncs(s, w, run))
    decreases |run|
  {
    if run != [] {
      var n := |run| - 1;
      MildSyncsReachFloor(s, w, run[..n]);
      assert Mild(s, run[n].sync);
      if Full(After(s, w, run[..n])) { MildSyncShrinks(s, After(s, w, run[..n]), run[n].sync); }
    }
  }
}
