/** The client process, its flags updated in place by three threads: the application's, the
    one that reads the scheduler's messages, and the one that gives the lock up early.  Each
    method is one stretch of code that holds the process's mutex. */
module ClientProcess {
  import opened GpuModel
  import opened LockProtocol

  /** What NVML answers when it is asked for the utilization of the GPU. */
  datatype Utilization = Unavailable | Percent(value: nat)

  const IDLE_SYNC_MS := 100

  /** The GPU is idle, as far as the client can tell: by NVML, or by how long a
      synchronization takes. */
  predicate Idle(nvmlOk: bool, nvml: Utilization, syncMs: nat) {
    if nvmlOk then nvml == Percent(0) else syncMs < IDLE_SYNC_MS
  }

  class Process {
    var ownLock: bool
    var needLock: bool
    var didWork: bool
    var nvmlOk: bool
    var outbox: seq<Notice>
    ghost var ownGrant: nat
    ghost var okCount: nat
    ghost var releaseCount: nat

    ghost function View(): App
      reads this
    {
      App(ownLock, needLock, outbox, ownGrant, okCount, releaseCount)
    }

    constructor (nvmlOk: bool)
      ensures View() == NEW_APP && !didWork && this.nvmlOk == nvmlOk
    {
      ownLock, needLock, didWork, outbox := false, false, false, [];
      this.nvmlOk := nvmlOk;
      ownGrant, okCount, releaseCount := 0, 0, 0;
    }

    /** One round of the wait loop before work is submitted; `go` ends it. */
    method ContinueWithLock() returns (go: bool)
      modifies this
      ensures View() == LockProtocol.Ask(old(View()))
      ensures go == old(ownLock) && didWork == (old(didWork) || go) && nvmlOk == old(nvmlOk)
    {
      go := ownLock;
      if !ownLock {
        if !needLock {
          needLock := true;
          outbox := outbox + [ReqLock];
        }
      } else {
        didWork := true;
      }
    }

    /** Sends LOCK_RELEASED and drops the lock. */
    method Release()
      requires ownLock
      modifies this
      ensures View() == Surrender(old(View())) && didWork == old(didWork) && nvmlOk == old(nvmlOk)
    {
      ownLock := false;
      outbox := outbox + [LockReleased];
      releaseCount := releaseCount + 1;
    }

    /** The message thread. */
    method HandleMessage(m: Message)
      modifies this
      ensures View() == Receive(old(View()), m)
      ensures didWork == (old(didWork) || m.kind == LockOk) && nvmlOk == old(nvmlOk)
    {
      match m.kind
      case LockOk =>
        needLock := false;
        ownLock := true;
        didWork := true;
        ownGrant, okCount := m.grant, okCount + 1;
      case DropLock =>
        if ownLock { Release(); }
      case WaitForMem =>
      case MemAvailable =>
    }

    /** One wake-up of the early-release thread.  The lock is given up only when the interval
        passed without work and the GPU is idle. */
    method EarlyReleaseWake(timedOut: bool, nvml: Utilization, syncMs: nat)
      modifies this
      ensures View() == if timedOut && !old(didWork) && Idle(old(nvmlOk), nvml, syncMs)
                        then Surrender(old(View())) else old(View())
      ensures old(ownLock) && !ownLock ==>
                timedOut && !old(didWork) && if old(nvmlOk) then nvml == Percent(0) else syncMs < 100
      ensures old(ownLock) && ownLock ==>
                !timedOut || old(didWork) || if old(nvmlOk) then nvml != Percent(0) else syncMs >= 100
      ensures !didWork
      ensures nvmlOk == (old(nvmlOk) && !(timedOut && old(ownLock) && !old(didWork) && nvml == Unavailable))
    {
      if timedOut && ownLock && !didWork {
        if nvmlOk {
          match nvml
          case Unavailable => nvmlOk := false;
          case Percent(p) => if p == 0 { Release(); }
        } else if syncMs < IDLE_SYNC_MS {
          Release();
        }
      }
      didWork := false;
    }
  }
}
