/** The mutex-held state of one task, on which the caller's deadline and the
    worker loop race. */
module Execution {
  import opened Basics
  import opened Interrupts

  datatype Phase = Queued | Starting | Running | TimedOut | Finished

  /** `guarded` says that the timeout's scoped interruption request is stored
      in the task; `abortable` that an abort handle has been published. */
  datatype Exec = Exec(phase: Phase, abortable: bool, timeout: Option<nat>, guarded: bool)

  const NEW_EXEC := Exec(Queued, false, None, false)

  function BeginStart(e: Exec): (Exec, bool) {
    if e.phase != Queued then (e, false) else (e.(phase := Starting), true)
  }

  function InstallAbort(e: Exec): (Exec, bool) {
    if e.phase == Starting then (e.(phase := Running, abortable := true), true) else (e, false)
  }

  /** What a deadline does to the task and whether it wins. */
  datatype Deadline = Deadline(exec: Exec, won: bool, takesGuard: bool, aborts: bool)

  function RequestTimeout(e: Exec, d: nat): Deadline {
    match e.phase
    case Queued => Deadline(e.(phase := TimedOut, timeout := Some(d)), true, false, false)
    case Starting | Running =>
      Deadline(e.(phase := TimedOut, timeout := Some(d), guarded := true), true, true, e.abortable)
    case TimedOut => Deadline(e, true, false, false)
    case Finished => Deadline(e, false, false, false)
  }

  function Finish(e: Exec): (Exec, Option<nat>, bool) {
    (Exec(Finished, false, None, false), e.timeout, e.guarded)
  }

  class AbortHandle {
    var aborted: bool

    constructor ()
      ensures !aborted
    {
      aborted := false;
    }

    method Abort()
      modifies this
      ensures aborted
    {
      aborted := true;
    }
  }

  class TaskExecutionControl {
    const interrupt: InterruptHandle
    var phase: Phase
    var abortHandle: AbortHandle?
    var timeout: Option<nat>
    var timeoutInterrupt: InterruptGuard?

    function View(): Exec
      reads this
    {
      Exec(phase, abortHandle != null, timeout, timeoutInterrupt != null)
    }

    /** A guard is stored only by a timeout; it is live and belongs to this worker's handle. */
    ghost predicate Valid()
      reads this, timeoutInterrupt
    {
      timeoutInterrupt != null ==>
        phase.TimedOut? && timeoutInterrupt.active && timeoutInterrupt.handle == interrupt
    }

    constructor (interrupt: InterruptHandle)
      ensures Valid() && View() == NEW_EXEC && this.interrupt == interrupt
    {
      this.interrupt := interrupt;
      phase, abortHandle, timeout, timeoutInterrupt := Queued, null, None, null;
    }

    method Start() returns (claimed: bool)
      requires Valid()
      modifies this
      ensures Valid() && (View(), claimed) == BeginStart(old(View()))
      ensures (claimed <==> old(phase).Queued?) && (claimed ==> phase.Starting?)
    {
      if phase != Queued {
        return false;
      }
      phase := Starting;
      claimed := true;
    }

    method Install(handle: AbortHandle) returns (installed: bool)
      requires Valid()
      modifies this, handle
      ensures Valid() && (View(), installed) == InstallAbort(old(View()))
      ensures handle.aborted == (old(handle.aborted) || !installed)
      ensures (installed <==> old(phase).Starting?) && (installed ==> phase.Running? && abortHandle == handle)
    {
      if phase == Starting {
        phase := Running;
        abortHandle := handle;
        installed := true;
      } else {
        handle.Abort();
        installed := false;
      }
    }

    /** The scoped count cannot overflow in practice; the source panics if it
        does, after the phase and the timeout have been set. */
    method Expire(d: nat) returns (won: bool, panicked: bool)
      requires Valid()
      modifies this, interrupt, abortHandle
      ensures Valid()
      ensures panicked <==> old(phase) in {Starting, Running} && old(interrupt.scoped) >= MAX_USIZE
      ensures panicked ==> View() == RequestTimeout(old(View()), d).exec.(guarded := false)
      ensures !panicked ==>
                var r := RequestTimeout(old(View()), d);
                View() == r.exec && won == r.won
                && interrupt.View() == (var before := old(interrupt.View());
                                        if r.takesGuard then AddScoped(before) else before)
      ensures !panicked ==> (won <==> !old(phase).Finished?)
      ensures abortHandle == old(abortHandle)
      ensures abortHandle != null ==>
                abortHandle.aborted == (old(abortHandle.aborted) || (!panicked && old(phase) in {Starting, Running}))
    {
      panicked := false;
      match phase {
        case Queued =>
          phase := TimedOut;
          timeout := Some(d);
          won := true;
        case Starting | Running =>
          phase := TimedOut;
          timeout := Some(d);
          timeoutInterrupt := interrupt.InterruptScoped();
          if timeoutInterrupt == null {
            return false, true;
          }
          if abortHandle != null {
            abortHandle.Abort();
          }
          won := true;
        case TimedOut =>
          won := true;
        case Finished =>
          won := false;
      }
    }

    /** Closes the task and releases its interruption request. */
    method Close() returns (reported: Option<nat>)
      requires Valid()
      modifies this, timeoutInterrupt, interrupt
      ensures Valid()
      ensures var (e, d, releases) := Finish(old(View()));
              View() == e && reported == d
              && interrupt.View() == if releases then DropScoped(old(interrupt.View())) else old(interrupt.View())
      ensures phase.Finished? && reported == old(timeout) && timeout.None? && abortHandle == null
      ensures old(timeoutInterrupt) != null ==> !old(timeoutInterrupt).active
    {
      phase := Finished;
      abortHandle := null;
      var guard := timeoutInterrupt;
      reported, timeout, timeoutInterrupt := timeout, None, null;
      if guard != null {
        guard.Release();
      }
    }
  }
}
