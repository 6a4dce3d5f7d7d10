/** Interruption requests shared by everything that runs on one worker: one
    persistent request, a count of scoped requests and the flag the engine polls. */
module Interrupts {

  const MAX_USIZE: nat := 0xFFFF_FFFF_FFFF_FFFF

  datatype Requests = Requests(persistent: bool, scoped: nat, flag: bool)

  const NO_REQUESTS := Requests(false, 0, false)

  /** The flag says exactly whether some request is live. */
  predicate FlagAgrees(r: Requests) {
    r.flag == (r.persistent || r.scoped > 0)
  }

  function Persist(r: Requests): Requests {
    r.(persistent := true, flag := true)
  }

  function Unpersist(r: Requests): Requests {
    r.(persistent := false, flag := r.scoped != 0)
  }

  function AddScoped(r: Requests): Requests {
    r.(scoped := r.scoped + 1, flag := true)
  }

  function DropScoped(r: Requests): Requests {
    var left: nat := if r.scoped == 0 then 0 else r.scoped - 1;
    r.(scoped := left, flag := r.persistent || left != 0)
  }

  class InterruptHandle {
    var persistent: bool
    var scoped: nat
    var flag: bool

    function View(): Requests
      reads this
    {
      Requests(persistent, scoped, flag)
    }

    constructor ()
      ensures View() == NO_REQUESTS
    {
      persistent, scoped, flag := false, 0, false;
    }

    method Interrupt()
      modifies this
      ensures View() == Persist(old(View()))
      ensures persistent && flag && scoped == old(scoped)
    {
      persistent := true;
      flag := true;
    }

    method Clear()
      modifies this
      ensures View() == Unpersist(old(View()))
      ensures !persistent && flag == (scoped > 0) && scoped == old(scoped)
    {
      persistent := false;
      flag := scoped != 0;
    }

    /** Null when the count would overflow; the source panics there. */
    method InterruptScoped() returns (guard: InterruptGuard?)
      modifies this
      ensures guard == null <==> old(scoped) >= MAX_USIZE
      ensures guard == null ==> View() == old(View())
      ensures guard != null ==> fresh(guard) && guard.active && guard.handle == this
      ensures guard != null ==> View() == AddScoped(old(View()))
      ensures guard != null ==> scoped == old(scoped) + 1 && flag && persistent == old(persistent)
    {
      if scoped >= MAX_USIZE {
        return null;
      }
      scoped := scoped + 1;
      flag := true;
      guard := new InterruptGuard(this);
    }
  }

  class InterruptGuard {
    const handle: InterruptHandle
    var active: bool

    constructor (handle: InterruptHandle)
      ensures this.handle == handle && active
    {
      this.handle := handle;
      active := true;
    }

    /** Releases the request once; a second release changes nothing. */
    method Release()
      modifies this, handle
      ensures !active
      ensures handle.View() == if old(active) then DropScoped(old(handle.View())) else old(handle.View())
      ensures handle.persistent == old(handle.persistent)
      ensures old(active) && old(handle.scoped) > 0 ==>
                handle.scoped == old(handle.scoped) - 1 && handle.flag == (handle.persistent || handle.scoped > 0)
    {
      if !active {
        return;
      }
      handle.scoped := if handle.scoped == 0 then 0 else handle.scoped - 1;
      handle.flag := handle.persistent || handle.scoped != 0;
      active := false;
    }
  }
}
