/**
 * The thread-local string slot and the RAII guard that saves and restores it.
 *
 * The C++ program keeps one `thread_local const char *` global. Here that
 * global is an object of class `Slot` whose field `cur` is the pointer's
 * value: `None` stands for `nullptr`, `Some(s)` for a pointer to the string
 * `s`. The program is single-threaded, so one object is the whole slot.
 */
module ScopeGuards {

  datatype Option<+T> = None | Some(value: T)

  /** The value of a `const char *`: `None` is `nullptr`. */
  type CStr = Option<string>

  /**
   * The global `gThreadLocalStr`. The ghost field `writes` records every
   * value stored into it, in order, so the order of the guards'
   * constructors and destructors can be stated.
   */
  class Slot {
    var cur: CStr
    ghost var writes: seq<CStr>

    /** Before any guard is constructed the slot holds `nullptr`. */
    constructor ()
      ensures cur == None
      ensures writes == []
    {
      cur := None;
      writes := [];
    }
  }

  /**
   * A `ScopeGuard`: constructing it remembers the slot's value in `saved`
   * (the C++ field `old_`) and installs a new string; destroying it puts
   * the remembered value back. It touches nothing but the slot and itself.
   * The saved value is set once, by the constructor.
   */
  class ScopeGuard {
    const slot: Slot
    const saved: CStr

    constructor (slot: Slot, newStr: CStr)
      modifies slot
      ensures this.slot == slot
      ensures saved == old(slot.cur)
      ensures slot.cur == newStr
      ensures slot.writes == old(slot.writes) + [newStr]
    {
      this.slot := slot;
      saved := slot.cur;
      new;
      slot.cur := newStr;
      slot.writes := slot.writes + [newStr];
    }

    /** The destructor `~ScopeGuard`. */
    method Destroy()
      modifies slot
      ensures slot.cur == saved
      ensures slot.writes == old(slot.writes) + [saved]
    {
      slot.cur := saved;
      slot.writes := slot.writes + [saved];
    }
  }

  /**
   * `PRINT_SCOPE()`: the default argument of `printScope` is evaluated at
   * the call, so the value printed is the slot's value at that moment.
   * The printing itself is left out; the observed value is returned.
   */
  method PrintScope(slot: Slot) returns (scope: CStr)
    ensures scope == slot.cur
  {
    scope := slot.cur;
  }
}
