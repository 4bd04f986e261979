/**
 * The meaning of the statements that `testMain` and `main` are built from:
 * `PRINT_SCOPE()`, a block that opens with a `ScopeGuard`, `throw`, and
 * `try { ... } catch (...) { ... }`.
 *
 * `ExecBlock` runs a block against the slot exactly as the guard's code
 * does: each guard saves the slot's value and installs its string on entry,
 * and its destructor writes the saved value back when the block is left,
 * whether the block ends normally or an exception unwinds through it.
 */
module BlockSemantics {
  import opened ScopeGuards

  datatype Stmt =
    | Print                                       // PRINT_SCOPE()
    | Guard(name: string, body: seq<Stmt>)        // { ScopeGuard g(name); body }
    | Throw                                       // throw "Exception"
    | TryCatchAll(body: seq<Stmt>, handler: seq<Stmt>)  // try { body } catch (...) { handler }

  /** How a block was left. */
  datatype Outcome = Normal | Thrown

  /** The slot's value after a run, how the run ended, and what each print saw. */
  datatype Run = Run(slot: CStr, outcome: Outcome, seen: seq<CStr>)

  /**
   * Runs the statements of a block in order, from slot value `slot`.
   * An exception skips the rest of the block. Whatever happens inside,
   * the slot ends as it began: every guard puts back what it saved.
   */
  function ExecBlock(ss: seq<Stmt>, slot: CStr): (r: Run)
    decreases ss
    ensures r.slot == slot
  {
    if ss == [] then Run(slot, Normal, [])
    else
      var first := ExecStmt(ss[0], slot);
      if first.outcome == Thrown then first
      else
        var rest := ExecBlock(ss[1..], first.slot);
        Run(rest.slot, rest.outcome, first.seen + rest.seen)
  }

  /** Runs one statement from slot value `slot`; the slot ends as it began. */
  function ExecStmt(s: Stmt, slot: CStr): (r: Run)
    decreases s
    ensures r.slot == slot
  {
    match s
    case Print => Run(slot, Normal, [slot])
    case Throw => Run(slot, Thrown, [])
    case Guard(name, body) =>
      // the constructor saves the slot and installs `name`
      var saved := slot;
      var inner := ExecBlock(body, Some(name));
      // the destructor runs on normal exit and on unwinding alike
      Run(saved, inner.outcome, inner.seen)
    case TryCatchAll(body, handler) =>
      var t := ExecBlock(body, slot);
      if t.outcome == Thrown then
        // the handler runs after the try block's guards are destroyed
        var h := ExecBlock(handler, t.slot);
        Run(h.slot, h.outcome, t.seen + h.seen)
      else t
  }

  /*
   * An independent description of the same behaviour: the guards that are
   * alive form a stack, innermost last, and a print sees the innermost
   * live guard's string, or `base` when no guard is alive. A guard pushes
   * its string for the length of its block; a catch-all handler runs with
   * the stack the try block was entered with, since unwinding has already
   * destroyed the guards inside it.
   */

  /** The string of the innermost live guard, or `base` if there is none. */
  function Top(active: seq<string>, base: CStr): CStr
  {
    if active == [] then base else Some(active[|active| - 1])
  }

  /** How a block ended and what its prints saw, with no slot at all. */
  datatype StackRun = StackRun(outcome: Outcome, seen: seq<CStr>)

  function StackBlock(ss: seq<Stmt>, active: seq<string>, base: CStr): StackRun
    decreases ss
  {
    if ss == [] then StackRun(Normal, [])
    else
      var first := StackStmt(ss[0], active, base);
      if first.outcome == Thrown then first
      else
        var rest := StackBlock(ss[1..], active, base);
        StackRun(rest.outcome, first.seen + rest.seen)
  }

  function StackStmt(s: Stmt, active: seq<string>, base: CStr): StackRun
    decreases s
  {
    match s
    case Print => StackRun(Normal, [Top(active, base)])
    case Throw => StackRun(Thrown, [])
    case Guard(name, body) => StackBlock(body, active + [name], base)
    case TryCatchAll(body, handler) =>
      var t := StackBlock(body, active, base);
      if t.outcome == Thrown then
        var h := StackBlock(handler, active, base);
        StackRun(h.outcome, t.seen + h.seen)
      else t
  }

  /**
   * LIFO restoration: one slot whose guards save and restore it behaves
   * exactly like a stack of live guards. Started with the slot holding the
   * innermost live guard's string, a block ends the same way and every
   * print sees the same value in both descriptions.
   */
  lemma {:induction false} BlockIsStackDiscipline(ss: seq<Stmt>, active: seq<string>, base: CStr)
    decreases ss
    ensures var r := ExecBlock(ss, Top(active, base));
            StackBlock(ss, active, base) == StackRun(r.outcome, r.seen)
  {
    if ss != [] {
      StmtIsStackDiscipline(ss[0], active, base);
      BlockIsStackDiscipline(ss[1..], active, base);
    }
  }

  lemma {:induction false} StmtIsStackDiscipline(s: Stmt, active: seq<string>, base: CStr)
    decreases s
    ensures var r := ExecStmt(s, Top(active, base));
            StackStmt(s, active, base) == StackRun(r.outcome, r.seen)
  {
    match s
    case Print =>
    case Throw =>
    case Guard(name, body) =>
      assert Top(active + [name], base) == Some(name);
      BlockIsStackDiscipline(body, active + [name], base);
    case TryCatchAll(body, handler) =>
      BlockIsStackDiscipline(body, active, base);
      BlockIsStackDiscipline(handler, active, base);
  }

  /**
   * When the try block throws, the handler runs with the slot holding what
   * it held when the try block was entered: all guards inside the try
   * block, however deeply nested, have been undone first.
   */
  lemma CatchSeesTryEntry(body: seq<Stmt>, handler: seq<Stmt>, slot: CStr)
    requires ExecBlock(body, slot).outcome == Thrown
    ensures ExecStmt(TryCatchAll(body, handler), slot)
            == Run(slot, ExecBlock(handler, slot).outcome,
                   ExecBlock(body, slot).seen + ExecBlock(handler, slot).seen)
  {
  }

  /**
   * An exception leaves a guarded block early and still restores the slot:
   * the guard's block is left by the exception with the slot as it was
   * before the guard, and nothing after the throw is observed.
   */
  lemma {:induction false} ThrowUnwindsGuard(name: string, before: seq<Stmt>, after: seq<Stmt>, slot: CStr)
    requires ExecBlock(before, Some(name)).outcome == Normal
    ensures ExecStmt(Guard(name, before + [Throw] + after), slot)
            == Run(slot, Thrown, ExecBlock(before, Some(name)).seen)
  {
    ThrowSkipsRest(before, after, Some(name));
  }

  /** A throw ends a block: what follows it is never run. */
  lemma {:induction false} ThrowSkipsRest(before: seq<Stmt>, after: seq<Stmt>, slot: CStr)
    requires ExecBlock(before, slot).outcome == Normal
    ensures ExecBlock(before + [Throw] + after, slot)
            == Run(slot, Thrown, ExecBlock(before, slot).seen)
    decreases before
  {
    if before == [] {
      assert before + [Throw] + after == [Throw] + after;
    } else {
      assert (before + [Throw] + after)[0] == before[0];
      assert (before + [Throw] + after)[1..] == before[1..] + [Throw] + after;
      ThrowSkipsRest(before[1..], after, slot);
    }
  }
}
