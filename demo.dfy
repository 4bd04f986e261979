/**
 * The demonstration itself: `testMain` nests three guards, throws from the
 * innermost block and catches one level out; `main` holds a fourth guard
 * around the call. Given twice: as a statement tree run by `ExecBlock`,
 * and as a method that replays it on a `Slot` with `ScopeGuard` objects.
 */
module Demo {
  import opened ScopeGuards
  import opened BlockSemantics

  const GlobalScope: string := "global scope"
  const Level1: string := "level 1 scope"
  const Level2: string := "level 2 scope"
  const Level3: string := "level 3 scope"

  /** The body of `testMain`. */
  const TestMainBody: seq<Stmt> := [
    Print,
    Guard(Level1, [
      Print,
      TryCatchAll(
        [Guard(Level2, [
          Print,
          Guard(Level3, [Print, Throw])])],
        [Print])])]

  /** `main`: a guard for "global scope" around the call of `testMain`. */
  const MainProgram: Stmt := Guard(GlobalScope, TestMainBody)

  /**
   * Whatever the slot holds when `testMain` is called, its prints see that
   * value, then the level 1, 2 and 3 strings, then level 1 again in the
   * handler; `testMain` returns normally with the slot as it found it.
   */
  lemma TestMainRun(slot: CStr)
    ensures ExecBlock(TestMainBody, slot)
            == Run(slot, Normal, [slot, Some(Level1), Some(Level2), Some(Level3), Some(Level1)])
  {
    // the level 3 block throws after its print; its guard restores level 2
    assert [Print, Throw] == [Print] + [Throw] + [];
    ThrowUnwindsGuard(Level3, [Print], [], Some(Level2));
    var g3 := Guard(Level3, [Print, Throw]);
    assert ExecStmt(g3, Some(Level2)) == Run(Some(Level2), Thrown, [Some(Level3)]);
    assert ExecBlock([g3], Some(Level2)) == Run(Some(Level2), Thrown, [Some(Level3)]);
    // the try block: level 2's print, then the exception leaves it too
    var inner2 := [Print, g3];
    assert inner2[1..] == [g3];
    assert ExecBlock(inner2, Some(Level2)) == Run(Some(Level2), Thrown, [Some(Level2), Some(Level3)]);
    var try_ := [Guard(Level2, inner2)];
    assert ExecBlock(try_, Some(Level1)) == Run(Some(Level1), Thrown, [Some(Level2), Some(Level3)]);
    // the handler sees the slot as the try block found it
    CatchSeesTryEntry(try_, [Print], Some(Level1));
    var catch_ := TryCatchAll(try_, [Print]);
    var inner1 := [Print, catch_];
    assert inner1[1..] == [catch_];
    assert ExecBlock([catch_], Some(Level1))
           == Run(Some(Level1), Normal, [Some(Level2), Some(Level3), Some(Level1)]);
    var g1 := Guard(Level1, inner1);
    assert TestMainBody == [Print, g1] && TestMainBody[1..] == [g1];
    assert ExecStmt(g1, slot)
           == Run(slot, Normal, [Some(Level1), Some(Level2), Some(Level3), Some(Level1)]);
    assert ExecBlock([g1], slot)
           == Run(slot, Normal, [Some(Level1), Some(Level2), Some(Level3), Some(Level1)]);
  }

  /**
   * The whole program: starting from `nullptr`, the prints see "global
   * scope", levels 1, 2, 3, and level 1 again; after `main`'s guard is
   * destroyed the slot is `nullptr` again.
   */
  lemma MainRun()
    ensures ExecStmt(MainProgram, None)
            == Run(None, Normal, [Some(GlobalScope), Some(Level1), Some(Level2), Some(Level3), Some(Level1)])
  {
    TestMainRun(Some(GlobalScope));
  }

  /**
   * `testMain` replayed on the slot with guard objects. The `throw` is an
   * early exit from the try block that first runs the destructors of the
   * level 3 and level 2 guards, innermost first; then the handler runs.
   * The slot is written by the three constructors, then by the level 3
   * and level 2 destructors before the handler, then by the level 1 one.
   */
  method TestMain(slot: Slot) returns (seen: seq<CStr>)
    modifies slot
    ensures slot.cur == old(slot.cur)
    ensures slot.writes == old(slot.writes)
              + [Some(Level1), Some(Level2), Some(Level3), Some(Level2), Some(Level1), old(slot.cur)]
    ensures seen == ExecBlock(TestMainBody, old(slot.cur)).seen
    ensures seen == [old(slot.cur), Some(Level1), Some(Level2), Some(Level3), Some(Level1)]
  {
    var scope := PrintScope(slot);
    seen := [scope];
    {
      var g1 := new ScopeGuard(slot, Some(Level1));
      scope := PrintScope(slot);
      seen := seen + [scope];
      var thrown := false;
      label tryBlock: {
        var g2 := new ScopeGuard(slot, Some(Level2));
        scope := PrintScope(slot);
        seen := seen + [scope];
        {
          var g3 := new ScopeGuard(slot, Some(Level3));
          scope := PrintScope(slot);
          seen := seen + [scope];
          // throw "Exception": unwinding destroys g3, then g2
          thrown := true;
          g3.Destroy();
          g2.Destroy();
          break tryBlock;
        }
      }
      if thrown {
        // catch (...)
        assert slot.writes == old(slot.writes)
                 + [Some(Level1), Some(Level2), Some(Level3), Some(Level2), Some(Level1)];
        scope := PrintScope(slot);
        seen := seen + [scope];
      }
      g1.Destroy();
    }
    TestMainRun(old(slot.cur));
  }

  /**
   * `main` replayed: a fresh slot holding `nullptr`, the "global scope"
   * guard, the call of `testMain`, then the guard's destruction on return.
   * Reports the prints, the slot after `testMain` returns, the slot after
   * the guard is gone, and the exit status.
   */
  method RunMain() returns (seen: seq<CStr>, afterTestMain: CStr, atExit: CStr, status: int)
    ensures seen == [Some(GlobalScope), Some(Level1), Some(Level2), Some(Level3), Some(Level1)]
    ensures afterTestMain == Some(GlobalScope)
    ensures atExit == None
    ensures status == 0
    ensures ExecStmt(MainProgram, None) == Run(atExit, Normal, seen)
  {
    var slot := new Slot();
    var guard := new ScopeGuard(slot, Some(GlobalScope));
    seen := TestMain(slot);
    afterTestMain := slot.cur;
    status := 0;
    guard.Destroy();
    atExit := slot.cur;
    MainRun();
  }
}
