# Scope guard over a thread-local string

This project models `main.cpp` of ImplicitScopeTest. The program keeps one
thread-local global, `gThreadLocalStr`, that points to the name of the
current scope. A `ScopeGuard` saves that global's current value when it is
constructed and installs a new string. When it is destroyed it puts the
saved value back. `testMain` nests three guards, throws from the innermost
block and catches the exception one level out. `main` holds a fourth guard
around the call. Each `PRINT_SCOPE()` reports the global's value at that
moment.

The model has three modules:

- `ScopeGuards` (`scope_guard.dfy`): the global is a `Slot` object. Its field
  `cur: Option<string>` is the pointer, where `None` stands for `nullptr`.
  Its ghost field `writes` logs every value stored into it, in order.
  `ScopeGuard` is a class with a constant `saved` field, which is `old_` in
  the source. Its constructor and its `Destroy` method (the destructor)
  update the slot in place. `PrintScope` returns the value the print would
  show.
- `BlockSemantics` (`block_semantics.dfy`): the statements `testMain` is built
  from, as a datatype: a print, a block that opens with a guard, `throw`,
  and `try`/`catch (...)`. `ExecBlock` runs them the way the C++ code does.
  The guard's destructor runs both on normal exit and when an exception
  unwinds through its block. A second, independent semantics (`StackBlock`)
  describes the same programs as a stack of live guards. A lemma proves the
  two agree: this is the LIFO restoration that the save/restore code
  implements.
- `Demo` (`demo.dfy`): `testMain` and `main` as statement trees, with lemmas
  giving their exact traces. They are also given as methods that replay the
  source on a `Slot` with `ScopeGuard` objects and are proved against those
  trees.

The properties are checked by the Dafny verifier; the model has no executable entry point.

## Model

| member | source | states |
|---|---|---|
| `ScopeGuards.Slot.constructor` | main.cpp:4 | before any guard exists the slot holds `nullptr` and nothing has been written to it |
| `ScopeGuards.ScopeGuard.constructor` | main.cpp:8-10 | the guard saves the slot's previous value (fixed for the guard's lifetime) and the slot now holds the new pointer value, which is appended to the write log; only the slot and the new guard are written |
| `ScopeGuards.ScopeGuard.Destroy` | main.cpp:12-14 | the slot again holds exactly the value saved at construction, and that value is appended to the write log; nothing but the slot is written |
| `ScopeGuards.PrintScope` | main.cpp:20-24 | the value reported is the slot's value at the moment of the call (the default argument is read at the call) |
| `BlockSemantics.ExecBlock` | main.cpp:28-42 | whatever a block does, and whether it ends normally or by an exception, the slot ends holding what it held when the block began |
| `BlockSemantics.ExecStmt` | main.cpp:29-41 | a print, a throw, a guarded block or a try/catch leaves the slot as it found it, on normal exit and on unwinding |
| `BlockSemantics.BlockIsStackDiscipline` | main.cpp:28-42 | a block run on the single save/restore slot has the same outcome and the same print trace as under a stack of live guards where each print sees the innermost live guard's string |
| `BlockSemantics.StmtIsStackDiscipline` | main.cpp:29-41 | the same agreement for one statement; a guard's block is run with its string pushed on the stack |
| `BlockSemantics.CatchSeesTryEntry` | main.cpp:31-40 | when the try block throws, the handler runs with the slot holding its value at try entry, so every guard inside the try block has been undone first |
| `BlockSemantics.ThrowUnwindsGuard` | main.cpp:34-38 | an exception leaves a guarded block early, reports the throw, restores the slot to its value before the guard, and nothing after the throw is observed |
| `BlockSemantics.ThrowSkipsRest` | main.cpp:37 | a throw ends its block: the statements after it are never run and the run is reported as thrown |
| `Demo.TestMainRun` | main.cpp:26-43 | for any initial slot value `v`, the prints of `testMain` see `v`, "level 1 scope", "level 2 scope", "level 3 scope", "level 1 scope"; it returns normally with the slot back at `v`; proved from the throw and catch rules above |
| `Demo.MainRun` | main.cpp:45-49 | starting from `nullptr`, the prints see "global scope", levels 1, 2, 3 and level 1 again; after `main`'s guard is destroyed the slot is `nullptr` |
| `Demo.TestMain` | main.cpp:26-43 | the replay on guard objects restores the slot and its trace equals both the semantics' trace and the literal five values above; the slot is written with levels 1, 2, 3 by the constructors, then level 2 and level 1 by the level 3 and level 2 destructors before the handler runs, then the entry value by the level 1 destructor |
| `Demo.RunMain` | main.cpp:45-49 | the replay of `main` on a fresh slot sees the five values above, finds "global scope" in the slot after `testMain` returns, `nullptr` after the guard is gone, returns status 0, and matches the semantics of `main` |

## Left out

- Output: `std::cout`, its formatting and the `__FILE__`/`__LINE__` arguments of `printScope` are left out. Each print is modelled as the observed slot value.
- `thread_local`: the program has one thread, so the slot is one object. Per-thread copies are not modelled.
- The exception object and C++ exception machinery: `throw "Exception"` is an abrupt exit. `catch (...)` catches everything, so the thrown value is not modelled.
- Pointer identity and string lifetime: the C strings are Dafny `string` values and `nullptr` is `None`. The `ScopeGuard` class accepts `nullptr`, but in the statement datatype a guard is built only from a non-null string, as at every guard in `main.cpp` (lines 29, 32, 35, 46).
- Guard placement: in the statement datatype a guard always opens its block and lives until the block ends. Every guard in `main.cpp` is declared first in its block.
- The hierarchical `Scope`/`Variable` program (parent lookup, create-or-get, weak handles) is not part of this model. Its source is not among the files modelled, and `main.cpp` contains only the guard demo.
