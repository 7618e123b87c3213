# Drone voice control and swarm library: a Dafny model

This project models the core of *dronedudes*. That is a set of Python programs that fly
a CoDrone EDU drone by voice, plus the parts of the vendored `codrone_edu` library they
rely on. Six parts are modelled:

- **The sync-to-async rewriter** (`tools/transformer.py`). A student's blocking script
  becomes a coroutine for the asynchronous drone API. Two read-only walks come first:
  one collects the names of the `def`s, the other checks that the drone instance is
  called `drone`. Three rewrites follow, in this order:
  - wrap the script in `async def _wrapper()`, turn every `def` into `async def` and
    insert the `await`s;
  - turn `time` into `asyncio` and `time.sleep` into `await asyncio.sleep`;
  - follow every simple statement with `checkInterrupt()`.

  The syntax tree is a Dafny datatype. The two walks are visitor classes whose field
  grows as they walk. The rewrites are functions on the tree.
- **The interrupt flag** (`tools/interrupter.py`). This is the flag that rewritten
  scripts poll. It is an object with one boolean field.
- **Swarm choreography** (`swarm.py`):
  - a `Sequence` records one drone's commands;
  - a `Sync` merges sequences into an insertion-ordered table;
  - `_run` plays the table, step by step in a given order ("sequential") or drone by
    drone ("parallel").

  The drones are opaque. A `Fleet` says which methods each drone has, whether each is a
  coroutine, and what each returns. The run operations record the calls a drone receives
  in a trace. That trace follows the corrected dispatch (see Findings), which calls each method
  once. A separate as-written trace counts a plain method's second call.
- **The firmware updater** (`tools/update.py`):
  - the 16-byte little-endian firmware header and its hex rendering;
  - the two event handlers through which the device reports its state;
  - the block-transfer loop, which sends the image 16 bytes at a time.

  The device's replies become values delivered to each pass of the loop.
- **The language-model side of the voice control** (`main.py` and `voice_command.py`).
  The model's reply is cleaned of a markdown code fence, with Python's slicing and
  `str.strip` semantics. It is then decoded and checked against the allow-list. The
  model call and `json.loads` are parameters.
- **Command execution in both programs.** Each command becomes a sequence of drone calls.
  Any call may raise, according to an oracle. This covers the parameter conversions,
  power clamping, timed turns and the exception handlers. It also covers each program's
  "is the drone flying" bookkeeping:
  - the web server's `drone_state` is a class updated after a command completes;
  - the voice loop's `is_flying` is updated before the command runs.

Modules:

| module | file |
|---|---|
| `Common` | `Common.dfy` |
| `PyAst` | `PyAst.dfy` |
| `Collectors` | `Collectors.dfy` |
| `AsyncPass` | `AsyncPass.dfy` |
| `SleepPass` | `SleepPass.dfy` |
| `InterruptPass` | `InterruptPass.dfy` |
| `Transform` | `Transform.dfy` |
| `Interrupter` | `Interrupter.dfy` |
| `Swarm` | `Swarm.dfy` |
| `Update` | `Update.dfy` |
| `Assistant` | `Assistant.dfy` |
| `DroneCommands` | `Commands.dfy` |
| `MainServer` | `MainServer.dfy` |
| `VoiceCommand` | `VoiceCommand.dfy` |

## Model

| member | source | states |
|---|---|---|
| Collectors.DefinedNamesOfDefs | venv/lib/python3.9/site-packages/codrone_edu/tools/transformer.py:19-25 | The collected names are those of every plain `def`, nested ones included. An `async def` adds nothing of its own, but the walk still enters its body. |
| Collectors.FunctionCollector.constructor | venv/lib/python3.9/site-packages/codrone_edu/tools/transformer.py:20-21 | The collector starts with no names. |
| Collectors.FunctionCollector.VisitStmts | venv/lib/python3.9/site-packages/codrone_edu/tools/transformer.py:23-25 | Walking statements adds exactly the names of the plain `def`s found at any depth. |
| Collectors.FunctionCollector.VisitStmt | venv/lib/python3.9/site-packages/codrone_edu/tools/transformer.py:23-25 | One statement adds its own name if it is a `def`, plus the names nested inside it. |
| Collectors.FunctionCollector.VisitHandlers | venv/lib/python3.9/site-packages/codrone_edu/tools/transformer.py:23-25 | Exception handlers' bodies are walked the same way. |
| Collectors.DefinedNames | venv/lib/python3.9/site-packages/codrone_edu/tools/transformer.py:19-25 | No ensures of its own. The set `FunctionCollector` gathers; `DefinedNamesOfDefs` and `FunctionCollector.VisitStmts` state that it holds exactly the names of the plain `def`s at any depth. |
| Collectors.CheckAssign | venv/lib/python3.9/site-packages/codrone_edu/tools/transformer.py:31-35 | An assignment is rejected exactly when it assigns `Drone()` and its first target is not the name `drone`. |
| Collectors.FirstErrorAppend | venv/lib/python3.9/site-packages/codrone_edu/tools/transformer.py:31-35 | In walk order, the first misnamed instance is the one reported. |
| Collectors.FirstErrorNone | venv/lib/python3.9/site-packages/codrone_edu/tools/transformer.py:31-35 | The walk succeeds exactly when every `Drone()` construction assigns to `drone`. |
| Collectors.FirstError | venv/lib/python3.9/site-packages/codrone_edu/tools/transformer.py:31-36 | No ensures of its own. The first misnamed `Drone()` assignment in walk order; `FirstErrorAppend`, `FirstErrorNone` and `DroneInstanceFinder.VisitStmts` state its behaviour. |
| Collectors.DroneInstanceFinder.constructor | venv/lib/python3.9/site-packages/codrone_edu/tools/transformer.py:28-29 | No instance name is known at the start. |
| Collectors.DroneInstanceFinder.VisitStmts | venv/lib/python3.9/site-packages/codrone_edu/tools/transformer.py:31-36 | The walk raises the first misnaming error. Otherwise the name becomes `drone` if some statement constructs a drone, and is unchanged if none does. |
| Collectors.DroneInstanceFinder.VisitStmt | venv/lib/python3.9/site-packages/codrone_edu/tools/transformer.py:31-36 | The same for one statement and the statements nested in it. |
| Collectors.DroneInstanceFinder.VisitHandlers | venv/lib/python3.9/site-packages/codrone_edu/tools/transformer.py:31-36 | The same for the bodies of exception handlers. |
| AsyncPass.Imports | venv/lib/python3.9/site-packages/codrone_edu/tools/transformer.py:62 | Every statement kept is an import taken from the module. |
| AsyncPass.ImportsLength | venv/lib/python3.9/site-packages/codrone_edu/tools/transformer.py:62 | No import is dropped: there is one entry per import of the module. |
| AsyncPass.ImportsPositions | venv/lib/python3.9/site-packages/codrone_edu/tools/transformer.py:62 | The order is kept: the import at position i is entry k, where k counts the imports before it. |
| AsyncPass.WrappedStmts | venv/lib/python3.9/site-packages/codrone_edu/tools/transformer.py:63-66 | Every wrapped statement comes from the module and is neither an import nor an empty-string expression statement. |
| AsyncPass.WrappedLength | venv/lib/python3.9/site-packages/codrone_edu/tools/transformer.py:63-66 | No such statement is dropped: there is one entry per non-import, non-blank statement of the module. |
| AsyncPass.WrappedPositions | venv/lib/python3.9/site-packages/codrone_edu/tools/transformer.py:63-66 | The order is kept: the wrapped statement at position i is entry k, where k counts the wrapped statements before it. |
| AsyncPass.KeptPositions | venv/lib/python3.9/site-packages/codrone_edu/tools/transformer.py:62-66 | A filter keeps each passing statement at the position given by the number of passing statements before it. |
| AsyncPass.KeptLength | venv/lib/python3.9/site-packages/codrone_edu/tools/transformer.py:62-66 | A filter's result has one entry per passing statement. |
| AsyncPass.AsyncExpr | venv/lib/python3.9/site-packages/codrone_edu/tools/transformer.py:106-125 | No ensures of its own. `visit_Call` on one expression; `ConnectionCallNeutralised` and `AwaitInsertion` state which calls are neutralised, awaited or rebuilt. |
| AsyncPass.AsyncStmt | venv/lib/python3.9/site-packages/codrone_edu/tools/transformer.py:51-104 | No ensures of its own. `visit_Assign` and `visit_FunctionDef` on one statement; `DroneCreationCommented`, `DefBecomesAsync`, `NoSyncDefsNested` and `NestedCountPreserved` state its behaviour. |
| AsyncPass.AsyncModule | venv/lib/python3.9/site-packages/codrone_edu/tools/transformer.py:60-92 | No ensures of its own. `visit_Module`; `ModuleShape` states the shape, and the `Imports*` and `Wrapped*` lemmas state which statements go where. |
| AsyncPass.ModuleShape | venv/lib/python3.9/site-packages/codrone_edu/tools/transformer.py:60-92 | The new module is the imports followed by one `async def _wrapper()` with no arguments and no decorators. Its body is `drone.reset_classifier()` followed by each wrapped statement, rewritten. |
| AsyncPass.ConnectionCallNeutralised | venv/lib/python3.9/site-packages/codrone_edu/tools/transformer.py:107-115 | `drone.pair/open/connect/disconnect/close(...)` becomes `drone.dummy_function()`, whatever the arguments. |
| AsyncPass.AwaitInsertion | venv/lib/python3.9/site-packages/codrone_edu/tools/transformer.py:106-125 | These calls are awaited: a drone method that is neither a connection method nor on the non-await list, a script-defined function, and `input`. Calls on the non-await list keep their shape, with only their arguments rewritten. |
| AsyncPass.DroneCreationCommented | venv/lib/python3.9/site-packages/codrone_edu/tools/transformer.py:51-57 | `x = Drone(...)` becomes the string statement `"# x = Drone()"`. |
| AsyncPass.DefBecomesAsync | venv/lib/python3.9/site-packages/codrone_edu/tools/transformer.py:94-104 | A `def` becomes an `async def` with the same name, parameters and arity of defaults and decorators, and its body is rewritten statement by statement. |
| AsyncPass.NoSyncDefs | venv/lib/python3.9/site-packages/codrone_edu/tools/transformer.py:94-104 | After the pass, no plain `def` remains at any depth. |
| AsyncPass.NoSyncDefsNested | venv/lib/python3.9/site-packages/codrone_edu/tools/transformer.py:94-104 | The same for one rewritten statement and everything nested in it. |
| AsyncPass.NoSyncDefsHandlers | venv/lib/python3.9/site-packages/codrone_edu/tools/transformer.py:94-104 | The same inside exception handlers. |
| AsyncPass.StatementCountPreserved | venv/lib/python3.9/site-packages/codrone_edu/tools/transformer.py:51-104 | The pass replaces statements one for one: the number of statements at all depths is unchanged. |
| AsyncPass.NestedCountPreserved | venv/lib/python3.9/site-packages/codrone_edu/tools/transformer.py:51-104 | The same count holds inside one statement. |
| AsyncPass.HandlerCountPreserved | venv/lib/python3.9/site-packages/codrone_edu/tools/transformer.py:51-104 | The same count holds inside handlers. |
| SleepPass.SleepCallAwaited | venv/lib/python3.9/site-packages/codrone_edu/tools/transformer.py:147-154 | `time.sleep(args)` becomes `await asyncio.sleep(args)`, with the arguments as they are. Any other call is rebuilt from its rewritten parts. |
| SleepPass.ImportRenamed | venv/lib/python3.9/site-packages/codrone_edu/tools/transformer.py:136-145 | In `import`, each alias named `time` is renamed `asyncio`, keeping its `as` name. In `from time import ...`, the module becomes `asyncio`. The import then no longer imports `time`. |
| SleepPass.NoTimeImports | venv/lib/python3.9/site-packages/codrone_edu/tools/transformer.py:136-145 | After the pass, no statement at any depth imports `time`. |
| SleepPass.NoTimeImportsNested | venv/lib/python3.9/site-packages/codrone_edu/tools/transformer.py:136-145 | The same for one statement and everything nested in it. |
| SleepPass.NoTimeImportsHandlers | venv/lib/python3.9/site-packages/codrone_edu/tools/transformer.py:136-145 | The same inside handlers. |
| SleepPass.BareSleepNotAwaited | venv/lib/python3.9/site-packages/codrone_edu/tools/transformer.py:142-154 | A script that does `from time import sleep` and calls `sleep(1)` now imports `asyncio`'s coroutine, but the call is not awaited. |
| SleepPass.SleepExpr | venv/lib/python3.9/site-packages/codrone_edu/tools/transformer.py:147-154 | No ensures of its own. `visit_Call`; `SleepCallAwaited` and `BareSleepNotAwaited` state its behaviour. |
| SleepPass.SleepStmt | venv/lib/python3.9/site-packages/codrone_edu/tools/transformer.py:136-145 | No ensures of its own. `visit_Import` and `visit_ImportFrom` on one statement; `ImportRenamed` and `NoTimeImportsNested` state its behaviour. |
| SleepPass.SleepModule | venv/lib/python3.9/site-packages/codrone_edu/tools/transformer.py:127-154 | No ensures of its own. The sleep pass over a module; `NoTimeImports` states that no `time` import survives. |
| InterruptPass.InstrumentStmt | venv/lib/python3.9/site-packages/codrone_edu/tools/transformer.py:165-173 | A simple statement becomes two statements, itself then the check. A compound statement stays one statement. |
| InterruptPass.Instrumented | venv/lib/python3.9/site-packages/codrone_edu/tools/transformer.py:165-173 | Instrumenting keeps a statement's kind: simple stays simple and compound stays compound. |
| InterruptPass.StripInstrument | venv/lib/python3.9/site-packages/codrone_edu/tools/transformer.py:165-173 | Removing the inserted checks gives back the original statements exactly, so the pass adds checks and changes nothing else. |
| InterruptPass.StrippedInstrumented | venv/lib/python3.9/site-packages/codrone_edu/tools/transformer.py:165-173 | The same inverse property for a single statement and its nested bodies. |
| InterruptPass.StripInstrumentHandlers | venv/lib/python3.9/site-packages/codrone_edu/tools/transformer.py:165-173 | The same inverse property for exception handlers. |
| InterruptPass.InstrumentLength | venv/lib/python3.9/site-packages/codrone_edu/tools/transformer.py:165-173 | A block grows by exactly its number of simple statements. |
| InterruptPass.InstrumentPositions | venv/lib/python3.9/site-packages/codrone_edu/tools/transformer.py:166-172 | The i-th statement lands at i plus the number of simple statements before it. When it is simple, the check follows it immediately. |
| InterruptPass.CountSimplePrefix | venv/lib/python3.9/site-packages/codrone_edu/tools/transformer.py:166-172 | The simple statements among the first i are the first statement, if simple, plus those among the next i-1. |
| InterruptPass.InstrumentStmts | venv/lib/python3.9/site-packages/codrone_edu/tools/transformer.py:165-173 | No ensures of its own. `generic_visit` over a block; `InstrumentLength`, `InstrumentPositions` and `StripInstrument` state its behaviour. |
| InterruptPass.InstrumentModule | venv/lib/python3.9/site-packages/codrone_edu/tools/transformer.py:165-173 | No ensures of its own. The same over a module's body; `Transform.PipelineShape` states its effect on the rewritten module. |
| Transform.TransformCode | venv/lib/python3.9/site-packages/codrone_edu/tools/transformer.py:175-200 | The transformation fails exactly when the instance check finds a misnamed drone, and reports that error. Otherwise the result is the async, sleep and interrupt rewrites applied in order, with the collected `def` names. |
| Transform.ImportsInstrumented | venv/lib/python3.9/site-packages/codrone_edu/tools/transformer.py:165-173 | Each import, renamed, is followed by a check. |
| Transform.WrapperBodyStart | venv/lib/python3.9/site-packages/codrone_edu/tools/transformer.py:69-80 | The wrapper's body starts with `drone.reset_classifier()` and then a check. |
| Transform.WrapperRewritten | venv/lib/python3.9/site-packages/codrone_edu/tools/transformer.py:69-80 | After the sleep and interrupt passes, `_wrapper` is still an `async def` named `_wrapper`. Its body opens with the reset call and a check. |
| Transform.ImportsThenCompound | venv/lib/python3.9/site-packages/codrone_edu/tools/transformer.py:186-192 | Imports followed by a compound statement come out as each renamed import followed by a check, then that statement instrumented in place. |
| Transform.RewrittenShape | venv/lib/python3.9/site-packages/codrone_edu/tools/transformer.py:186-192 | The sleep and interrupt passes turn the imports and the wrapper into checked imports followed by the wrapper, whose body opens with the reset and a check. |
| Transform.PipelineShape | venv/lib/python3.9/site-packages/codrone_edu/tools/transformer.py:186-192 | The result is each import followed by a check, then `_wrapper`. The wrapper's body opens with the reset call and a check. |
| Transform.TimeSleepBecomesAwaited | venv/lib/python3.9/site-packages/codrone_edu/tools/transformer.py:147-153 | `time.sleep(x)` in a script comes out as `await asyncio.sleep(x')`, where `x'` is `x` after the async rewrite. |
| Transform.MisnamedDroneRejected | venv/lib/python3.9/site-packages/codrone_edu/tools/transformer.py:33-35 | A script whose first statement is `x = Drone(...)`, with `x` not `drone`, is rejected with `x` in the error. |
| Transform.Pipeline | venv/lib/python3.9/site-packages/codrone_edu/tools/transformer.py:186-192 | No ensures of its own. The three passes in order; `PipelineShape`, `RewrittenShape`, `TimeSleepBecomesAwaited` and `TransformCode` state its behaviour. |
| Interrupter.Interrupter.constructor | venv/lib/python3.9/site-packages/codrone_edu/tools/interrupter.py:1 | The flag starts cleared. |
| Interrupter.Interrupter.CheckInterrupt | venv/lib/python3.9/site-packages/codrone_edu/tools/interrupter.py:2-7 | The check raises exactly when the flag was set, and always leaves it cleared. |
| Interrupter.Interrupter.TriggerInterrupt | venv/lib/python3.9/site-packages/codrone_edu/tools/interrupter.py:9-11 | The flag is set. |
| Interrupter.Interrupter.ClearInterrupt | venv/lib/python3.9/site-packages/codrone_edu/tools/interrupter.py:13-15 | The flag is cleared. |
| Interrupter.Interrupter.RunOps | venv/lib/python3.9/site-packages/codrone_edu/tools/interrupter.py:1-15 | Any sequence of operations raises as often as, and leaves the flag as, the reference fold over the operations says. |
| Interrupter.RaisesBounded | venv/lib/python3.9/site-packages/codrone_edu/tools/interrupter.py:5-11 | The number of raises is at most the number of triggers, plus one if the flag started set. |
| Interrupter.CheckCheck | venv/lib/python3.9/site-packages/codrone_edu/tools/interrupter.py:5-7 | A check consumes the flag, so a second check right after it never raises. |
| Interrupter.TwoTriggersRaiseOnce | venv/lib/python3.9/site-packages/codrone_edu/tools/interrupter.py:2-11 | Two triggers followed by two checks raise once. |
| Interrupter.ClearAfterTrigger | venv/lib/python3.9/site-packages/codrone_edu/tools/interrupter.py:9-15 | Clearing cancels a pending trigger. |
| Interrupter.TriggerTwiceCheckTwice | venv/lib/python3.9/site-packages/codrone_edu/tools/interrupter.py:2-11 | On the object, two triggers followed by two checks make the first check raise and the second not. |
| Interrupter.CheckFresh | venv/lib/python3.9/site-packages/codrone_edu/tools/interrupter.py:1-7 | A fresh flag does not raise. |
| Swarm.Sequence.constructor | venv/lib/python3.9/site-packages/codrone_edu/swarm.py:283-285 | A new sequence maps its index to an empty command list. |
| Swarm.Sequence.Add | venv/lib/python3.9/site-packages/codrone_edu/swarm.py:289-290 | `add` appends one `[name, args, kwargs]` command to the sequence's own list. |
| Swarm.Sequence.Commands | venv/lib/python3.9/site-packages/codrone_edu/swarm.py:292-293 | The commands are the list stored under the sequence's index. |
| Swarm.Extend | venv/lib/python3.9/site-packages/codrone_edu/swarm.py:256-260 | Merging a command list into the table has these effects: nothing changes for an empty list; otherwise the index's list is extended (created after the existing keys if new) and every other entry and the key order are kept. |
| Swarm.ExtendValid | venv/lib/python3.9/site-packages/codrone_edu/swarm.py:256-260 | Merging a command list keeps the table well formed: keys are distinct, listed in order, and have non-empty lists. |
| Swarm.ExtendAllValid | venv/lib/python3.9/site-packages/codrone_edu/swarm.py:240-250 | Merging any number of sequences into a well-formed table keeps it well formed. |
| Swarm.Sync.constructor | venv/lib/python3.9/site-packages/codrone_edu/swarm.py:234-250 | The table is the merge of the given sequences in argument order, and is well formed. |
| Swarm.Sync.AddNext | venv/lib/python3.9/site-packages/codrone_edu/swarm.py:240-250 | The constructor's loop body merges the next sequence, extending the merge of the sequences before it. |
| Swarm.Sync.Add | venv/lib/python3.9/site-packages/codrone_edu/swarm.py:252-260 | `add` merges one more sequence. |
| Swarm.Sync.GetSize | venv/lib/python3.9/site-packages/codrone_edu/swarm.py:265-266 | The size is the number of drone indices in the table. |
| Swarm.Sync.GetMaxNumSteps | venv/lib/python3.9/site-packages/codrone_edu/swarm.py:268-277 | The loop returns the length of the longest command list, or 0 for an empty table. |
| Swarm.MaxSteps | venv/lib/python3.9/site-packages/codrone_edu/swarm.py:268-277 | The result bounds every list's length and is reached by one of them. It is 0 exactly when the table is empty. |
| Swarm.DistinctKeys | venv/lib/python3.9/site-packages/codrone_edu/swarm.py:265-266 | The dictionary's size equals the length of its key order, which has no duplicate indices. |
| Swarm.EmptySequenceAddsNothing | venv/lib/python3.9/site-packages/codrone_edu/swarm.py:256-260 | Merging an empty sequence leaves the table, and its key order, unchanged. |
| Swarm.ExtendTwice | venv/lib/python3.9/site-packages/codrone_edu/swarm.py:256-260 | Merging two lists for one index, one after the other, is merging their concatenation. |
| Swarm.Resolve | venv/lib/python3.9/site-packages/codrone_edu/swarm.py:78 | The drone list is indexed Python-style: an index in [-n, n) names a drone, with negatives counted from the end. Any other index is an `IndexError`. |
| Swarm.Calls | venv/lib/python3.9/site-packages/codrone_edu/swarm.py:77-91 | Corrected dispatch: a drone never receives more calls than there are commands, because a command whose method is missing is skipped. |
| Swarm.CallsAllPresent | venv/lib/python3.9/site-packages/codrone_edu/swarm.py:77-91 | Corrected dispatch: when the drone has every method, each command is invoked once, in order. |
| Swarm.CallMethod | venv/lib/python3.9/site-packages/codrone_edu/swarm.py:77-91 | Corrected dispatch. An index outside the fleet is an `IndexError`. Otherwise the method is invoked once, and the drone's answer is the result. |
| Swarm.PlainMethodRunsTwice | venv/lib/python3.9/site-packages/codrone_edu/swarm.py:82-87 | As written, a non-coroutine method runs twice: once in `await method()`, and again in the `TypeError` handler. The corrected dispatch runs it once. |
| Swarm.CallMethodAgrees | venv/lib/python3.9/site-packages/codrone_edu/swarm.py:82-91 | For coroutines, missing methods and bad indices, the written and corrected dispatch agree. |
| Swarm.CallMethodAsWritten | venv/lib/python3.9/site-packages/codrone_edu/swarm.py:77-91 | `__call_method` as written: an `IndexError` exactly when the index names no drone; otherwise the result is the drone's answer, or None for a missing method. `PlainMethodRunsTwice` and `CallMethodAsWrittenCalls` state its calls. |
| Swarm.PlainCount | venv/lib/python3.9/site-packages/codrone_edu/swarm.py:82-87 | The number of plain methods never exceeds the number of commands; it is the count of extra calls in `CallsAsWrittenCount`. |
| Swarm.CallsAsWritten | venv/lib/python3.9/site-packages/codrone_edu/swarm.py:77-91 | No ensures of its own. The trace under the written dispatch; `CallMethodAsWrittenCalls`, `CallsAsWrittenCount` and `CallsAsWrittenAgrees` state it. |
| Swarm.CallMethodAsWrittenCalls | venv/lib/python3.9/site-packages/codrone_edu/swarm.py:77-91 | As written, one call on a drone that exists succeeds, and its calls are the as-written trace of that command (two for a plain method). |
| Swarm.CallsAsWrittenCount | venv/lib/python3.9/site-packages/codrone_edu/swarm.py:82-87 | As written, a drone receives the corrected calls plus one extra call for every plain method among its commands. |
| Swarm.CallsAsWrittenAgrees | venv/lib/python3.9/site-packages/codrone_edu/swarm.py:82-91 | When no command names a plain method, the as-written trace equals the corrected one. |
| Swarm.RunOneDrone | venv/lib/python3.9/site-packages/codrone_edu/swarm.py:123-138 | The results are the commands' results padded with `None` by `abs(len(commands) - max)` entries. The drone receives its commands, then `reset_move_values`. A bad index is an `IndexError` with no call. |
| Swarm.PadNone | venv/lib/python3.9/site-packages/codrone_edu/swarm.py:133-136 | The padding keeps the results and appends exactly `count` `None`s. |
| Swarm.AllDrones | venv/lib/python3.9/site-packages/codrone_edu/swarm.py:94-99 | The same command is sent to every drone, and each drone's result is in its slot. |
| Swarm.DisconnectAll | venv/lib/python3.9/site-packages/codrone_edu/swarm.py:219-223 | `disconnect()` is called directly on each drone, in index order; a drone without the method receives no call. When all drones have it, each is disconnected exactly once. |
| Swarm.DisconnectFault | venv/lib/python3.9/site-packages/codrone_edu/swarm.py:219-223 | `_disconnect` raises nothing exactly when every drone's `disconnect` is a coroutine. Otherwise it raises `TypeError` (a plain method, whose result cannot be awaited) or `AttributeError` (no such method). |
| Swarm.DisconnectFaultFirst | venv/lib/python3.9/site-packages/codrone_edu/swarm.py:219-223 | The first drone, in index order, whose `disconnect` is not a coroutine decides which exception is raised. |
| Swarm.AwaitFault | venv/lib/python3.9/site-packages/codrone_edu/swarm.py:220 | No ensures of its own. What `await drone.disconnect()` raises for each method kind; `DisconnectFault` and `DisconnectFaultFirst` state its use. |
| Swarm.AbortError | venv/lib/python3.9/site-packages/codrone_edu/swarm.py:146-156 | No ensures of its own. The exception an aborted run ends with; `Run` states it. |
| Swarm.AbortLandsEveryDrone | venv/lib/python3.9/site-packages/codrone_edu/swarm.py:146-156 | An aborted run lands every drone, then disconnects each drone that has `disconnect`; when all have it, each drone is disconnected in order. |
| Swarm.DefaultOrder | venv/lib/python3.9/site-packages/codrone_edu/swarm.py:170 | There is one row per step, and each row is 0, 1, ..., num_synced-1. |
| Swarm.RunStep | venv/lib/python3.9/site-packages/codrone_edu/swarm.py:178-193 | One step of a sequential run succeeds exactly when every index in its row names a drone and a table entry, and the delay is not negative (unless the row is empty). Each drone in the row runs its command for this step, or `reset_move_values` once its list is exhausted. |
| Swarm.RunSequential | venv/lib/python3.9/site-packages/codrone_edu/swarm.py:172-197 | A sequential run succeeds exactly when every step is runnable. Its rows and its trace are then those of the step-by-step reference. Failures are `IndexError`, `KeyError` or the negative delay. |
| Swarm.DefaultOrderNeedsDenseIndices | venv/lib/python3.9/site-packages/codrone_edu/swarm.py:170-180 | With the default order, a run can only succeed if drones 0..num_synced-1 all have sequences. |
| Swarm.DefaultOrderWithIndicesOneTwo | venv/lib/python3.9/site-packages/codrone_edu/swarm.py:170-180 | Sequences for drones 1 and 2 only, in sequential mode with the default order, always fail. |
| Swarm.DefaultOrderRunnable | venv/lib/python3.9/site-packages/codrone_edu/swarm.py:158-193 | Dense indices within the fleet and a non-negative delay make the default order runnable. |
| Swarm.Transpose | venv/lib/python3.9/site-packages/codrone_edu/swarm.py:208 | `zip(*lists)` has the length of the shortest list, and its entry (i, j) is `lists[j][i]`. |
| Swarm.TransposeTwice | venv/lib/python3.9/site-packages/codrone_edu/swarm.py:208 | Transposing equal-length lists twice gives them back. |
| Swarm.RunParallel | venv/lib/python3.9/site-packages/codrone_edu/swarm.py:199-209 | A parallel run succeeds exactly when every synced index names a drone. Its rows are the transposed per-drone results, and every drone receives its whole sequence and a reset. |
| Swarm.RunNextDrone | venv/lib/python3.9/site-packages/codrone_edu/swarm.py:199-209 | The next drone's run succeeds exactly when its index names a drone. It then adds that drone's results and extends the trace by its calls. |
| Swarm.Run | venv/lib/python3.9/site-packages/codrone_edu/swarm.py:140-209 | Too many synced drones, or an order longer than the longest sequence, aborts the run: every drone is landed and disconnected. The run then fails with the sync error, unless `_disconnect` raised first: `TypeError` for a plain `disconnect`, `AttributeError` for a missing one. Otherwise the run is sequential (with default delay 0 and the default order) or parallel, as the mode and drone count select, with the outcome of that branch. |
| Update.LittleEndianRoundTrip | venv/lib/python3.9/site-packages/codrone_edu/tools/update.py:39 | Encoding a number below 256^k in k little-endian bytes and decoding it gives the number back. |
| Update.ToLittleEndianRoundTrip | venv/lib/python3.9/site-packages/codrone_edu/tools/update.py:39 | Decoding bytes and re-encoding them in as many bytes gives the bytes back. |
| Update.ParseHeader | venv/lib/python3.9/site-packages/codrone_edu/tools/update.py:33-45 | Parsing gives None exactly when the input is not 16 bytes. Otherwise the fields are in the ranges of `<IIIHBB`. |
| Update.EncodeHeader | venv/lib/python3.9/site-packages/codrone_edu/tools/update.py:39 | Packing a header gives exactly 16 bytes. |
| Update.ParseThenEncode | venv/lib/python3.9/site-packages/codrone_edu/tools/update.py:36-39 | Any 16 bytes parse to a well-formed header that packs back to the same bytes. |
| Update.PackParsedFields | venv/lib/python3.9/site-packages/codrone_edu/tools/update.py:36-39 | Packing the fields parsed from 16 bytes gives those bytes back. |
| Update.EncodeThenParse | venv/lib/python3.9/site-packages/codrone_edu/tools/update.py:36-39 | Any well-formed header packs to bytes that parse back to it. |
| Update.VersionSplit | venv/lib/python3.9/site-packages/codrone_edu/tools/update.py:41-43 | Major, minor and build fit in 8, 8 and 16 bits, and recombine to the 32-bit version. |
| Update.HexByte | venv/lib/python3.9/site-packages/codrone_edu/tools/update.py:75 | `"{0:02X} "` is three characters ending in a space. |
| Update.HexString | venv/lib/python3.9/site-packages/codrone_edu/tools/update.py:73-75 | The hex header has three characters per byte. |
| Update.ReadHexString | venv/lib/python3.9/site-packages/codrone_edu/tools/update.py:73-75 | Reading the hex header back gives the raw bytes, so the rendering loses nothing. |
| Update.HexStringAt | venv/lib/python3.9/site-packages/codrone_edu/tools/update.py:74-75 | Characters 3i to 3i+3 render byte i. |
| Update.HexStringCons | venv/lib/python3.9/site-packages/codrone_edu/tools/update.py:73-75 | The hex header is the first byte's rendering followed by that of the rest. |
| Update.Firmware.Empty | venv/lib/python3.9/site-packages/codrone_edu/tools/update.py:52-58 | A firmware object without a file has no path, data or header, and length 0. |
| Update.Firmware.Open | venv/lib/python3.9/site-packages/codrone_edu/tools/update.py:62-83 | The contents, length, first 16 bytes, parsed header and hex header are stored. Opening completes exactly when the file has at least 16 bytes; shorter files fail when the missing header is printed. |
| Update.HeaderHex | venv/lib/python3.9/site-packages/codrone_edu/tools/update.py:73-75 | The formatting loop builds the hex rendering of the raw header. |
| Update.DeviceTypeIsSecondByte | venv/lib/python3.9/site-packages/codrone_edu/tools/update.py:102 | `(modelNumber >> 8) & 0xFF` is the second little-endian byte of the model number. |
| Update.DeviceTypeOf | venv/lib/python3.9/site-packages/codrone_edu/tools/update.py:102 | The device type is below 256; `DeviceTypeIsSecondByte` states that it is the model number's second byte. |
| Update.OnInformation | venv/lib/python3.9/site-packages/codrone_edu/tools/update.py:97-105 | The handler records the mode, model number and device type, and marks the state updated. The completion flag is set exactly when it was already set or the mode is `Complete`. The next block index is kept. |
| Update.OnUpdateLocation | venv/lib/python3.9/site-packages/codrone_edu/tools/update.py:113-116 | Only the next block index and the updated flag change. |
| Update.OnResponses | venv/lib/python3.9/site-packages/codrone_edu/tools/update.py:97-116 | Any response marks the state updated. |
| Update.Packet | venv/lib/python3.9/site-packages/codrone_edu/tools/update.py:270-273 | A data packet is 18 bytes. |
| Update.TransferStep | venv/lib/python3.9/site-packages/codrone_edu/tools/update.py:233-276 | One pass of the loop: the error count resets on a response and grows otherwise. It halts exactly when the block is past the image (`Index Over`), or when the update is complete and the block is in range. Otherwise it sends the block's packet and keeps running while the count is at most 30. |
| Update.Updater.constructor | venv/lib/python3.9/site-packages/codrone_edu/tools/update.py:87-94 | A new updater has no model, mode `None`, block 0, and both flags cleared. |
| Update.Updater.EventInformation | venv/lib/python3.9/site-packages/codrone_edu/tools/update.py:97-105 | The fields change as the information handler prescribes. |
| Update.Updater.EventUpdateLocation | venv/lib/python3.9/site-packages/codrone_edu/tools/update.py:113-116 | The fields change as the location handler prescribes. |
| Update.Updater.Deliver | venv/lib/python3.9/site-packages/codrone_edu/tools/update.py:138-139 | Delivering a batch of replies applies the handlers in order. |
| Update.Updater.RunTransfer | venv/lib/python3.9/site-packages/codrone_edu/tools/update.py:226-276 | The transfer loop sends the packets, ends with the outcome and leaves the state that the pass-by-pass reference gives. |
| Update.Transfer | venv/lib/python3.9/site-packages/codrone_edu/tools/update.py:226-276 | No ensures of its own. The pass-by-pass reference run of the transfer loop; `Updater.RunTransfer`, `Updater.TransferPass`, `PacketsInBounds`, `SilenceGivesUp` and `ResponseSelectsBlock` state its behaviour. |
| Update.Updater.TransferPass | venv/lib/python3.9/site-packages/codrone_edu/tools/update.py:233-276 | One pass sends at most one packet. If the loop goes on, the reference run from here is that packet followed by the run from the next pass. If it stops, the pass ends the reference run. |
| Update.PacketLayout | venv/lib/python3.9/site-packages/codrone_edu/tools/update.py:270-273 | The first two bytes are the block index mod 65536, little-endian, and the other 16 are that block of the image. |
| Update.DivMod256 | venv/lib/python3.9/site-packages/codrone_edu/tools/update.py:270-273 | Quotient and remainder by 256 are unique: they are what the block index splits into. |
| Update.PacketsInBounds | venv/lib/python3.9/site-packages/codrone_edu/tools/update.py:255-273 | Every packet sent is the packet of a block lying entirely inside the image. |
| Update.SilenceGivesUp | venv/lib/python3.9/site-packages/codrone_edu/tools/update.py:243-250 | With no reply at all, the loop resends the same block until the error count passes 30, then stops with `No response`. |
| Update.ResponseSelectsBlock | venv/lib/python3.9/site-packages/codrone_edu/tools/update.py:113-116 | A location reply makes the next packet sent that block's packet. |
| Assistant.Strip | main.py:78 | `str.strip()` returns a middle part of the text that neither starts nor ends with whitespace. Everything cut off is whitespace. |
| Assistant.StripLeft | main.py:78 | `lstrip` drops exactly the leading whitespace. What remains does not start with whitespace. |
| Assistant.StripRight | main.py:78 | `rstrip` keeps a prefix. Everything it cuts is whitespace, and what remains does not end with whitespace. |
| Assistant.StripBothEnds | main.py:78 | Stripping both ends keeps a middle part of the text, after the leading whitespace, and everything after it is whitespace. |
| Assistant.StripIdempotent | main.py:78 | Stripping twice is stripping once. |
| Assistant.SliceBound | main.py:78 | A slice bound counts a negative bound from the end and clips it to the string. |
| Assistant.PySlice | main.py:78 | `s[a:b]` is the text between the clipped bounds, or empty when they cross. |
| Assistant.StripFence | main.py:77-80 | A reply that does not start with three backticks is kept as it is, unstripped. |
| Assistant.JsonFenceRemoved | main.py:77-78 | `` ```json<body>``` `` comes out as the stripped body. |
| Assistant.BareFenceRemoved | main.py:79-80 | `` ```<body>``` `` (not tagged `json`) comes out as the stripped body. |
| Assistant.UnclosedFenceLosesText | main.py:77-78 | The cut is positional. An unclosed `` ```json{"command": "land"} `` is cut to `{"command": "lan`, which then fails to decode. |
| Assistant.Validate | main.py:84-93 | The result is always an accepted command. An accepted object is returned unchanged, and anything else becomes `unknown`. |
| Assistant.ValidateIdempotent | main.py:84-93 | Validating twice is validating once. |
| Assistant.DecodeReply | main.py:82-97 | An undecodable reply gives `unknown`, and a decoded one is validated. Either way the result is accepted. |
| DroneCommands.Param | main.py:145 | `params.get(key, default)` fails exactly when the parameters are not an object. Otherwise it gives the value or the default. |
| DroneCommands.ToFloat | main.py:145 | `float` converts numbers exactly. Null, lists and objects are a `TypeError`. |
| DroneCommands.Truncate | main.py:204 | `int` of a float truncates toward zero. |
| DroneCommands.ToInt | main.py:204 | `int` keeps integers and truncates floats. Null, lists and objects are a `TypeError`. |
| DroneCommands.FloatParam | main.py:145 | A missing key gives the default. |
| DroneCommands.IntParam | main.py:204 | A missing key gives the default. |
| DroneCommands.StrParam | main.py:150 | A missing key gives the default. |
| DroneCommands.Clamp | main.py:206 | `max(-100, min(100, p))` is in [-100, 100], equals p inside the range, and is the nearer bound outside it. |
| DroneCommands.PowerCall | main.py:203-218 | A stick command makes one call, with one integer power in [-100, 100], the clamped `int(params.get("power", 0))`. |
| DroneCommands.TimedCallPowerSafe | main.py:144-202 | A timed call that is not a stick command never breaks the stick range. |
| DroneCommands.TurnCallPowerSafe | main.py:172-187 | A timed turn with yaw power in range stays in range. |
| DroneCommands.PerformPowerSafe | main.py:123-224 | The calls attempted are a prefix of a range-respecting plan, so they respect the range too. |
| DroneCommands.Perform | main.py:123-224 | Calls run in order until one raises. The calls attempted are a prefix of the plan, every one but the last succeeded, and the run ends without an exception exactly when the whole plan succeeded. |
| DroneCommands.CommandOf | main.py:118 | No ensures of its own. `command_data.get("command", "unknown")`; `MainServer.UnimplementedMakesNoCall` covers the default `unknown`. |
| DroneCommands.ParamsOf | main.py:119 | No ensures of its own. `command_data.get("parameters", {})`; `MainServer.MoveDefaults` and `DurationDefaults` cover missing keys. |
| DroneCommands.FlightState | main.py:125-137 | No ensures of its own. The flag update; `MainServer.FlyingOnlyAfterTakeoff`, `MainServer.LandingClearsFlying` and `VoiceCommand.BeliefIsLastFlightCommand` state it. |
| DroneCommands.NegativeTurnKeepsYawing | main.py:172-179 | A timed turn with a negative duration stops at `time.sleep` with a `ValueError`, after the yaw was set and before it is reset to 0. |
| MainServer.GetDroneCommandFromText | main.py:35-103 | A reply gives an accepted command: `unknown` when undecodable, otherwise the decoded reply as validated, so an allowed command is returned unchanged. No client, an API error or any other exception gives an `error` command. |
| MainServer.Execute | main.py:107-117 | Without a connected drone, nothing is called and `flying` is unchanged. |
| MainServer.MoveCall | main.py:148-171 | No ensures of its own. `move_*(distance, unit, speed)`; `MoveDefaults` states the defaults. |
| MainServer.Plan | main.py:123-224 | No ensures of its own. The calls of each branch; `PlanPowerSafe`, `TakeoffSequence`, `TurnLeftSequence`, `TurnRightSequence`, `MoveDefaults`, `DurationDefaults`, `UnimplementedMakesNoCall` and `ErrorMakesNoCall` state them. |
| MainServer.Recover | main.py:226-235 | No ensures of its own. The exception handlers; `ValueErrorOnlyLogs`, `ConversionValueErrorOnlyLogs`, `ConversionFaultLands` and `UnexpectedFaultLands` state them. |
| MainServer.DroneStatus.constructor | main.py:29 | The server starts neither connected nor flying. |
| MainServer.DroneStatus.ExecuteDroneCommand | main.py:107-235 | The calls and the new `flying` are those of the command's branch and the exception handlers. `connected` is never changed. |
| MainServer.DroneStatus.ProcessCommands | main.py:290-313 | The processor executes each queued command in order, only while the server counts the drone connected. |
| MainServer.FlyingOnlyAfterTakeoff | main.py:125-129 | `flying` becomes true only after a `takeoff` command whose `takeoff()` and `hover(1)` both went through. |
| MainServer.LandingClearsFlying | main.py:130-137 | A `land` or `emergency_stop` on a connected drone leaves it marked not flying, unless a `ValueError` stopped it. |
| MainServer.UnexpectedFaultLands | main.py:226-235 | An exception other than `ValueError` from a drone call leaves the drone marked not flying, and `land()` is the last call attempted. |
| MainServer.PlanPowerSafe | main.py:172-218 | Every planned stick command carries one power in [-100, 100]. |
| MainServer.PowerAlwaysClamped | main.py:203-218 | Every stick command actually sent, whatever the reply and the drone, carries one power in [-100, 100]. |
| MainServer.UnimplementedMakesNoCall | main.py:219-224 | `unknown` and commands without a branch make no call and leave `flying` unchanged. |
| MainServer.ErrorWithoutMessageLands | main.py:221-222 | An `error` command whose parameters are not an object fails reading its message, which lands the drone and clears `flying`. |
| MainServer.ErrorMakesNoCall | main.py:221-222 | An `error` command with an object of parameters makes no call. |
| MainServer.TakeoffSequence | main.py:125-129 | On a drone whose calls succeed, `takeoff` calls `takeoff()` then `hover(1)`, and marks the drone flying. |
| MainServer.TurnLeftSequence | main.py:172-179 | `turn_left` yaws at -50, sleeps, stops the yaw and hovers 0.5 s. A negative duration stops after the yaw, with the yaw still set. |
| MainServer.TurnRightSequence | main.py:180-187 | `turn_right` yaws at 50, sleeps, stops the yaw and hovers 0.5 s. A negative duration stops after the yaw, with the yaw still at 50. |
| MainServer.ValueErrorOnlyLogs | main.py:226-227 | A `ValueError` from a drone call is only reported: the calls made stand and `flying` is unchanged. |
| MainServer.ConversionValueErrorOnlyLogs | main.py:226-227 | A `ValueError` from reading the parameters comes before any call: nothing is called and `flying` is unchanged. |
| MainServer.ConversionFaultLands | main.py:228-235 | Any other exception from reading the parameters lands the drone, with no other call, and clears `flying`. |
| MainServer.MoveDefaults | main.py:148-171 | A move without `distance`, `unit` or `speed` calls the move with 50.0, "cm" and 1.0. |
| MainServer.DurationDefaults | main.py:144-202 | Without a `duration`, `hover(3.0)`, `move_up(1.0)` and `move_down(1.0)` are called, and a turn yaws for 1.0 s. |
| MainServer.NoTakeoffNoFlying | main.py:290-313 | A queue without `takeoff` never marks a grounded drone as flying. |
| VoiceCommand.GetDroneCommandFromText | voice_command.py:30-98 | A reply gives an accepted command: `unknown` when undecodable, otherwise the decoded reply as validated, so an allowed command is returned unchanged. Any exception gives the message-less `error` command. The result is always a dictionary. |
| VoiceCommand.Plan | voice_command.py:109-190 | No ensures of its own. The calls of each branch; `PlanPowerSafe`, `DurationDefaults`, `TurnSequence` and `NoBranchNoCall` state them. |
| VoiceCommand.Recover | voice_command.py:192-202 | No ensures of its own. The exception handlers; `ReportedFaultOnlyLogs`, `ConversionFault` and `UnexpectedFaultLands` state them. |
| VoiceCommand.Execute | voice_command.py:102-202 | No ensures of its own. `execute_drone_command`; `PowerAlwaysClamped`, `NoBranchNoCall`, `ReportedFaultOnlyLogs`, `ConversionFault`, `UnexpectedFaultLands` and `TurnSequence` state its behaviour. |
| VoiceCommand.Step | voice_command.py:276-288 | No ensures of its own. One turn of the main loop; `HandlePhrase` computes it and `FailedTakeoffBelievedFlying` shows its order of flag update and call. |
| VoiceCommand.Session | voice_command.py:271-288 | No ensures of its own. The main loop over all phrases; `MainLoop`, `SessionNext` and `FlagIgnoresDrone` state it. |
| VoiceCommand.MainLoop | voice_command.py:271-288 | The loop's calls and final `is_flying` are those of the phrase-by-phrase reference. |
| VoiceCommand.SessionStart | voice_command.py:271-288 | Before any phrase, the whole session remains to be run. |
| VoiceCommand.SessionNext | voice_command.py:271-288 | Handling one more phrase keeps the loop invariant: what was done plus the rest of the session is the whole session. |
| VoiceCommand.SessionEnd | voice_command.py:271-288 | When the phrases run out, what was done is the whole session. |
| VoiceCommand.HandlePhrase | voice_command.py:276-288 | An empty phrase is skipped. Otherwise `is_flying` is updated from the command name, then the command is executed. |
| VoiceCommand.Finally | voice_command.py:312-332 | The shutdown raises `NameError` exactly when pairing failed. Otherwise a connected drone ends with `close()`; one not believed to be flying gets `close()` alone. A disconnected drone gets no call. |
| VoiceCommand.FlagIgnoresDrone | voice_command.py:280-285 | The final `is_flying` depends only on the commands, never on whether their calls succeeded. |
| VoiceCommand.BeliefSnoc | voice_command.py:281-285 | One more command updates the flag once more. |
| VoiceCommand.BeliefIsLastFlightCommand | voice_command.py:281-285 | `is_flying` holds exactly when the last `takeoff`/`land`/`emergency_stop` command was `takeoff`. |
| VoiceCommand.FailedTakeoffBelievedFlying | voice_command.py:280-288 | A `takeoff` whose `takeoff()` raises `CoDroneError` or `ValueError` still leaves `is_flying` true, and no landing is attempted. |
| VoiceCommand.UnexpectedFaultLands | voice_command.py:196-202 | Another exception is followed by a `land()` attempt. |
| VoiceCommand.NoBranchNoCall | voice_command.py:185-190 | Every command without a branch, and any command that is not a string, makes no call. |
| VoiceCommand.ServerOnlyCommandsMakeNoCall | voice_command.py:185-190 | `flip` and `spiral`, which the web server performs, make no call here; nor do `unknown` and `error`. |
| VoiceCommand.ReportedFaultOnlyLogs | voice_command.py:192-195 | A `CoDroneError` or `ValueError` from a drone call is only reported: the calls made stand and nothing else is called. |
| VoiceCommand.ConversionFault | voice_command.py:194-202 | An exception while reading the parameters comes before any call: a `ValueError` makes no call, and any other exception makes `land()` the only call. |
| VoiceCommand.DurationDefaults | voice_command.py:117-168 | Without a `duration`, `hover` lasts 3.0 s, every movement 1.0 s, and a turn yaws for 1.0 s. |
| VoiceCommand.TurnSequence | voice_command.py:140-160 | A turn yaws at -50 (left) or 50 (right), sleeps, stops the yaw and hovers 0.5 s. A negative duration stops after the yaw, with the yaw still set. |
| VoiceCommand.PowerAlwaysClamped | voice_command.py:169-184 | Every stick command sent carries one power in [-100, 100]. |
| VoiceCommand.PlanPowerSafe | voice_command.py:110-184 | Every planned stick command carries one power in [-100, 100]. |
| VoiceCommand.ShutdownLandsFirst | voice_command.py:318-323 | A connected drone believed to be flying gets `land()` first at shutdown. |
| VoiceCommand.PairingFailureSkipsClose | voice_command.py:308-316 | When pairing fails, the `finally` block stops at the undefined listener thread, before landing or closing anything. |

## Left out

- Parsing Python source text (`ast.parse`) and printing the tree back (`astor.to_source`) are not modelled. The rewriter works on the syntax tree. Source locations (`copy_location`, `fix_missing_locations`) carry no meaning in the tree and are dropped.
- The `transformer.py` syntax tree folds node kinds the rewriter treats alike into generic constructors. Every other expression and every other simple statement is one constructor each, and `with`-like statements are one kind that the interrupt pass does not enter. Some fields are dropped: keyword-only parameters and their defaults, per-parameter annotations, and a class's keywords. The async pass would still visit drone calls inside them and await them.
- `asyncio` concurrency is not modelled. `asyncio.gather` in `_all_drones` and the parallel `_run` is modelled as the drones taking their turns one after another. The trace lists each drone's calls together, in table order. In `_disconnect`, each drone's task is taken to run up to its `disconnect()` call in index order, so the first failing drone decides the exception.
- The serial link, drone pairing, LED colours and the `Swarm` constructor are not modelled. A `Fleet` stands in for the connected drones.
- `time.sleep` is not modelled as time passing. It appears only as the `ValueError` a negative delay raises. In `swarm.py`, `time` comes in through the star import of the drone module.
- Update.ParseHeader: keeps the model number as a raw 32-bit value. The conversion to the `ModelNumber` enum at update.py:40, which raises `ValueError` for a number that names no model, is left out because the enum is defined in the drone module, which is not part of this model. The same holds for `DeviceType` at update.py:102.
- Update.Updater.RunTransfer: the transfer loop is modelled as written, but in the source it is unreachable. `update()` prints that the Python updater is unavailable and calls `exit()` at update.py:175, before any firmware is selected. Firmware selection (update.py:178-212), the `sendRequest`/`sleep` handshake and the progress display are not modelled. Clock readings become one boolean per pass: whether the retransmission timer has expired.
- The OpenAI call, `json.loads`, `float()`/`int()` of strings and `str()` of non-strings are parameters. Speech recognition, the microphone, audio decoding (`transcribe_audio_data`), the FastAPI endpoints, threads, queues, the start-up and shutdown handlers of `main.py`, and printing are not modelled.
- `main.py` elides its configuration (`client`, `ALLOWED_COMMANDS`) at main.py:19, so the allow-list and whether a client exists are parameters.
- Float special values (NaN, infinities) and float rounding are not modelled. Durations and distances are real numbers.
- `KeyboardInterrupt` in the voice loop is not modelled. The loop ends when its input phrases run out.
- Swarm.Calls: describes the corrected dispatch. Its bound (no more calls than commands) does not hold as written, where a plain method is called twice.
- Swarm.CallsAllPresent: describes the corrected dispatch, where each command is invoked once. As written, a plain method is invoked twice; `CallsAsWrittenCount` gives that count.
- Swarm.RunOneDrone: its trace uses the corrected single-call dispatch `CallMethod`. As written (swarm.py:82-87), a plain method is called twice, which this trace does not show; `CallsAsWritten`, `CallsAsWrittenCount` and `PlainMethodRunsTwice` state the as-written count. This includes the final `reset_move_values` at swarm.py:129-130.
- Swarm.AllDrones: its trace uses the corrected single-call dispatch `CallMethod`. As written (swarm.py:82-87), a plain method is called twice, which this trace does not show; `CallsAsWritten`, `CallsAsWrittenCount` and `PlainMethodRunsTwice` state the as-written count.
- Swarm.AbortLandsEveryDrone: the `land` calls in its trace use the corrected dispatch. As written, a plain `land` is called twice per drone.
- Swarm.RunStep: its trace uses the corrected single-call dispatch `CallMethod`. As written (swarm.py:82-87), a plain method is called twice, which this trace does not show; `CallsAsWritten`, `CallsAsWrittenCount` and `PlainMethodRunsTwice` state the as-written count. This includes the `reset_move_values` calls for exhausted lists.
- Swarm.RunSequential: its trace uses the corrected single-call dispatch `CallMethod`. As written (swarm.py:82-87), a plain method is called twice, which this trace does not show; `CallsAsWritten`, `CallsAsWrittenCount` and `PlainMethodRunsTwice` state the as-written count.
- Swarm.RunParallel: its trace uses the corrected single-call dispatch `CallMethod`. As written (swarm.py:82-87), a plain method is called twice, which this trace does not show; `CallsAsWritten`, `CallsAsWrittenCount` and `PlainMethodRunsTwice` state the as-written count.
- Swarm.RunNextDrone: its trace uses the corrected single-call dispatch `CallMethod`. As written (swarm.py:82-87), a plain method is called twice, which this trace does not show; `CallsAsWritten`, `CallsAsWrittenCount` and `PlainMethodRunsTwice` state the as-written count.
- Swarm.Run: its trace, including the `land` calls of an aborted run, uses the corrected single-call dispatch `CallMethod`. As written (swarm.py:82-87), a plain method is called twice; `CallsAsWrittenCount` states that count.

## Findings

| source | as written | input that shows it | evidently intended | confidence | as-written member | corrected member |
|---|---|---|---|---|---|---|
| venv/lib/python3.9/site-packages/codrone_edu/swarm.py:82-87 | `return await method(*args, **kwargs)`. For a plain method such as `set_yaw`, the call runs, then awaiting its non-awaitable result raises `TypeError`, and the handler calls the method a second time. | `__call_method(0, ["set_yaw", (50,), {}])` on a drone whose `set_yaw` is a plain method | The method runs once, awaited only when it is a coroutine | not executed | Swarm.CallMethodAsWritten | Swarm.CallMethod |
