# A verified model of the virtual machine, its compiler and its checkers

The repository is a small language implementation in C. Source words build a block array
(`frontend.c`); a pass rewrites its DEFER blocks into crash pads, inlined cleanups and ordinary
control flow (`ir.c`); a one-pass compiler with back-patching turns the blocks into bytecode and
an interpreter runs it (`vm.c`); two checkers look at types and at borrows before a program runs
(`verification.c`).

This project models these parts in Dafny and proves what they are for:

- **Meaning.** `Semantics` says what a block tree does, with DEFER taken at its word: the cleanup
  runs when the protected part is left normally, by a break or by a soft crash. Lowering keeps this
  meaning (`LoweringProof`, `CalmCleanups`), the bytecode runs as the lowered tree means
  (`Simulation`, `CompilerCorrect`), and so does the machine on the whole pipeline.
- **Cleanup.** Every cleanup runs exactly once, innermost first, over whole runs (`Cleanup`,
  `TornRuns`); `Instrument` puts probes into any program, and probing and lowering go together
  (`Probes`, `ProbedLowering`), so that this holds of every program that may be lowered
  (`EveryCleanup`). The two ways in which the code falls short have their exact conditions and
  concrete inputs (see Findings).
- **Crashes.** A soft crash is re-raised by every pad that it reaches, so the machine returns the code
  of the first crash and returns VM_OK only when there was none (`CrashReported`).
- **The code as it works.** What the C code does by updating state in place is written that way:
  `DeferRemover` (the block array, the epilogue stack), `Compiler` (code buffer, type stack, scopes,
  patches), `Vm` (the machine), `Frontend` (blocks, scopes, depth), `InternTable` (open addressing
  over arrays), `HoldPool`, `HoldGraph`, `TypeScanner`, `PortalScan`, `BorrowChecker`, `TypeLayout`. Each of these
  methods is proved against a function or a relation, and the properties are proved of those.
- **Operations.** What each operation does to memory is told of what is loaded before and after:
  numbers (`Arithmetic`), arrays, slices, fields and copies (`Elements`).
- **Checks.** The symbolic places of the first pass are the pointers of a run (`PlacesHold`), a portal is
  led only to what outlives it (`PortalRegions`, `Lifetimes`), and accepted calls follow the aliasing
  rules (`CallRules`).
- **From text.** `FrontendRuns`, `FrontendTrees`, `SourceLowers` and `FrontendMeaning` follow a
  source from its words to the tree it stands for; `FrontendAstray` shows what goes wrong where.

Words used below. A tree is *lowerable* (`Lowering.Lowerable`) when it has no crash pad or broken
link of its own, its cleanups contain their own breaks, its breaks stay in the function and reach
every cleanup they leave, and no variable is declared under a pending cleanup that uses it. A run is
*torn* when a cleanup that a break was running soft-crashes. *Fuel* bounds the depth of calls and the
iterations of each loop of a run; results hold for every fuel, and a run that needs more is a
time-out on one side and a machine that is still running on the other.

Files build on one another in this order: `Memory`, `Ir`, `Semantics`, `Arithmetic`, then `Lowering*`, `Cleanup*`,
`TornRuns`, `CalmCleanups`, `Probes`, `Instrument`; `FlatBlocks`, `DeferRemover`; `Bytecode`, `Machine`,
`Codegen*`, `Stepping`, `OpSimulation`, `Simulation*`, `Outcomes`, `CompilerCorrect`, `CrashUnwinding`,
`CrashReported`, `ProbedLowering`, `EveryCleanup`; `Patching`, `CompilerState`, `Compiler`, `Vm`,
`EndToEnd`; `JumpTargets`, `FarLoop`, `VarLayout`; `Frontend*`, `BlockTree`, `Source*`, `SkippedCleanup`;
`TypeLayout`, `PortalTypes`, `Elements`; `InternTable`, `Places`, `TypeScan*`, `StackKept`, `PlacesHold`,
`HoldPool`, `Borrow*`, `HoldGraph`, `CallRules`, `PortalRegions`, `PortalScan`, `Lifetimes`.

## Model

| member | source | states |
|---|---|---|
| LoweringProof.FuncLowers | ir.c:138-319 | Removing the DEFER blocks of a program keeps its meaning: for every lowerable program, function, start state and fuel, the lowered function ends with the same outcome, memory, parameters, first crash code and trace as the function with its defers, unless a cleanup that a break was running soft-crashes. |
| CalmCleanups.MeaningKeptExactly | ir.c:255-308 | The exact condition: over every run of every lowerable program the lowered program does the same if and only if the run is not torn (no cleanup that a break was running soft-crashed). |
| CalmCleanups.LoweringAlwaysKeepsMeaning | ir.c:138-319 | When no cleanup can soft-crash (a condition on the text of the program) lowering keeps the meaning of every run, with no exception. |
| Cleanup.LoweredCleansUpOnce | README.md:239-247 | In every run of the lowered program that keeps the meaning, each entered defer runs its cleanup exactly once, the innermost first, whether it is left normally, by a break or by a soft crash: the trace of probes is balanced. |
| TornRuns.CleansUpOnceExactly | ir.c:255-308 | Over every run of the lowered program that is not stopped hard: every cleanup has run exactly once, innermost first, if and only if the run is not torn. |
| Instrument.EveryProgramIsProbed | README.md:239-247 | Probes can be put into every program, under any naming of its defers; the probed program may be lowered just when the program may. |
| Instrument.MarkedFuncAlike | README.md:239-247 | Probing does not change what a program does: the same outcome and the same state but for the trace, for every fuel and start. |
| Probes.TreeAlike | README.md:269-273 | The same for single blocks, under any number of scopes added around them: where breaks are raised by the added scopes they cross, a run differs only in its trace and in the level that is still to be left. |
| ProbedLowering.LoweredProgramWith | ir.c:138-319 | Probing and lowering go together: the lowered form of the probed program is the lowered form of the program, with probes and their scopes put in. |
| ProbedLowering.LoweredFuncAlike | ir.c:138-319 | So the lowered program and the lowered probed program do the same but for the trace, in every run, torn or not. |
| ProbedLowering.SucceedsAlike | ir.c:138-319 | For every run of every lowerable program, without exception: the lowered program ends normally if and only if the program does, and then in the same state. A torn run shows as a crash, never as a success. |
| EveryCleanup.ProbedCleansUpOnce | ir.c:138-319 | So for every lowerable program, not only for one that was written with probes: with probes its lowered form does the same as without, and runs every cleanup exactly once if and only if the run is not torn. |
| EveryCleanup.MachineCleansUpOnce | vm.c:987-1391 | The same of the machine: whenever it stops on the compiled, lowered, probed program, the run it carried out has a balanced trace if and only if the run with defers is not torn, and then its result is that of the program. |
| EveryCleanup.MachineSucceedsAlike | vm.c:987-1391 | When the machine stops on a lowered and compiled program, it returns VM_OK if and only if the program ends normally with its defers taken at their word. |
| CleanupTwice.CrashingCleanupRunsAgain | ir.c:255-308 | A cleanup that is inlined at a break and soft-crashes there is run again by the pad of its own defer, on the state that the pad restores; with defers it runs once and the run is torn. |
| CleanupTwice.RunsTwice | ir.c:255-308 | The concrete program for it: with defers the trace is [0, 1], after lowering it is [0, 1, 1], which is not balanced. |
| CleanupGuards.CrashIsRefusal | vm.c:1061-1278 | An operation that is no call soft-crashes if and only if it refuses its operands: a division by zero, a full array, an index or a count outside the array or slice, or a native that reports a crash. |
| CleanupGuards.PlainCleanup | ir.c:255-308 | For a cleanup of plain operations, broken out of: it runs twice if and only if one of them refuses its operands in the state that the break leaves, which can be checked before the break. |
| CleanupGuards.DividingCleanup | ir.c:255-308 | For a cleanup that divides one argument by another: exactly when that one is zero. |
| BreakCoverage.InlinedCleanups | ir.c:255-308 | The cleanups that a lowered break inlines are always an inner-to-outer prefix of those it has to run; they are all of them exactly when at least b + 1 of the scopes it leaves lie beyond the outermost defer it leaves, b being the branches in between. |
| BreakCoverage.BreakToDeferSkipsCleanup | ir.c:255-308 | A break from the protected part to just behind its defer inlines no cleanup. |
| SkippedCleanup.BreakToDeferSkips | README.md:239-247 | With the defer the probe in the cleanup is passed, after lowering it is not, in every run. |
| SkippedCleanup.SourceSkipsCleanup | frontend.c:618-634 | Source text that skips a cleanup: the frontend accepts LOOP, START, three IFs, BREAK, FINALLY, a probe, END, AGAIN; with defers the run passes the probe, the lowered run returns without it. |
| DeferRemover.RemoveDefers | ir.c:321-332 | The block array that remove_defers writes unfolds from block 0 to the lowered tree and to nothing else, with every index that is reached inside the array and exactly the predicted number of blocks. |
| DeferRemover.Remover.Remove | ir.c:138-319 | One block is lowered into one slot: the slot unfolds to the lowered block, the epilogue stack is as before, and no block outside the slot and the new ones changes. |
| DeferRemover.Remover.CopyCleanups | ir.c:255-308 | The cleanups of the top entries of the epilogue stack become children of a MANY block, in order, sharing their blocks with the pads. |
| DeferRemover.Remover.RemoveBreak | ir.c:255-308 | A break becomes a MANY of those cleanups and the break one level further, or stays itself when there are none. |
| CompilerCorrect.CompiledRunsAlike | vm.c:987-1391 | For every program, start and fuel: when the run of the block tree ends, the machine halts with the same result, memory, parameters and first crash code; when the fuel runs out, the machine is still running after that many steps. |
| CompilerCorrect.HaltsAsMeant | vm.c:987-1391 | Conversely, whenever the machine halts, the run of the tree ends and the machine reports its result. |
| CompilerCorrect.DivergesAsMeant | vm.c:987-1391 | The machine runs forever if and only if the tree does. |
| CompilerCorrect.CompiledNeverGoesWrong | vm.c:987-1391 | No halting run of compiled code reports a stack underflow, a stale crash frame, a bad storage offset, a missing argument, a null call target or an invalid opcode, and none leaves its code or cuts into or misreads a return frame. |
| CompilerCorrect.LoweredAndCompiled | vm.c:872-901 | The whole pipeline: a program with defers is lowered, compiled and run, and whenever the machine stops it reports what the program means with its defers taken at their word, unless the run is torn; in a tidy program none is. |
| EndToEnd.Execute | vm.c:334-344 | The code in place, all of it: the defers are removed from the block arrays, what is left is compiled and run, and what the machine returns is what the program means with its defers taken at their word, unless the run is torn; VM_OK is returned if and only if the program ends normally. |
| CompilerCorrect.CompiledCodeDecodes | vm.c:66-127 | Decoding the bytes of a compiled function gives back exactly the instructions that were emitted for it. |
| Bytecode.DecodeEncode | vm.c:66-127 | The same for any sequence of instructions whose operands fit their fields, from any position. |
| Simulation.TreeRuns | vm.c:839-870 | The code of a block, laid anywhere in a function and started in a matching state, carries the machine to where the block ends: behind it, at the pads, or at the end of the scope that a break leaves, in the state that the block means. |
| Simulation.FuncRuns | vm.c:872-901 | A call of a compiled function runs its tree and returns to the caller, with its return frame gone and its inputs dropped. |
| Simulation.CallRuns | vm.c:346-364 | A compiled CALL does what a call means, with the callee's frame on the storage and its pads above the caller's. |
| Simulation.OpsRun | vm.c:558-573 | The code of a range of operations runs as the operations mean, and the type stack of the compiler tells how many parameters there are. |
| JumpTargets.FuncLeads | vm.c:770-774 | For every function that compiles: every jump, branch and crash target in its code is the start of an instruction or the end of the code, if and only if that holds of the narrowed targets of those loops that stand beyond 65535 bytes and jump back. |
| JumpTargets.ShortFuncLeads | vm.c:97-102 | So in code of at most 65535 bytes every target is the start of an instruction or the end of the code. |
| FarLoop.FarLoopGoesAstray | vm.c:770-774 | A function that compiles although its loop stands at byte 65540: the jump back leads to byte 4, into the middle of the first instruction. |
| VarLayout.FuncLaidOut | vm.c:637-673 | At every block of a compiled function each live variable lies inside the frame, and no two live variables overlap. |
| Compiler.CompileProgram | vm.c:334-344 | Which functions of a program compile, and the code of each: those and exactly the code that the generation function gives, callees first. |
| Compiler.CompileFunction | vm.c:872-901 | vm_compile_no_defers on the block array: None exactly when code generation on its tree fails, otherwise the bytes of that code. |
| Compiler.BlockCompiler.CompileBlock | vm.c:839-870 | Back-patching is correct: compiling a block leaves exactly its generated code behind, with the placeholders of the enclosing scopes recorded as its open exits, and all other compiler state as it was. |
| Compiler.BlockCompiler.CompileOp | vm.c:390-556 | One operation: it fails exactly when the types on the stack do not fit, otherwise its instruction is emitted and the type stack is the new one. |
| Compiler.BlockCompiler.EndsWithSig | vm.c:346-388 | The two loops over a signature accept exactly a stack that ends with its outputs and inputs. |
| Compiler.BlockCompiler.ScopeFinish | vm.c:300-314 | At the end of a scope all of its recorded exits, and no others, become jumps to that place. |
| Compiler.BlockCompiler.CloseHandler | vm.c:819-836 | The end of a crash pad: the jump behind the body is patched to the end of the handler, or the block fails when that is too far. |
| Patching.PatchAllFinishes | vm.c:300-314 | Writing a target over all recorded exits of a scope turns each of them into a jump to it and changes nothing else. |
| Vm.VM.Run | vm.c:987-1391 | The interpreter loop: what it returns is the result of the run of the machine; given up after some rounds, the machine has made at least that many steps. |
| Vm.VM.RunData | vm.c:1009-1278 | Every instruction that moves data, with its checks in order and its pops, has exactly its specified effect on storage, parameters, crash code and mode. |
| Arithmetic.CalcResult | vm.c:1094-1127 | An arithmetic operation on two numbers: a division by zero crashes with that code; otherwise, but for -2^63 / -1, the number in the destination is an int64 that agrees with l + r, l - r or l * r modulo 2^64, or is the quotient whose remainder is smaller than the divisor and has the sign of the dividend, or has in each of its 64 bits the and, or, or exclusive or of the two; nothing but the destination and the stack top changes. |
| Arithmetic.BitNotResult | vm.c:1129-1136 | Every bit of the number is turned over. |
| Elements.ArrPushResult | vm.c:1138-1158 | Pushing to an array of length n: it crashes if and only if the array is full; otherwise the length is n + 1, the pushed cells are loaded from element n, every element before is loaded as before, and nothing outside the array changes. |
| Elements.PushedIsFound | README.md:205-206 | What was pushed to an array of length n is loaded from the place that its element n is then asked for. |
| Elements.ArrAtResult | vm.c:1061-1082 | Asking an array of length n for element x: it crashes if and only if x is negative or its low 32 bits are n or more; otherwise it gives the address of the array plus the offset of element x, which lies in the array if and only if x is below 2^32. |
| Elements.FarIndexIsTaken | vm.c:1061-1082 | An array of one byte in 16 bytes of storage, asked for element 2^32: it goes on, with a place far behind the storage. |
| Elements.ArrDropResult | vm.c:1160-1175 | Dropping elements only shortens the length; it crashes if and only if the count is negative or its low 32 bits are more than the length. |
| Elements.SliceFromArResult | vm.c:1177-1196 | A slice made of an array of length n points to its element 0 and has length n, and only the 12 bytes of the slice change. |
| Elements.SliceFromOneResult | vm.c:1198-1211 | A slice made of one element points to it and has length 1. |
| Elements.SliceAtResult | vm.c:1213-1234 | Asking a slice of len elements for element x: it crashes if and only if x is negative or its low 32 bits are len or more, and otherwise gives the place x elements behind its first. |
| Elements.SliceOfArray | README.md:211-213 | Element x of a slice made of an array is element x of the array. |
| Elements.SliceMoveResult | vm.c:1236-1270 | Moving the front of a slice keeps its length, shortening it keeps its front; both crash if and only if the count is negative or its low 32 bits are more than the length. |
| Elements.SliceStored | vm.c:1177-1196 | A slice that is stored is the slice that is read back, from 12 bytes and no others. |
| Elements.AssignResult | vm.c:1084-1092 | A copy holds what its source held before, and nothing outside it changes. |
| Elements.FieldsKeepApart | ir.c:78-99 | What is stored in one field of a struct does not change another. |
| Elements.FreshIsZero | vm.c:933-951 | A variable that has just been put on the storage reads as zero, and what was there before reads as before. |
| Vm.VM.RunControl | vm.c:996-1391 | Every instruction that moves control has exactly its specified effect. |
| Vm.VM.Unwind | vm.c:973-985 | Unwinding pops pads until one can be taken, and reaches what the machine reaches. |
| CrashUnwinding.PadsAreAStack | vm.c:915-931 | A step leaves the crash stack alone, pushes one pad or pops the newest. |
| CrashReported.FuncCoded | README.md:255-259 | Over every run of every program: once noted the crash code stays; a run that goes on after noting one does so if and only if, somewhere in it, a pad that handled a crash broke outward. |
| CrashReported.BreakingPad | vm.c:795-821 | Such a pad loses the crash, whatever crashed: a body that crashes under a pad that just breaks out ends normally. |
| CrashReported.LoweredPadsClosed | ir.c:138-319 | Lowering a lowerable program never makes such a pad. |
| CrashReported.CrashIsReported | vm.c:1383-1389 | When the machine stops on compiled code it returns the first crash code, a result that stops it at once, or VM_OK; and VM_OK in spite of a noted crash if and only if a pad broke outward. |
| CrashReported.LoweredCrashIsReported | vm.c:1383-1389 | For programs with defers: once any step has noted a crash, the machine can only stop with the code of that crash or with a result that stops it at once; it returns VM_OK only if no step noted one. |
| CrashUnwinding.PadsBelowStay | vm.c:915-931 | Pads below a height that the stack never falls under stay as they are. |
| CrashUnwinding.PadResumes | vm.c:973-985 | A crash that takes a pad goes on exactly where its PUSH_CRASH stood: the named handler in the same activation, storage, parameters and return frames as high as then, older pads untouched, the first crash code in place. |
| Memory.NumRoundTrip | vm.c:1094-1136 | Every 64-bit number that is stored at an accessible place is loaded again from there. |
| Memory.LoadStored | vm.c:1084-1136 | Loading what was just stored gives the stored cells. |
| Memory.StoreKeepsShape | vm.c:1084-1136 | A store changes no length, no saved frame cell and nothing that natives observe. |
| FrontendRuns.EveryJumpLands | frontend.c:618-634 | Over every accepted source without the two spoiling words: its break blocks are, in order, those of its BREAK and CONTINUE words, each lands on the innermost loop around it, and it runs every cleanup it leaves exactly when the scopes open at the word say so. |
| FrontendJumps.JumpRejected | frontend.c:610-634 | BREAK and CONTINUE are rejected exactly when there is no loop, when they would leave a cleanup, or when the block array is full. |
| FrontendJumps.JumpLands | frontend.c:618-634 | Otherwise the level that the word computes from the depth counters lands on the loop, or on the sequence of its body. |
| FrontendAstray.JumpIsOff | frontend.c:618-634 | Where the depth may be wrong: the level of a BREAK or CONTINUE is off by exactly as much as the depth is, less what that of its loop was, and the break lands on its loop if and only if that difference is zero. |
| FrontendCovers.CoversAlike | frontend.c:618-634 | Counting on the open scopes tells exactly whether the break, on its way through the blocks, inlines all cleanups. |
| FrontendCovers.TwoIfsSkipCleanup | frontend.c:618-634 | In every sane state: CONTINUE under two IFs in an epilogue of the loop body skips the cleanup; under one IF it does not, and neither does BREAK under two. |
| FrontendSpoils.SpoilsExactly | frontend.c:636-664 | A word makes the depth counter wrong exactly when it is a parenthesis that closes a condition which declared a variable, or a prefix-DEFER cleanup that changed the depth. |
| FrontendAstray.BreakLeavesTooMuch | frontend.c:618-634 | The frontend accepts LOOP DEFER ( VAR x ) BREAK AGAIN; its break has level 7 where level 5 lands on the loop and only 6 scopes are around it. |
| FrontendTrees.SourceIsTree | frontend.c:413-439 | The blocks of an accepted source form a tree, and every emitted operation lies in exactly one range of one block; also when a prefix DEFER has spoiled the depth. |
| FrontendTwins.StepTwins | frontend.c:752-816 | The depth counters only tell the levels of breaks: in two states that differ in depths alone each word does the same, but for jumps that one of them refuses. |
| FrontendTrees.ConditionTree | frontend.c:646-654 | The one word that can break the tree, the parenthesis that closes a condition: the blocks are a tree behind it if and only if the arm of the IF is not a sequence by now, or the number of operations happens to be its first child. |
| FrontendAstray.ConditionMakesCycle | frontend.c:646-654 | The frontend accepts LOOP IF ( VAR x x ) BREAK DONE AGAIN; its blocks refer back to one another, so that they are no tree and stand for none. |
| BlockTree.StepsAreUnique | frontend.c:413-439 | In such blocks there is one way only from the root to a block. |
| BlockTree.NoCycle | frontend.c:413-439 | No way comes back to a block that it has left. |
| SourceTree.RepUnfold | frontend.c:413-439 | Such blocks stand for a finite tree. |
| SourceCover.ReachesOnWay | ir.c:255-308 | The condition for inlining all cleanups, read off the blocks on the way to a break, is that of the tree. |
| SourceLowers.SourceIsLowerable | frontend.c:1033-1065 | From text to lowering: what an accepted source builds stands for a tree that remove_defers accepts, and it is lowerable if and only if the verdict at each BREAK and CONTINUE was good and no variable is declared again that a pending cleanup uses. |
| FrontendMeaning.SourceMeans | frontend.c:456-634 | Every source built of operations, IF/ELSE, LOOP, START/FINALLY, BREAK and CONTINUE in loops is accepted, and its blocks stand for the tree that one reads off the source by recursion, with exact counts of blocks and operations. |
| Frontend.Builder.CompileSource | frontend.c:1033-1065 | The object that reads words and writes blocks in place accepts exactly the sources that the step function accepts, and builds the same blocks. |
| Frontend.Builder.RunToken | frontend.c:752-816 | One word, with the implicit ends before it. |
| FrontendVars.SourceDeclares | frontend.c:690-732 | Of every accepted source: its variables are those of its VAR words, with the type and name given there, in order and with no name twice; its operations are those of its words, in order; and the k-th of its VAR blocks declares variable k. |
| FrontendVars.PushedAsDeclared | frontend.c:690-732 | So in a function with these variables, pushing variable k pushes a place of the type that the k-th VAR word names. |
| Frontend.Builder.EmitLoopExit | frontend.c:618-634 | A jump is written or refused, and refused it changes nothing. |
| TypeScan.CheckersAgree | verification.c:273-386 | Two type checks written twice: an operation passes the check on symbolic places, and meets what the compiler asks in addition, if and only if the compiler (vm.c:390-556) emits it and it meets what that check asks in addition; then both agree on the types on the stack. What each asks in addition is spelled out. |
| TypeScan.RunsAgree | verification.c:423-517 | Over every run of operations that both accept, the type stack of the compiler is at each point that of the symbolic places. |
| PlacesHold.PlacesAreMeant | verification.c:423-517 | Over every range of operations, calls included, that runs to its end: the pointers on the stack are those of the symbolic places, with their types; a variable's, an argument's or a global's address, a field at its offset, an element at its own. |
| StackKept.CallKeepsBelow | README.md:305-314 | A call that ends leaves on the stack exactly what was below its inputs, outputs included. |
| StackKept.TreeKeepsBelow | README.md:251-259 | A block leaves the parameter stack as it found it, also when a break leaves it; a crash leaves all that was below. |
| TypeScanner.Check | verification.c:273-386 | The check of one operation accepts exactly what the rule for it allows. |
| TypeScanner.Scanner.ScanOps | verification.c:423-517 | A range is accepted exactly when every operation passes and no more is dropped than was pushed; the stack then holds the places that it should. |
| Places.PlacesDiffer | verification.c:98-113 | Different indices stand for different places. |
| Places.ParType | verification.c:126-154 | The type of a place, found by way of its parents. |
| Places.ParRoot | verification.c:167-177 | The loop up the parents ends at the variable, argument or global that the place is part of. |
| Places.PlaceStays | verification.c:98-113 | New entries do not change what old indices stand for. |
| InternTable.ParIdxTable.Probe | verification.c:53-64 | Linear probing stops at the slot that holds the key, or at the free slot where it belongs; it always stops. |
| InternTable.ParIdxTable.Get | verification.c:53-64 | A key is found exactly when it was put, with its value. |
| InternTable.ParIdxTable.Rehash | verification.c:28-51 | Copying into larger arrays keeps every entry and makes none. |
| InternTable.ParIdxTable.Grow | verification.c:28-51 | Growing doubles the capacity and keeps the map. |
| InternTable.ParIdxTable.Put | verification.c:66-80 | Putting updates the map at the key and nowhere else, growing when three quarters are used. |
| InternTable.CompileContext.InternPar | verification.c:98-113 | A place keeps its index for good, a new one gets the next index, and indices are given densely. |
| InternTable.InternIsInjective | verification.c:98-113 | Two places have the same index only if they are the same. |
| InternTable.MaskIs | verification.c:28-51 | For the capacities that occur, `h & (cap - 1)` is the remainder of h by cap. |
| HoldPool.Pool.AddHold | verification.c:393-421 | One edge is added unless it is there; every other list in the shared array keeps its contents, also when a list has to move. |
| HoldGraph.FirstPass.Record | verification.c:645-740 | What the first pass makes of an operation: rejected, passed, or exactly one edge more in the graph that the pool stands for. |
| PortalScan.BlockScan.Function | verification.c:594-610 | The whole first pass over a function, with its stack of places, its pool and the depths of variables changed in place: it accepts exactly what the pass on values accepts, and records the same holds. |
| PortalScan.BlockScan.Block | verification.c:533-592 | One block; the depths and the nesting level are put back behind it, whether it is accepted or not. |
| PortalRegions.RegionIsNesting | verification.c:637-643 | With the depths that the pass sets at nested VARs: the region check passes if and only if the portal is part of a local variable of a portal type, and the backing is part of no local variable or of one whose VAR encloses the portal's or is the same. |
| PortalRegions.InnerBackingIsRefused | verification.c:637-643 | An operation that would lead a portal to something declared inside the portal's VAR is refused. |
| PortalRegions.HoldsOutlive | verification.c:742-751 | Over the whole pass of every function: each recorded hold was made in a block under whose VARs the backing's variable encloses the portal's. |
| Lifetimes.BackingIsThere | README.md:324 | So whenever a run comes to that block, the portal's variable is on the storage and the variable that backs it lies wholly below, or is the same: what cuts the backing has cut the portal before. |
| PortalRegions.PushesAreNotChecked | verification.c:645-740 | Of the operations that write a portal, each that passes keeps to the nesting, but the push of a portal to an array of portals, which passes wherever its types fit. |
| PortalRegions.PushEscapes | verification.c:645-740 | The pass accepts a function that pushes a slice of an inner int to an outer array of slices. |
| HoldGraph.PoolIsChecked | verification.c:742-751 | The pool is the graph that the borrow check starts from. |
| HoldGraph.StaysAcyclic | verification.c:393-421 | An edge keeps the graph free of cycles if and only if what is held does not lead back to the holder. |
| HoldGraph.WholePass | verification.c:742-751 | Over every run of the first pass: the recorded graph is free of cycles if and only if no hold led back to its owner when it was recorded. |
| HoldGraph.SharedBorrowReturns | verification.c:778-811 | Where nothing is borrowed uniquely, a shared borrow returns if and only if the chains of holds and fields from the place are bounded. |
| HoldGraph.EveryBorrowReturns | verification.c:742-811 | After every run of the first pass: every place can be borrowed as shared if and only if no hold led back to its owner when it was recorded. |
| HoldGraph.SelfAssignment | verification.c:694-729 | A local slice that is assigned to itself: the first pass accepts it and records that it holds itself; a shared borrow of it then never returns, and a unique one is refused. |
| Borrow.WalksAreReached | README.md:316-326 | Whatever a chain of holds and fields leads to is visited when a place is borrowed. |
| Borrow.ReachedByWalk | README.md:316-326 | And nothing else is. |
| CallRules.AcceptedIsExclusive | README.md:305-314 | In an accepted call, what an output or a mutable input owns (itself, its parts, and what it holds not only as shared), no other argument leads to by any chain of holds and parts. |
| CallRules.CallRule | verification.c:813-836 | The exact rule: the borrows of a call are compatible if and only if each output and each mutable input meets nothing twice, and no other argument meets anything of it but what both share; inputs that are not mutable may overlap in any way. |
| CallRules.TwoOutputsAreRefused | verification.c:821-825 | One variable passed for both outputs of a call is refused. |
| CallRules.SharedInputsAreAccepted | README.md:305-314 | Inputs that are not mutable are accepted whatever they are and hold. |
| CallRules.ViewsShareTheirBacking | README.md:326 | An output that holds an input: accepted if and only if the hold is that of a view. |
| CallRules.FieldsKeepApart | README.md:316-322 | Two plain fields of one struct may be outputs of one call if and only if they are different fields. |
| CallRules.StructAndFieldAreRefused | README.md:316-322 | A struct and one of its fields may not. |
| CallRules.ElementsAreRefused | README.md:316-322 | Two elements of one array may not. |
| BorrowChecker.Borrower.BorrowPar | verification.c:778-811 | A borrow is refused exactly when its visits clash with earlier ones or among themselves, and otherwise leaves the marks of all of them. |
| BorrowChecker.Borrower.CheckSig | verification.c:813-836 | A call is accepted exactly when no mutable input has a portal type and all that its arguments borrow together is compatible. |
| BorrowChecker.MutableSliceIsRefused | verification.c:829-830 | One local slice, passed as the only and mutable input: nothing clashes, but the call is refused; as a shared input it is accepted. |
| TypeLayout.LayoutAll | ir.c:118-136 | Layout succeeds exactly when the builtin types are in place and the references among types are well founded, and then every type has the layout that follows from those it refers to. |
| TypeLayout.Layouter.One | ir.c:37-116 | The depth-first pass lays out a type after all it refers to, or finds a walk of references that comes back or leads to a missing type. |
| TypeLayout.StructFieldsAligned | ir.c:78-99 | Every field of a struct is aligned, also in memory aligned for the struct. |
| TypeLayout.StructFieldsApart | ir.c:78-99 | Fields do not overlap, and lie inside the struct. |
| TypeLayout.PayloadIsMultiple | ir.c:37-116 | The size of a laid-out type is a multiple of its alignment if and only if it is no slice or view. |
| TypeLayout.ArrayElements | ir.c:56-68 | Elements lie behind the length, apart and inside the array; they are all aligned if and only if the capacity is at most one or the element type is no slice or view. |
| TypeLayout.ArrayAligned | ir.c:56-68 | Memory that suits an array suits its length and its elements. |
| PortalTypes.PortalMeans | ir.c:56-107 | A laid-out type is marked as a portal if and only if references lead from it to a slice or a view; so a struct that holds a slice anywhere inside is one. |
| TypeLayout.ArrayOfSlicesIsMisaligned | ir.c:56-76 | In an array of two or more slices or views the second lies inside the array, 4 bytes off its alignment. |
| TypeLayout.LayOutSlices | ir.c:118-136 | The types int, byte, slice of int and array of two slices are laid out: 32 bytes for the array, its second slice at byte 20. |

## Findings

Where the code does not do what its documentation promises. Each has an input and an exact condition.

1. **A break can skip a cleanup.** `ir.c:263-286` looks at as many entries of the epilogue stack as the
   break has levels, but the stack has an entry for every block, and branches count as blocks there
   and not as scopes. Exact condition: `BreakCoverage.InlinedCleanups` (all cleanups are inlined if and
   only if `Reaches`), carried to the source by `SourceLowers.SourceIsLowerable` and
   `FrontendCovers.CoversAlike`. Inputs: `SkippedCleanup.SourceSkipsCleanup` (accepted words whose
   lowered run leaves the cleanup out) and `SkippedCleanup.BreakToDeferSkips`;
   `FrontendCovers.TwoIfsSkipCleanup` gives the family for CONTINUE. The repository's `README.md:239-247`
   promises the cleanup for every break.
2. **A cleanup can run twice.** A cleanup inlined at a break runs while the crash pad of its own defer is
   still installed, so if it soft-crashes there, the pad runs it again. Input:
   `CleanupTwice.RunsTwice`. Exact conditions: `TornRuns.CleansUpOnceExactly` and
   `CalmCleanups.MeaningKeptExactly` (if and only if the run is torn), and in terms of the operands,
   before the break: `CleanupGuards.PlainCleanup`, `CleanupGuards.CrashIsRefusal`,
   `CleanupGuards.DividingCleanup`.
3. **A variable declared in a condition makes the blocks a cycle, and a prefix DEFER spoils levels.**
   - The parenthesis that closes a condition writes into the first block of the arm as if it were basic
     (`frontend.c:648-653`). A variable declared in the condition has made it a sequence, whose first child
     is overwritten; the blocks then refer back to themselves, and the passes behind never end on them.
     Exact condition: `FrontendTrees.ConditionTree`; input: `FrontendAstray.ConditionMakesCycle`. In all
     other sources the blocks are a tree (`FrontendTrees.SourceIsTree`).
   - The parenthesis that closes the cleanup of a prefix DEFER does not set the depth back. Levels computed
     from it are off by exactly what the depth is off. Exact conditions: `FrontendSpoils.SpoilsExactly` (which
     words) and `FrontendAstray.JumpIsOff` (which breaks miss their loop); input:
     `FrontendAstray.BreakLeavesTooMuch`.
4. **A shared borrow can fail to return.** The first pass records a hold for every assignment between local
   portals, also one that closes a cycle, such as a slice assigned to itself. `borrow_par` then refuses a
   unique borrow but never comes back from a shared one. Input: `HoldGraph.SelfAssignment`. Exact
   conditions: `HoldGraph.EveryBorrowReturns` (all shared borrows return if and only if no hold led back to
   its owner) and, place by place, `HoldGraph.SharedBorrowReturns` (if and only if its chains are bounded).
5. **Arrays of slices are misaligned.** A slice takes 12 bytes and is aligned to 8, and array elements lie one
   payload apart. Exact condition: `TypeLayout.ArrayElements` (aligned if and only if there is at most one
   element or it is no slice or view); input: `TypeLayout.LayOutSlices`.
6. **The jump back of a loop is not range-checked.** Unlike the forward jumps, it is narrowed to 16 bits.
   Exact condition: `JumpTargets.FuncLeads`; input: `FarLoop.FarLoopGoesAstray`.
7. **Mutable slices are refused.** The repository's `README.md:326` says that a slice passed as a mutable input borrows its
   backing mutably; `verification.c:829-830` rejects every mutable input of a portal type. The model
   follows the code. Exact condition: `BorrowChecker.Borrower.CheckSig`; input:
   `BorrowChecker.MutableSliceIsRefused`.
8. **A pad that breaks outward loses its crash.** The repository's `README.md:255-259` says that the crash is
   re-raised behind the pad. A break out of the pad goes on without it. Exact condition:
   `CrashReported.FuncCoded` and, on the machine, `CrashReported.CrashIsReported`; input:
   `CrashReported.BreakingPad`. Lowering makes no such pads (`CrashReported.LoweredPadsClosed`).

9. **An index of 2^32 or more can pass for a small one.** It is narrowed to 32 bits before it is compared with
   the length, and used in full for the address (`vm.c:1076-1080`, and for slices `vm.c:1228-1232`), while the
   repository's `README.md:206` says that an index out of bounds crashes. Exact condition:
   `Elements.ArrAtResult` and `Elements.SliceAtResult`; input: `Elements.FarIndexIsTaken`.
10. **Pushing a portal to an array of portals is not held to the region rule.** The repository's `README.md:324` asks
   that every pointer written into a portal is live in the portal's scope; the first pass has no case for
   the push (`verification.c:645-740`). Exact condition: `PortalRegions.PushesAreNotChecked` (all other writes
   keep to the rule); input: `PortalRegions.PushEscapes`.

## Left out

- CompilerCorrect.CompiledRunsAlike: is stated for functions whose code is at most 65535 bytes long, so that every position can be written down as a target; `JumpTargets.FuncLeads` says what happens to loops beyond.
- CompilerCorrect.HaltsAsMeant: starts on an empty crash stack and with exactly the arguments of the function; `Simulation.FuncRuns` is stated for any pads, return frames and parameters below, such as those that the machine of immediate words keeps from one word to the next.
- CompilerCorrect.CompiledNeverGoesWrong: natives must not report the machine's own fault codes, and arguments must be pushed by indices that the function has; `VM_INVALID_ARG` is what happens otherwise.
- LoweringProof.FuncLowers: leaves out crash pads that stand in the source tree, which the frontend never builds; `DeferRemover.RemoveDefers` covers them.
- DeferRemover.RemoveDefers: takes for granted, as the code does, that the indices it meets are in the array, that a break asks for no more entries than the epilogue stack has, and that the result has at most 2^32 - 1 blocks.
- Compiler.CompileProgram: compiles callees before callers, in the order of their indices; functions that call later ones or each other in a circle are left out, and the cache of compiled code with them.
- Compiler.BlockCompiler.CompileBlock: one instruction is emitted at a time, not opcode and operands apart; `state_equal` compares the type ids of variables too, which never change.
- Vm.VM.Run: what a return frame holds is kept beside the storage, whose bytes only mark the place; code that would read or cut such bytes ends as `ASTRAY`.
- Vm.VM.RunData: an operand that is no data of the wanted kind, or a native that changes the shape of the memory, ends as `UNDEFINED`; pointers are places, so arithmetic that leaves one storage or global is undefined too.
- FrontendRuns.EveryJumpLands: leaves out sources with one of the two words of finding 3, after which the counters are wrong; `FrontendAstray.JumpIsOff` says what becomes of each jump behind a prefix DEFER.
- SourceLowers.SourceIsLowerable: the same.
- FrontendTrees.SourceIsTree: leaves out sources whose condition declares a variable, where it does not hold.
- EndToEnd.Execute: the block arrays stand for the trees of the program, as `Loadable` spells out; type tables and constants fit their fields.
- FrontendMeaning.SourceMeans: leaves out variables and prefix DEFER, which `SourceLowers.SourceIsLowerable` covers.
- Frontend.Builder.CompileSource: words arrive as tokens; reading them from text, numbers, type names, user-defined and immediate words are left out; `frontend_declare_var` does not check the number of blocks, which is taken to stay below 2^32.
- InternTable.CompileContext.InternPar: at most 2^32 - 1 places, as the assertion in the code demands.
- BorrowChecker.Borrower.CheckSig: needs a graph without cycles, see finding 4, and stops at the first clash instead of calling a reporter.
- HoldGraph.FirstPass.Record: reporters are absent; a rejected operation ends the pass.
- PortalScan.BlockScan.Block: walks the tree that the block array stands for.
- PortalRegions.HoldsOutlive: for functions that push no variable outside its VAR, as the IR demands and the compiler checks; the pass itself takes such a variable to be outermost.
- Lifetimes.BackingIsThere: follows the blocks of one activation; calls made there only add to the storage and take it away again.
- Elements.SliceStored: for pointers into the storage or a global; plain numbers as pointers are left out.
- PlacesHold.PlacesAreMeant: says nothing of where the elements of slices and views lie, which the pass does not know either.
- TypeLayout.LayoutAll: sizes are unbounded integers; a capacity whose size overflows 64 bits is left out.
- TypeScan.CheckersAgree: is about single operations and ranges; that the block walks of the two checkers accept the same trees is left out.
- PortalTypes.PortalMeans: ints, bytes and native functions are taken not to be marked before layout, which does not write their mark.
- Running out of memory, the reallocation of buffers and counts beyond 32 bits are left out throughout; sums and products that overflow wrap, and the one quotient that does, -2^63 / -1, ends as `UNDEFINED`.
- The read-eval-print loop, input and output, and error reports are left out.
