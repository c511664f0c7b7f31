# The Lua core, modelled and proved

Models of the hard parts of the Lua 5.1 core in `src/c/lua`, of `jlua.try`, and of the Java
objects of `src/java` that live on references, with proofs of what they promise. Code that
changes things in place is modelled by classes and loops, each tied to a function or a
relation on values; the properties are proved about those.

- **Expression compiler** (`lparser.c`, `lcode.c`, run by `lvm.c`). `LuaMachine` has the
  instructions and what it means to run a piece of code whose jumps may still be waiting.
  `CodeGen` is the code generator on values; `CodeGenExec`, `CodeGenProof`,
  `CodeGenClose`, `CodeGenOps`, `CodeGenNot`, `CodeGenJoin` and `CodeGenCorrect` lead to
  `ExpressionCorrect`: the code of an expression computes its value; `CodeGenLocals` goes on
  to lists of expressions and local statements. `JumpLists`, `StoredCode` and `FuncStates`
  refine this to the class whose jump lists are threaded through the operands of the jumps.
  `Grammar` has tokens, trees and priorities, `Precedence` says what the priorities mean, and
  `Parsing.Parser` reads tokens and generates code in one pass.
- **Incremental collector** (`lgc.c`, with `lstring.c` and `lfunc.c`). `GcHeap` has
  objects, references and marking, `GcLists` the chains, `GcInvariant` the invariant
  between any two steps and the safety theorem. `GcMarking`, `GcGrowth`, `GcAtomic`,
  `GcSweeping`, `GcRemovals`, `GcMutation`, `GcCreation`, `GcClosures` and `GcFacts` prove
  what each step of the collector and of the program keeps. `GcHeld` says what the program
  holds, `GcWeakTables` and `GcContents` what a collection leaves of the contents of objects,
  `GcProgress`, `GcGarbage`, `GcPruned` and `GcFinalizing` that it ends, what it keeps and
  frees and which finalizers it calls; `Collector.GlobalState` has the steps.
- **Tables** (`ltable.c`). `NodeChains` is the chained scatter table, `ArraySizing` and
  `TableCounts` the choice of sizes, `TableEntries`, `TableInvariant` and `TableResize` the
  whole table, `TableTraversal` iteration and borders, `Tables.Table` the operations.
- **Calls** (`ldo.c`, `lvm.c`). `Calls.LuaState` is the one stack of a thread with its
  frames; ghost activations say what each waiting function may rely on. `StackBlock` has the
  block of memory behind it, with the pointers that move along when it is resized.
- **Errors** (`ldo.c`, `jlua.c`). `TryBlocks` says what nested `jlua.try` blocks mean and
  what the code does; `ProtectedCalls.LuaThread` has protected calls and `tryBlock` on the
  stack, with errors that unwind from any depth.
- **Pattern matcher** (`lstrlib.c`). `Patterns` has the matching relation and the search
  on values, `PatternSyntax` what patterns mean by their syntax, `Matcher.MatchState` the
  matcher with its captures updated in place.
- **Precompiled chunks** (`ldump.c`, `lundump.c`, `lzio.c`). `Chunks` is the format,
  `ChunkRoundTrip` what comes back, `Dumping.DumpState`, `Undumping.Zio` and
  `Undumping.LoadState` write and read.
- **Sort** (`ltablib.c`): `Sorting`. **References** (`lauxlib.c`, `LuaObject.java`):
  `References`, on the real table. **`%q`** and string literals (`lstrlib.c`, `llex.c`):
  `Quoting` and `StringLiterals`.

## Model

| member | source | states |
|---|---|---|
| CodeGenCorrect.ExpressionCorrect | src/c/lua/lcode.c:414-419 | For every expression of constants, locals, upvalues, parentheses, `not`, `and`, `or` and comparisons: the code compiled and put into the next register runs to its end, leaves exactly the value of the expression there, and leaves every lower register alone. The invariant of the code holds again. |
| CodeGenCorrect.CompileGood | src/c/lua/lparser.c:839-848 | By induction over the expression: wherever the calls of infix, operand and posfix leave the value (constant, local, register, pending instruction, jump or pair of jump lists), running the code and leaving through any exit yields it. |
| CodeGenCorrect.CompileOk | src/c/lua/lparser.c:839-848 | Compiling an expression keeps the invariant of the code: each test is followed by a jump, jumps pending in jpc lead to the end, list entries are open jumps of the expression, earlier code is only patched. |
| CodeGenCorrect.JoinDelivers | src/c/lua/lcode.c:740-750 | The lists of both operands of and/or, joined, deliver the value of the operand that decides and otherwise that of the second. |
| CodeGenCorrect.CompGood | src/c/lua/lcode.c:673-686 | The jump left by a comparison is taken exactly when it holds, with the operands read as registers or constants and swapped for > and >=. |
| CodeGenNot.CodeNotGood | src/c/lua/lcode.c:586-618 | From a descriptor that delivers v, codenot makes one that delivers `not v`, its jump lists exchanged and no longer delivering values. |
| CodeGenNot.BareGood | src/c/lua/lcode.c:614-617 | Exchanging the two lists and turning their TESTSETs into TESTs negates what every exit delivers. |
| CodeGenOps.JumpOnCondGood | src/c/lua/lcode.c:524-536 | The conditional jump goes out through the list exactly when the value of the expression has the truth value tested for, and through it the value is delivered; a trailing NOT is dropped and the test inverted. |
| CodeGenOps.GoIfGood | src/c/lua/lcode.c:539-583 | After luaK_goiftrue and luaK_goiffalse control falls through exactly when the value is true, or false, and leaves through the other list with the value otherwise. |
| CodeGenOps.Exp2NextRegGood | src/c/lua/lcode.c:414-419 | Moving any delivered expression to the next register keeps its value. |
| CodeGenOps.Exp2RKGood | src/c/lua/lcode.c:444-469 | The operand made by luaK_exp2RK, a register or a constant index, stands for the value of the expression. |
| CodeGenClose.ClosedExec | src/c/lua/lcode.c:390-411 | Once both lists are closed with their load instructions, every exit ends at the end of the code with its value in the register, lower registers untouched, jumps pending in jpc counted as jumps to the end. |
| CodeGenClose.Exp2RegGood | src/c/lua/lcode.c:390-411 | luaK_exp2reg keeps the value of any delivered expression, whatever its kind and lists. |
| CodeGenClose.FromJump | src/c/lua/lcode.c:396-408 | An exit through a list entry reaches the value loaded, or the one its TESTSET moved. |
| CodeGenProof.Discharge2RegGood | src/c/lua/lcode.c:343-379 | discharge2reg puts the value of a descriptor without lists into the register asked for. |
| CodeGenProof.LoadNilGood | src/c/lua/lcode.c:35-56 | Widening the previous LOADNIL, allowed only when no jump arrives in between, still leaves nil in all registers and the earlier values elsewhere. |
| CodeGenJoin.JoinExec | src/c/lua/lcode.c:185-196 | The finished code of a binary operator runs like the first operand and, only if control falls through, like the second; patching between the two changes no exit. |
| CodeGenJoin.OldExec | src/c/lua/lcode.c:35-56 | The first operand still runs as it did although its last LOADNIL may have been widened and its lists patched later. |
| CodeGenExec.HoldExec | src/c/lua/lcode.c:163-166 | Code whose jumps pending in jpc are held back runs like the code with those jumps sent to the end. |
| CodeGenExec.WidenExec | src/c/lua/lcode.c:38-50 | Code whose last LOADNIL is widened goes the same way and differs only in the added registers, which hold nil at the end. |
| CodeGenExec.CondJumpExec | src/c/lua/lcode.c:74-77 | A test and its jump appended to code: falling through means the condition failed, leaving through the new jump means it held. |
| CodeGenExec.AimExec | src/c/lua/lcode.c:150-160 | Giving listed open jumps a destination makes exactly the runs that stopped at one of them go on from there. |
| LuaMachine.SimExec | src/c/lua/lvm.c:541-585 | Code in which open jumps got destinations, or TESTSETs without register became TESTs or got one, runs like the code before and goes on from where that stopped. |
| JumpLists.ChainUnique | src/c/lua/lcode.c:100-106 | The list threaded through the sBx fields from a head is determined by the code. |
| JumpLists.ChainDistinct | src/c/lua/lcode.c:100-106 | No jump is twice in a threaded list, so every walk along one ends. |
| JumpLists.ChainAppend | src/c/lua/lcode.c:185-196 | Redirecting the last jump of one list to the head of a disjoint one threads exactly the concatenation. |
| JumpLists.PatchStep | src/c/lua/lcode.c:150-160 | One turn of the patching loop sends one more listed jump to vtarget or dtarget as its control says, and changes no other instruction. |
| StoredCode.ResolvedExec | src/c/lua/lcode.c:80-87 | The stored code, with its relative jumps and its pending list, runs like the abstract code it represents. |
| FuncStates.FuncState.Concat | src/c/lua/lcode.c:185-196 | In place, luaK_concat threads the concatenation of two disjoint lists and changes nothing when one is empty. |
| FuncStates.FuncState.PatchListAux | src/c/lua/lcode.c:150-160 | Every listed jump goes to vtarget if a patchable TESTSET controls it and to dtarget otherwise; the TESTSET gets its register or becomes a TEST; all other instructions stay. |
| FuncStates.FuncState.EmitInstr | src/c/lua/lcode.c:789-801 | Emitting first sends the jumps pending in jpc to the new instruction; lists of open jumps survive. |
| FuncStates.FuncState.JumpAhead | src/c/lua/lcode.c:59-66 | A new jump takes over the pending jumps: the list returned is the jump followed by those held in jpc. |
| FuncStates.FuncState.PatchListHere | src/c/lua/lcode.c:179-182 | The list becomes pending at the current place, joined to jpc. |
| FuncStates.FuncState.LoadNils | src/c/lua/lcode.c:35-56 | LOADNIL is merged into the previous instruction in just the cases the abstract generator merges it. |
| FuncStates.FuncState.ExpToReg | src/c/lua/lcode.c:390-411 | The in-place exp2reg leaves the abstract code and descriptor, and keeps every list that was open before. |
| FuncStates.FuncState.ExpToRK | src/c/lua/lcode.c:444-469 | The in-place exp2RK yields the abstract operand. |
| FuncStates.FuncState.GoIfTrue | src/c/lua/lcode.c:539-560 | In place, with threaded lists, luaK_goiftrue refines the abstract operation. |
| FuncStates.FuncState.GoIfFalse | src/c/lua/lcode.c:563-583 | In place, with threaded lists, luaK_goiffalse refines the abstract operation. |
| FuncStates.FuncState.NegateExp | src/c/lua/lcode.c:586-618 | In place, codenot refines the abstract operation. |
| FuncStates.FuncState.Compare | src/c/lua/lcode.c:673-686 | In place, codecomp refines the abstract operation, operands freed in order. |
| FuncStates.FuncState.DoPosfix | src/c/lua/lcode.c:737-781 | In place, luaK_posfix for and, or and comparisons refines the abstract operation. |
| FuncStates.FuncState.CompileToNextReg | src/c/lua/lcode.c:414-419 | End to end on the mutable state: the code array as stored runs to its end for all registers and constants, with the value of the expression in the new register, lower registers and earlier lists intact. Code compiled before is only patched, and constants are only added, so it goes on meaning what it meant. |
| GcInvariant.ReachableLive | src/c/lua/lgc.c:501-512 | No object on any path from the roots, strong or through weak tables, is dead: the sweep frees nothing the program can get at. |
| GcInvariant.NoBlackToWhite | src/c/lua/lgc.c:661-671 | During the marking no black object refers to a white one, but for userdata an earlier cycle has left waiting for their finalizers. |
| GcInvariant.LeftOverBlack | src/c/lua/lgc.c:115-124 | The exception is needed: in this state, which satisfies the invariant in GCSfinalize and, once markroot has emptied the lists, in GCSpropagate, such a userdata is black, a key of the registry, and its metatable white. |
| GcInvariant.GrayOnOneList | src/c/lua/lgc.c:277-320 | During the marking every gray object to be traversed is on exactly one of gray, grayagain and weak, once. |
| GcInvariant.WroteCovered | src/c/lua/lgc.c:674-682 | A write covered by its barrier leaves every marked object traversed, waiting, or without unmarked references. |
| GcMarking.PropagatedCovered | src/c/lua/lgc.c:277-320 | Traversing one gray object leaves it covered, or, if weak, covered in its strong parts. |
| GcMarking.PropagatedListed | src/c/lua/lgc.c:277-320 | After the traversal of one object the gray lists again hold exactly the gray objects. |
| GcGrowth.AdvanceCovered | src/c/lua/lgc.c:69-112 | Marking only what is needed extends the covered set. |
| GcAtomic.HeldMarked | src/c/lua/lgc.c:525-553 | At the end of the atomic step all that a root holds strongly is marked; before that, all that it holds but through objects still to be traversed. |
| GcAtomic.Flipped | src/c/lua/lgc.c:544-552 | After a complete marking and the flip of the white, live objects refer to live objects only. |
| GcFacts.AtomicOk | src/c/lua/lgc.c:525-553 | The state after the atomic step satisfies the whole invariant, at the start of the sweep. |
| GcFacts.ClosedReads | src/c/lua/lfunc.c:96-112 | Closing the upvalues of a thread changes what is read through no upvalue of any thread. |
| GcFacts.UpvalsKept | src/c/lua/lgc.c:515-522 | Marking changes no open upvalue, and one without unmarked references stays so. |
| GcFacts.FinalizersAll | src/c/lua/lstate.c:193-209 | The finalizers run by a drained list are exactly those of its userdata that have one, each once. |
| GcCreation.UpvalMarking | src/c/lua/lfunc.c:53-79 | A new open upvalue, put at its place in the list, keeps the marking invariant. |
| GcCreation.UpvalLive | src/c/lua/lfunc.c:53-79 | A new open upvalue refers to nothing the thread did not hold. |
| GcCreation.AddedPhase | src/c/lua/lgc.c:685-691 | A new object, white of the current kind, keeps the invariant of every phase. |
| GcCreation.ReviveLive | src/c/lua/lstring.c:82-88 | A dead string found by the intern table can be brought back. |
| GcMutation.AddedMarking | src/c/lua/lgc.c:685-691 | A new object keeps the marking invariant. |
| GcMutation.BackMarking | src/c/lua/lgc.c:674-682 | Putting a black table back on grayagain restores the marking invariant. |
| GcMutation.ForwardCovered | src/c/lua/lgc.c:661-671 | Marking the stored value restores the covering of a black object. |
| Collector.GlobalState.SingleStep | src/c/lua/lgc.c:556-607 | One step of the collector keeps the invariant and frees no object reachable before it. It goes on in its phase with less left to do, or to the next phase; a marking step changes no contents, the atomic step leaves live what is held, and all contents but for what weak tables lose, a sweep step frees only dead objects, revives none and changes nothing of the others, and a finalizer step changes no contents but the stack. |
| Collector.GlobalState.Atomic | src/c/lua/lgc.c:525-553 | The atomic step ends the marking: what the program holds strongly is marked, weak tables lose only what it does not hold, userdata are set apart newest first, the white is flipped. |
| Collector.GlobalState.PropagateMark | src/c/lua/lgc.c:277-320 | Traversing the first gray object keeps the lists, and covers the object or puts it on weak or grayagain. |
| Collector.GlobalState.TraverseTable | src/c/lua/lgc.c:158-196 | All strong parts of a table are marked; its weakness is read from the metatable; emptied entries are removed. |
| Collector.GlobalState.ReallyMark | src/c/lua/lgc.c:69-112 | Marking a white object marks it and, through the kinds that are not queued, what hangs on it; what is newly marked is black or gray with no unmarked reference, or gray and once on the gray list. |
| Collector.GlobalState.RemarkUpvals | src/c/lua/lgc.c:515-522 | Afterwards no marked open upvalue refers to an unmarked object, whichever thread it belongs to; marking goes on without losing anything. |
| Collector.GlobalState.ClearTables | src/c/lua/lgc.c:351-375 | Weak tables lose exactly the entries of which the key is about to be collected or the value is that or a userdata marked finalized, and the slots of the array with such a value if values are weak; nothing else changes but marks of strings. |
| Collector.GlobalState.SeparateUdata | src/c/lua/lgc.c:128-155 | The userdata to be finalized move to tmudata, behind those there, newest first; all others stay. Exactly the white ones, or all, are marked finalized, with or without a finalizer. |
| Collector.GlobalState.GCTM | src/c/lua/lgc.c:445-471 | The first userdata waiting goes back to the front of its chain, white; if it has a finalizer it is pushed on the running thread's stack and counted as called, for the first time; nothing else changes. |
| Collector.GlobalState.FinalizeAll | src/c/lua/lstate.c:197-206 | When a state is closed, every userdata not yet finalized that has a finalizer is finalized once, those already waiting first and in their order, the others in the reverse order of their creation, and the drain loop ends although finalizers raise errors. |
| Collector.GlobalState.MarkRoot | src/c/lua/lgc.c:501-512 | A cycle starts from empty gray lists with the main thread, its globals, the registry and the basic metatables marked. |
| Collector.GlobalState.SweepString1 | src/c/lua/lgc.c:407-428 | One string of a bucket is unlinked and freed if dead and whitened otherwise; the part of the bucket behind is white, and all other objects hold what they held. |
| Collector.GlobalState.SweepOne | src/c/lua/lgc.c:407-428 | One object of the chain is unlinked and freed if dead and whitened otherwise, with the open upvalues of a thread: only dead objects are freed, none is revived, all others hold what they held, and less is left to sweep. |
| Collector.GlobalState.SweepList | src/c/lua/lgc.c:407-428 | Up to a given number of objects of the chain are swept: only dead ones are freed, none is revived, all others hold what they held. |
| Collector.GlobalState.CloseUpvals | src/c/lua/lfunc.c:96-112 | Exactly the upvalues of the thread at or above the level are closed, each with the value of its slot; dead ones are freed; every upvalue left reads the value it read before. |
| Collector.GlobalState.FindUpval | src/c/lua/lfunc.c:53-79 | The upvalue of a slot is found, brought back if dead, or made: one per slot; every object holds what it held. |
| Collector.GlobalState.Intern | src/c/lua/lstring.c:75-93 | Interning yields the one string of that content, brings it back if dead, or makes it; every object holds what it held. |
| Collector.GlobalState.ResizeStrings | src/c/lua/lstring.c:22-47 | Relinking the string table keeps every string, each in the bucket of its hash. |
| Collector.GlobalState.Barrier | src/c/lua/lgc.c:661-671 | The forward barrier restores the invariant after a white object was stored in a black one. |
| GcMutation.BlackWaits | src/c/lua/lgc.c:661-682 | Outside the marking and the sweep every black object is a userdata that waits for its finalizer, and the state is GCSfinalize. |
| GcMutation.BackAsserts | src/c/lua/lgc.c:678 | The assertion of luaC_barrierback, that a black table is met neither in GCSfinalize nor in GCSpause, never fails. |
| GcMutation.ForwardAsserts | src/c/lua/lgc.c:664 | The same assertion of luaC_barrierf fails in exactly those calls that are made in GCSfinalize for a userdata waiting in tmudata. |
| GcMutation.ForwardFails | src/c/lua/lgc.c:664 | A state in which it does fail: a waiting userdata, reachable from the registry, gets a live white table as its environment, and the invariant holds before and after. |
| Collector.GlobalState.BarrierBack | src/c/lua/lgc.c:674-682 | The backward barrier restores the invariant after a store into a black table. |
| Collector.GlobalState.StoreTable | src/c/lua/lvm.c:134-148 | A store into a table with its barrier keeps the invariant in every phase. |
| Collector.GlobalState.StoreObject | src/c/lua/lapi.c:716-721 | A store into a closure, userdata, prototype or upvalue with its barrier keeps the invariant. |
| Collector.GlobalState.SetStack | src/c/lua/lapi.c:164-177 | Writing any live values to a stack needs no barrier: the whole invariant holds. |
| Collector.GlobalState.NewObject | src/c/lua/lgc.c:685-691 | A new object joins the chain white, referring only to live objects, and the invariant holds. |
| Collector.GlobalState.NewUdata | src/c/lua/lstring.c:96-110 | A new userdata is white and chained behind the main thread, so that userdata stay listed newest first. |
| Collector.GlobalState.RestartSweep | src/c/lua/lgc.c:635-646 | A full collection may drop a marking at any point and start a sweep. |
| GcInvariant.NoneDead | src/c/lua/lgc.c:580-600 | Outside the sweep no object is dead: when the sweep is over, all garbage of the cycle has been freed. |
| Collector.GlobalState.SetUpvalue | src/c/lua/lvm.c:455-460 | After an assignment to an upvalue it reads the value assigned. An assignment to an upvalue, open or closed, with its barrier keeps the invariant. |
| NodeChains.ChainEnds | src/c/lua/ltable.c:8-19 | The next links form no cycle: each walk ends. |
| NodeChains.OnePredecessor | src/c/lua/ltable.c:8-19 | No node is next of two others. |
| NodeChains.KeysReached | src/c/lua/ltable.c:469-491 | Every key stored is met on the walk from its main position. |
| NodeChains.AtMainChains | src/c/lua/ltable.c:425-428 | Entering a key in its free main position keeps the chains. |
| NodeChains.AfterMainChains | src/c/lua/ltable.c:418-423 | Entering a key in a free node after its occupied main position keeps the chains. |
| NodeChains.DisplacedChains | src/c/lua/ltable.c:410-417 | Moving a node out of another key's main position (Brent's variation) keeps the chains: who is not at home collides with one that is. |
| ArraySizing.ComputeSizes | src/c/lua/ltable.c:189-208 | Despite its early exits the loop finds the largest power of two n such that more than n/2 of 1..n are keys, or 0, and the number of keys in 1..n. |
| ArraySizing.CountOne | src/c/lua/ltable.c:211-219 | Counting one more integer key keeps the counts per slice. |
| TableCounts.NumUseArray | src/c/lua/ltable.c:222-244 | The loop over the array part counts its keys per slice (2^(i-1), 2^i]. |
| TableCounts.SplitKeys | src/c/lua/ltable.c:333-349 | What goes to the array part and what does not make up all keys. |
| TableResize.MoveFits | src/c/lua/ltable.c:297-324 | While a resize moves entries there is always a free node for the next. |
| TableInvariant.RoomLeft | src/c/lua/ltable.c:382-388 | With fewer keys than nodes some node is free. |
| TableTraversal.TraversalVisits | src/c/lua/ltable.c:162-179 | A traversal that has passed entry e has visited it, if it had a value when its turn came. |
| TableTraversal.TraversalEnds | src/c/lua/ltable.c:162-179 | A traversal visits no entry twice and takes at most one step more than there are entries. |
| TableTraversal.IndexKept | src/c/lua/ltable.c:137-159 | The position of a key outlives its value and its death. |
| TableTraversal.AllVisited | src/c/lua/ltable.c:162-179 | When next finds no more, every key that kept a value has come. |
| TableTraversal.FewIntegers | src/c/lua/ltable.c:532-553 | A table has too few entries to hold 1..2^27+1, so the linear search ends. |
| Tables.NoneStranded | src/c/lua/ltable.c:297-324 | When a resize fails with "table overflow" no key of the hash part belongs to the array part that has already grown. |
| Tables.StillSound | src/c/lua/ltable.c:272-294 | So after the error the table is sound and holds the same. |
| Tables.EnoughRoom | src/c/lua/ltable.c:272-294 | A table of fewer than 2^26 keys never overflows. |
| Tables.NewSizes | src/c/lua/ltable.c:333-349 | The sizes a rehash computes leave a free node or an array slot for the new key. |
| Tables.Table.Get | src/c/lua/ltable.c:469-491 | Looking up a key gives the value it was last given, and nil otherwise. |
| Tables.Table.NewKey | src/c/lua/ltable.c:399-429 | Entering a key changes no value; it makes the table grow only when no node is free, and one rehash is always enough. |
| Tables.Table.Put | src/c/lua/ltable.c:494-505 | Assigning updates exactly one key, or fails with its error (index nil, index NaN, overflow) and changes no value; assigning to a key with a slot keeps the shape. |
| Tables.Table.Rehash | src/c/lua/ltable.c:333-349 | A rehash keeps every value and makes room for the new key, or reports overflow exactly when the keys do not fit and still keeps every value. |
| Tables.Table.Resize | src/c/lua/ltable.c:297-324 | Resizing both parts keeps every value; no re-insertion can fail. |
| Tables.Table.GetFreePos | src/c/lua/ltable.c:382-388 | The free pointer only goes down past used nodes; none is left when it reaches the bottom. |
| Tables.Table.NumUseHash | src/c/lua/ltable.c:247-260 | The loop over the nodes adds their keys to the counts. |
| Tables.Table.FindIndex | src/c/lua/ltable.c:137-159 | The position of a key, also a dead one, inverts the numbering of entries; it fails exactly for keys the table has no slot for. |
| Tables.Table.Next | src/c/lua/ltable.c:162-179 | The entry returned is the first with a value after that of the key. |
| Tables.Table.Traverse | src/c/lua/ltable.c:162-179 | A loop with next, during which fields that have a value are assigned other values or nil and the collector kills keys, never fails and yields no key twice, each with the value it has at that time, and by its end every key that still has a value. |
| Tables.Table.RemoveEntries | src/c/lua/lgc.c:62-66 | Exactly the nodes without a value whose key is an object become dead, no other node changes, and no value and no position does. |
| Tables.Table.GetN | src/c/lua/ltable.c:560-576 | The length is a border: its value is not nil, or it is 0, and that of the next integer is nil. |
| Tables.Table.UnboundSearch | src/c/lua/ltable.c:532-553 | Doubling and then halving finds a border, also past the largest integer. |
| References.BorderIsLast | src/c/lua/lauxlib.c:495-498 | With no free reference the border of the table is the last reference handed out. |
| References.BorderAtHole | src/c/lua/lauxlib.c:495-498 | With free references it need not be: the last of them is a hole. |
| References.Reused | src/c/lua/lauxlib.c:491-494 | Taking the head off the threaded free list leaves the rest threaded, and 1..n split into references in use and free ones. |
| References.Released | src/c/lua/lauxlib.c:504-512 | Releasing a reference puts it at the head of the free list. |
| References.Registry.Ref | src/c/lua/lauxlib.c:481-501 | A new reference is never one in use, all others keep their values, and the free list is used before a new index; nil has its own reference; it fails only in a table of at least 2^26 entries. |
| References.Registry.Unref | src/c/lua/lauxlib.c:504-512 | Releasing a reference in use frees exactly that one; negative references are ignored. |
| References.LuaObject.RegisterValue | src/java/org/jlua/LuaObject.java:171-177 | A Java object gets a reference no other holds. |
| References.LuaObject.Push | src/java/org/jlua/LuaObject.java:193-195 | Pushing the object gives the value it was made with. |
| References.LuaObject.Finalize | src/java/org/jlua/LuaObject.java:179-188 | Finalizing releases its own reference and no other. |
| Patterns.Sound | src/c/lua/lstrlib.c:365-440 | What the matcher finds is a match: an end and captures the pattern relation allows. |
| Patterns.Complete | src/c/lua/lstrlib.c:365-440 | Whatever the pattern matches, the matcher does not fail. |
| Patterns.FailsNone | src/c/lua/lstrlib.c:365-440 | Failing means that no match exists. |
| Patterns.PrefersLongest | src/c/lua/lstrlib.c:301-313 | `*` and `+` take the longest repetition with which the rest matches. |
| Patterns.PrefersShortest | src/c/lua/lstrlib.c:316-326 | `-` takes the shortest repetition with which the rest matches. |
| Patterns.PrefersOne | src/c/lua/lstrlib.c:418-423 | `?` takes the item if the rest then matches. |
| Patterns.NoError | src/c/lua/lstrlib.c:365-440 | A well-formed pattern raises no error on any subject. |
| Patterns.MatchBalanced | src/c/lua/lstrlib.c:281-298 | %b finds the end of a balanced string exactly when there is one. |
| Matcher.MatchState.Match | src/c/lua/lstrlib.c:365-440 | The matcher with its capture array in place computes the specified outcome, ends since the pattern left shrinks, and restores the captures after a failure. |
| Matcher.MatchState.Find | src/c/lua/lstrlib.c:512-533 | The search returns the first place where the pattern matches, with end and captures, and fails only if there is none. |
| Matcher.MatchState.MaxExpandAt | src/c/lua/lstrlib.c:301-313 | The loop that gives back one repetition at a time refines the specification. |
| Matcher.MatchState.MinExpandAt | src/c/lua/lstrlib.c:316-326 | The loop that takes one repetition more at a time refines the specification. |
| Matcher.MatchState.StartCapture | src/c/lua/lstrlib.c:329-340 | A capture is opened; it is undone when the rest fails. |
| Matcher.MatchState.EndCapture | src/c/lua/lstrlib.c:343-351 | The innermost open capture is closed; it is open again when the rest fails. |
| Matcher.MatchState.MatchCapture | src/c/lua/lstrlib.c:354-362 | A back reference matches exactly the text captured. |
| Matcher.MatchState.MatchBracketClass | src/c/lua/lstrlib.c:245-265 | A set matches the characters, ranges and classes in it, or the others if complemented. |
| Sorting.AuxSort | src/c/lua/ltablib.c:193-254 | With a strict weak order the range ends sorted, rearranged only within itself, without the error "invalid order function", with at most floor(log2 n) + 1 nested activations. |
| Sorting.Sort | src/c/lua/ltablib.c:256-264 | table.sort sorts positions 1..n; below 2^40 elements at most 40 activations nest. |
| Sorting.Partition | src/c/lua/ltablib.c:218-243 | The median of three ends at a place with nothing greater before and nothing less after it. |
| Sorting.ScanUp | src/c/lua/ltablib.c:225-229 | The scan stops at the first element not less than the pivot, or reports an error only past the range. |
| Sorting.ScanDown | src/c/lua/ltablib.c:230-234 | The scan stops at the first element not greater than the pivot, or reports an error only past the range. |
| Sorting.LeftDone | src/c/lua/ltablib.c:244-252 | Sorting the left part of a divided range leaves only the right part unsorted. |
| Sorting.RightDone | src/c/lua/ltablib.c:244-252 | Sorting the right part of a divided range leaves only the left part unsorted. |
| Sorting.Log2Halves | src/c/lua/ltablib.c:245-252 | Recursing on the smaller part costs one level of the logarithm. |
| Quoting.RoundTrip | src/c/lua/llex.c:278-331 | Lexing the output of %q gives back any byte string, whatever follows, and fails exactly when the chunk then has too many lines. |
| Quoting.ReadOne | src/c/lua/lstrlib.c:700-719 | Each quoted byte reads back as itself, also a zero followed by digits and a newline followed by a quoted carriage return. |
| Quoting.Buffer.AddQuoted | src/c/lua/lstrlib.c:696-723 | The loop appends the quoted form of the string. |
| Quoting.LexState.ReadString | src/c/lua/llex.c:278-331 | The lexer computes the meaning of a string literal: its value, the input left and the line number, or the error. |
| Quoting.LexState.ReadDecimal | src/c/lua/llex.c:307-315 | An escape takes one to three decimal digits, and no more, as its code. |
| Quoting.LexState.IncLineNumber | src/c/lua/llex.c:129-137 | \r\n and \n\r are one line break; the line limit raises an error. |
| Quoting.WriteAndRead | src/c/lua/lstrlib.c:696-723 | Writing with %q and lexing yields the string and leaves the rest of the input. |
| Calls.LuaState.Precall | src/c/lua/ldo.c:265-329 | A call enters the frame of the function, or of the __call function of an object with the object as first argument: registers are the arguments cut or padded, the rest nil, slots below the function untouched, the registers of the caller below it kept; or it runs a C function to the end. |
| Calls.LuaState.PrecallLua | src/c/lua/ldo.c:274-309 | The frame of a Lua function is entered exactly when it fits below stack_last. |
| Calls.LuaState.AdjustVarargs | src/c/lua/ldo.c:208-241 | The fixed parameters move above the extra arguments, which stay in order below the new base; the arg table holds them too where needed. |
| Calls.LuaState.TryFuncTM | src/c/lua/ldo.c:244-256 | An object that is no function gives way to its __call function and becomes the first argument. |
| Calls.LuaState.CallC | src/c/lua/ldo.c:310-328 | The results of a C function land where the function was, cut or padded to the number wanted. |
| Calls.LuaState.PosCall | src/c/lua/ldo.c:343-361 | The results land at the slot of the function, cut or padded with nil to the number wanted, all of them for LUA_MULTRET; the caller's registers, base and saved pc are back. |
| Calls.LuaState.Return | src/c/lua/lvm.c:639-653 | A return hands over its results and restores the caller; the top is that of its frame when a fixed number was wanted. |
| Calls.LuaState.TailCall | src/c/lua/lvm.c:607-638 | A Lua function called in tail position takes the frame of its caller: the depth and everything below stay, its registers are as after a call, and the next instruction is its first; a C function leaves the caller where it was. |
| Calls.LuaState.VarArg | src/c/lua/lvm.c:743-763 | OP_VARARG yields exactly the arguments past the fixed parameters, in order, padded with nil or all of them. |
| Calls.RunKeeps | src/c/lua/ldo.c:343-361 | Whatever is called, tail called or returned from above them, waiting activations keep function, extra arguments and registers. |
| Calls.TailCallsStay | src/c/lua/lvm.c:607-638 | Any number of tail calls adds no activation. |
| Calls.SureToFit | src/c/lua/ldo.c:277-309 | The room asked for leaves out the nils for missing arguments: the frame of a vararg function is sure to fit exactly when at most one is missing. |
| Calls.TwoMissing | src/c/lua/ldo.c:277-309 | A valid thread in which a call with two arguments missing does not fit. |
| Calls.SureInBlock | src/c/lua/ldo.c:277-309 | The frame is sure to end within the block allocated, whose last slots lie past stack_last, exactly when at most seven arguments are missing. |
| StackBlock.LuaThread.CorrectStack | src/c/lua/ldo.c:126-138 | When the stack has moved, the loops over the open upvalues and the frames leave every pointer at the same slot of the new block, and the upvalues linked in descending order. |
| StackBlock.LuaThread.ReallocStack | src/c/lua/ldo.c:141-150 | Wherever the allocator puts the block, all pointers stay at their slots, the slots that both sizes have and all other memory keep their values, and so what is read through each upvalue, open or closed, stays the same. |
| StackBlock.LuaThread.GrowStack | src/c/lua/ldo.c:162-167 | The stack gets twice its size, or more if that is not enough, and every upvalue reads the same. |
| StackBlock.LuaThread.CheckStack | src/c/lua/ldo.h:16-20 | There is room for n values above top. The slots up to stack_last and the position of top change exactly as the sequences of `Calls` do in luaD_checkstack, wherever the block is, and every upvalue reads the same. |
| StackBlock.LuaThread.CheckKeeping | src/c/lua/ldo.c:270-278 | A pointer that is saved as a distance while the stack may move is restored to one that reads the same. |
| StackBlock.LuaThread.CheckStackSizes | src/c/lua/lgc.c:241-253 | A stack of which less than a quarter is in use is halved, and all pointers stay within the part in use and all upvalues read the same. |
| StackBlock.SlotAt | src/c/lua/ldo.c:130-131 | A pointer that has moved along with its block reads what it read before. |
| StackBlock.GrownSlots | src/c/lua/ldo.c:141-150 | A block that has been resized begins with the values it held. |
| Grammar.ParsedWell | src/c/lua/lparser.c:828-853 | What subexpr returns is a tree of exactly the tokens it read, which respects the priority table and the unary priority, stops no sooner than it must, and takes at most 200 levels. |
| Grammar.ReadsBack | src/c/lua/lparser.c:828-853 | Every tree that respects the priorities is read back from its tokens, up to where an operator no longer binds, or fails for too many levels exactly if it has them. |
| Grammar.Unambiguous | src/c/lua/lparser.c:805-822 | Tokens have at most one tree that respects the priorities. |
| Parsing.Parser.SubExpr | src/c/lua/lparser.c:828-853 | Reading tokens and generating code in one pass, the parser consumes what the grammar says, complains as it says, and has then generated the code of the tree read. |
| Parsing.Parser.ExprToNextReg | src/c/lua/lparser.c:856-858 | From tokens to running code: the code stored while an expression was read leaves in the next register the value of the tree that the priorities give the tokens, and the code and constants before it still mean what they meant. |
| Collector.GlobalState.FullGc | src/c/lua/lgc.c:635-656 | A full collection, begun in any state, ends, in a pause and with no finalizer outstanding. It keeps every object that the program held when it began, and leaves none but those that were wanted then, also across the sweep it first has to finish, with their contents as after a whole collection. |
| Collector.GlobalState.Collect | src/c/lua/lgc.c:650-654 | One whole collection ends. It keeps every object that the program held when it began by references that are not weak, and nothing is left but what references that a marking follows, and those to strings, led to from a root, from a userdata whose finalizer was due, or from what is never freed: all other garbage is freed, also what only weak references led to. The finalizers that were due of all userdata to which nothing led have been called, unless a weak metatable lost one, and none of a userdata that the program held, but perhaps through others that waited. All objects left hold what they held, but for the entries that weak tables lose; the stack of the running thread has got what finalizers pushed. |
| Collector.GlobalState.MakeClosure | src/c/lua/lvm.c:723-741 | A new closure holds its environment and prototype and, for each capture, the upvalue of the enclosing closure or the open upvalue of the register; nothing else changes what it holds. |
| GcClosures.SharedUpval | src/c/lua/lvm.c:731-737 | Captures of one register share one upvalue. |
| GcProgress.PropagatedLess | src/c/lua/lgc.c:277-320 | Traversing one gray object leaves fewer objects white or waiting. |
| GcProgress.AtomicKeeps | src/c/lua/lgc.c:525-553 | Whatever is held by references that are not weak is live after the atomic step. |
| GcProgress.KeptOn | src/c/lua/lgc.c:556-607 | What was held when a marking began stays held until it ends, and live from then on, from step to step, with the contents left. |
| GcFacts.SweptClosed | src/c/lua/lgc.c:407-428 | Closing the upvalues of a dead thread, as the sweep does, frees only dead objects, revives none, and every object left holds what it held. |
| TryBlocks.AsMeant | src/c/jlua/jlua.c:492-515 | The code does what try means exactly if no error that is a function stands where a function that was not given is looked for: one raised by the body of a one-argument try, or one raised after the catch function of a two-argument try. |
| TryBlocks.CalledByMistake | src/c/jlua/jlua.c:492-507 | An input that shows the failure: the body of a one-argument try raises a function; the function is called and no error is raised. |
| TryBlocks.RunAsMeant | src/c/jlua/jlua.c:468-517 | A program runs as it is meant to, however deep its tries are nested, if no error is misplaced in its intended run. |
| TryBlocks.FullAsMeant | src/c/jlua/jlua.c:468-517 | A program whose tries all have their three arguments always runs as it is meant to. |
| TryBlocks.FinallyOnce | src/c/jlua/jlua.c:500-512 | The finally function runs exactly once, whatever body and catch function do, and a pending error wins over one it raises. |
| TryBlocks.CatchIfRaised | src/c/jlua/jlua.c:492-499 | The catch function runs, once, exactly if the body raises. |
| TryBlocks.GoesThrough | src/c/jlua/jlua.c:513-514 | An error goes through any number of tries that do not catch it. |
| TryBlocks.NearestCatch | src/c/jlua/jlua.c:492-499 | The nearest catch function around is called with the error. |
| ProtectedCalls.LuaThread.PCall | src/c/lua/ldo.c:456-478 | A protected call restores the frames, the base, the count of C calls and the error function, and leaves in place of the function and its arguments nothing, or exactly the error value. |
| ProtectedCalls.LuaThread.Call | src/c/lua/ldo.c:370-381 | A call leaves the frames as they were, or raises an error from any depth with all below the function untouched; the 200th nested C call raises an error, those before the 225th run, that one gives up. |
| ProtectedCalls.LuaThread.SetErrorObj | src/c/lua/ldo.c:51-68 | The error value goes to the old top, and is a message of its own for an error in error handling. |
| ProtectedCalls.LuaThread.TryBlock | src/c/jlua/jlua.c:468-517 | tryBlock, by pushing, inserting and popping on the stack, does what the specification of the code as written says: the same calls, the same error. |
| ProtectedCalls.LuaThread.RunProtected | src/c/jlua/jlua.c:468-517 | A protected program whose tries have three arguments does on the stack what is meant. |
| ChunkRoundTrip.ChunkReads | src/c/lua/lundump.c:161-209 | Dump, then load: the bytes load as what is left of the function tree exactly if every function of that is accepted by the code check and at most 200 calls nest; otherwise loading fails. |
| ChunkRoundTrip.FunctionReads | src/c/lua/lundump.c:161-181 | The same for any function inside another, with the source of its parent, whatever bytes follow. |
| ChunkRoundTrip.NothingLost | src/c/lua/lundump.c:166-166 | Without stripping the tree that comes back is the same exactly if every function in it has a source. |
| ChunkRoundTrip.StrippedOnly | src/c/lua/ldump.c:111-134 | With stripping only debug information and sources are lost. |
| ChunkRoundTrip.StripAgain | src/c/lua/ldump.c:129-141 | Stripping what was stripped and loaded gives the same bytes. |
| ChunkRoundTrip.TextReads | src/c/lua/lundump.c:76-88 | A string, the empty string and no string at all are read back apart. |
| ChunkRoundTrip.DebugReads | src/c/lua/lundump.c:137-159 | Debug information is read back, or its absence. |
| Dumping.DumpState.Dump | src/c/lua/ldump.c:153-164 | The writer gets the chunk block by block, or the part of it up to and with the first block it refuses; the status is its answer to the last. |
| Dumping.DumpState.DumpFunction | src/c/lua/ldump.c:129-141 | A function is written in the order of the format, its source left out if it is the parent's; after a refusal nothing more is written. |
| Undumping.Zio.Read | src/c/lua/lzio.c:58-71 | n bytes are read across any pieces, or the number missing is returned. |
| Undumping.LoadState.LoadFunction | src/c/lua/lundump.c:161-181 | The loader agrees with the specification of the format on any bytes: the function, the bytes left and the count of C calls, or the same error. |
| Undumping.LoadState.LoadConstants | src/c/lua/lundump.c:100-127 | The constants are loaded one by one as the format says, or fail with its error. |
| Undumping.LoadState.Undump | src/c/lua/lundump.c:195-209 | A chunk with another header is refused; otherwise its function is loaded. |
| Undumping.DumpAndLoad | src/c/lua/lundump.c:195-209 | Whatever non-empty pieces the bytes of a dumped function come in, loading gives what is left of it if that is accepted, and an error if not. |
| GcGarbage.LostApart | src/c/lua/lgc.c:501-512 | The objects to which no reference that is strong or to a string leads from a root, a userdata that waits for its finalizer, or what is never freed, are white before a marking, and no other object has such a reference to them. |
| GcGarbage.GarbageDead | src/c/lua/lgc.c:544-552 | What the marking left alone is dead once the white has changed. |
| GcGarbage.SweepTaken | src/c/lua/lgc.c:407-428 | A step of the sweep keeps what is live and leaves dead what is dead, until it is freed. |
| Collector.GlobalState.Step | src/c/lua/lgc.c:556-607 | In the middle of a collection, a step leaves garbage alone while marking, dead while sweeping, and gone after that. At the end of the marking every userdata in it with a finalizer due is set apart, with what references lead to from it, and nothing else leaves it; from then on every userdata that leaves the list has had its finalizer called, and no other has. |
| GcGarbage.SetRightNow | src/c/lua/lgc.c:128-155 | Setting userdata apart takes out of the garbage exactly what is wanted for their finalizers, and every userdata in it whose finalizer is due is set apart. |
| GcHeld.WhiteUnheld | src/c/lua/lgc.c:525-542 | What is white when userdata are set apart was not held by the program, but perhaps through userdata that wait. |
| GcFinalizing.WaitingNow | src/c/lua/lgc.c:525-553 | The userdata set apart were not held, and none loses its finalizer to the clearing of weak tables, unless its metatable is weak itself. |
| GcFinalizing.FinalizerStays | src/c/lua/lgc.c:407-428 | The sweep takes no finalizer from a userdata that waits for it. |
| GcFinalizing.FinalizingOn | src/c/lua/lgc.c:556-607 | From step to step: what has left the garbage was wanted, and the finalizer of each userdata in it that was due has been called or is still to be. |
| GcFinalizing.LostGone | src/c/lua/lgc.c:501-512 | At the end of a collection that started with all that was lost as garbage nothing unwanted is left, and the finalizers that were due of lost userdata have been called, and only such as may be. |
| GcWeakTables.EntryStays | src/c/lua/lgc.c:338-347 | An entry whose key and value the program holds, or that are strings or no objects, stays in a weak table exactly unless its value is a userdata marked finalized. |
| GcWeakTables.SlotStays | src/c/lua/lgc.c:351-361 | The same of a slot of the array, which is cleared only if values are weak. |
| GcWeakTables.FinalizedBefore | src/c/lua/lgc.c:136-141 | A userdata that the program holds, but not only through others that wait, counts as finalized there exactly if it was marked so before. |
| GcWeakTables.WaitingLeaves | src/c/lua/lgc.c:338-347 | A userdata that waits for its finalizer is no value of a weak table any more, but for array slots of one with weak keys alone. |
| GcWeakTables.WaitingKeyStays | src/c/lua/lgc.c:338-347 | It stays as a key of an entry whose value stays. |
| GcWeakTables.StrongTableStays | src/c/lua/lgc.c:351-375 | A table that is not weak loses nothing. |
| GcWeakTables.HeldValueLost | src/c/lua/lgc.c:345-346 | An input that shows it: a state of the invariant in which the program holds a userdata finalized earlier, and a table with weak values loses it. |
| GcPruned.HeldPruned | src/c/lua/lgc.c:635-649 | What the program held before a pending sweep was finished it still holds after it. |
| GcPruned.WantedPruned | src/c/lua/lgc.c:635-649 | What is wanted after a pending sweep was wanted before it. |
| GcContents.AtomicLeaves | src/c/lua/lgc.c:525-553 | The end of a marking changes no contents but those of weak tables: these keep their metatable, their keys, their array if values are not weak, every entry whose key is held and whose value is held and not finalized, and lose no more than values. |
| GcContents.LeftOnward | src/c/lua/lgc.c:268-320 | What the end of a marking has left of the state before it, it has left of the state at the start. |
| GcContents.TurnPushed | src/c/lua/lgc.c:445-470 | Calling a finalizer changes no contents but the stack of the running thread, which grows. |
| GcPruned.ContentsPruned | src/c/lua/lgc.c:635-649 | What is left of the contents after a pending sweep is left of those before it. |
| CodeGenLocals.ListCorrect | src/c/lua/lparser.c:596-606 | The code of a list of expressions, run from where the first starts, leaves the value of each in its register, for every machine with the final constants. |
| CodeGenLocals.LocalsCorrect | src/c/lua/lparser.c:1179-1195 | The code of local statements, one after the other, gives every variable its value, each expression evaluated with the variables of the statements before it. |
| FuncStates.FuncState.CompileList | src/c/lua/lparser.c:596-606 | In place, from the code as stored: each expression of a list ends in its register with its value, and those before it keep theirs. |
| FuncStates.FuncState.LocalStat | src/c/lua/lparser.c:1179-1195 | The variables of a local statement become active in the registers of its expressions. |
| FuncStates.FuncState.LocalStats | src/c/lua/lparser.c:1179-1195 | In place, from the code as stored: after local statements every variable has its value. |
| Precedence.PrioritiesMean | src/c/lua/lparser.c:815-822 | The table puts the operators in the order of the manual: or, and, comparisons, `..`, additive, multiplicative, `^`; `..` and `^` bind to the right, all others to the left; a unary operator binds before all but `^`. |
| Precedence.FitsMeans | src/c/lua/lparser.c:828-853 | A tree respects the numbers of the table exactly if it respects that order, stated without numbers. |
| Precedence.ParsedProper | src/c/lua/lparser.c:828-853 | What subexpr returns is such a tree. |
| Precedence.ProperParsed | src/c/lua/lparser.c:828-853 | Every such tree is what subexpr returns on its tokens. |
| Precedence.TwoOperators | src/c/lua/lparser.c:828-853 | `x b y c z` is read as x b (y c z) exactly if c comes in a later group than b, or in the same and binds to the right, and as (x b y) c z otherwise. |
| Precedence.UnaryFirst | src/c/lua/lparser.c:805-853 | `u x c z` is read as u (x c z) exactly if c is `^`, and as (u x) c z otherwise. |
| PatternSyntax.EscapeMeans | src/c/lua/lstrlib.c:226-242 | A class letter after the escape means its class, its capital the complement of that for every byte, and any other byte itself only. |
| PatternSyntax.SetReads | src/c/lua/lstrlib.c:245-265 | A set matches exactly the union of its single bytes, ranges and classes, as a set of bytes, and with `^` the complement of that. |
| PatternSyntax.ClassReads | src/c/lua/lstrlib.c:268-275 | The text of any class matches exactly the bytes the class has; a dot matches all. |
| PatternSyntax.PieceParses | src/c/lua/lstrlib.c:365-441 | The text of each piece of a pattern is read as that piece: a class with `?`, `*`, `+`, `-` or nothing, a frontier, captures, back references, balanced strings and the end. |
| PatternSyntax.PieceSteps | src/c/lua/lstrlib.c:365-441 | What such a piece takes of a subject is what its item takes. |
| PatternSyntax.PatternMeans | src/c/lua/lstrlib.c:365-441 | The text of a pattern matches exactly what its pieces match one after another. |
| PatternSyntax.PatternTried | src/c/lua/lstrlib.c:365-441 | On the text of a pattern the matcher finds a match of its pieces, or fails only if there is none. |
| PatternSyntax.DigitRefers | src/c/lua/lstrlib.c:354-362 | A digit after the escape matches exactly the text of the capture of that number, and is an error if there is none or it is not finished. |
| Patterns.MatchedWell | src/c/lua/lstrlib.c:186-200 | A pattern that is not well-formed matches nothing: it fails or raises an error. |
| StringLiterals.ControlMeans | src/c/lua/llex.c:294-300 | The seven control escapes stand for the codes 7, 8, 12, 10, 13, 9 and 11. |
| StringLiterals.PartReads | src/c/lua/llex.c:278-331 | Each part of a literal reads as the byte it stands for: a byte, a decimal code with one to three digits, a control escape, an escaped byte, a line break of one or two bytes. |
| StringLiterals.LiteralReads | src/c/lua/llex.c:278-331 | A literal reads as the bytes of its parts in order and counts its line breaks. |
| Chunks.FieldOrder | src/c/lua/ldump.c:26-49 | Fields are written with the lowest byte first on a little-endian host, last on others. |
| Chunks.HeaderFields | src/c/lua/lundump.c:214-227 | The header has the signature, the version 5.1, the official format, the byte order and the sizes at their places. |
| Chunks.ConstantTag | src/c/lua/ldump.c:71-93 | The tag of a constant is its Lua type. |
| Chunks.ForeignRefused | src/c/lua/lundump.c:183-191 | A chunk written on a host of another byte order or size is refused. |
| GcHeld.HeldPastAll | src/c/lua/lgc.c:525-542 | When no userdata waits, being held past those that wait is being held. |

## Findings

- `luaD_precall` asks for `maxstacksize` slots, but a vararg function without arg table
  also moves its fixed parameters up, nil for missing ones included (`src/c/lua/ldo.c:277-309`).
  The frame is sure to end below `stack_last` exactly when at most one argument is missing
  (`Calls.SureToFit`); `Calls.TwoMissing` is a valid thread where it does not. The code does
  not stop there but goes on past `stack_last`. The slots allocated there suffice on every
  stack exactly when at most seven arguments are missing (`Calls.SureInBlock`). The model
  stops with `NoRoom`.
- During a marking a black object may refer to a white one if it is a userdata that an
  earlier, unfinished cycle left waiting for its finalizer: `luaC_fullgc` starts a marking
  from `GCSfinalize` without emptying `tmudata` (`src/c/lua/lgc.c:635-658`).
  `GcInvariant.NoBlackToWhite` holds with just that exception, `GcInvariant.LeftOverBlack`
  shows it is needed; `marktmu` marks these userdata again before anything is freed
  (`src/c/lua/lgc.c:115-124`), so no reachable object is lost.
- The assertion of `luaC_barrierf` that the state is neither `GCSfinalize` nor `GCSpause`
  (`src/c/lua/lgc.c:664`) fails in exactly the calls made in `GCSfinalize` for a userdata
  that waits for its finalizer and is reached, say as a key of a table with weak keys
  (`GcMutation.ForwardAsserts`); `GcMutation.ForwardFails` is such a call, which gives the
  userdata an environment. The barrier does no harm then, and the model has it in every
  state. The same assertion of `luaC_barrierback` (`src/c/lua/lgc.c:678`) never fails
  (`GcMutation.BackAsserts`).
- An entry of a weak table stays if the program holds its key and its value, exactly unless
  the value is a userdata that has been marked finalized (`GcWeakTables.EntryStays`).
  `iscleared` says that it takes out userdata that are being finalized
  (`src/c/lua/lgc.c:336`), but the mark stays for good (`src/c/lua/lgc.c:345-346`): a userdata
  that its finalizer has made reachable again is lost at every collection
  (`GcWeakTables.HeldValueLost`). In a table with weak keys only, it is lost from the hash part
  and not from the array (`GcWeakTables.WaitingLeaves`).
- The "table overflow" error leaves the array part already grown
  (`src/c/lua/ltable.c:297-324`). No key is lost by that: `Tables.NoneStranded`,
  `Tables.StillSound`, and `Tables.Table.Put` changes no value then.
- While references are free, the length of the reference table may be one of them
  (`References.BorderAtHole`); `luaL_ref` asks for the length only when none is free.
- A string written with `%q` fails to read back in exactly one case: its newlines take the
  line number of the chunk to the limit (`Quoting.RoundTrip`).
- `tryBlock` looks for its functions in slots 2 and 3 after an error may have been left
  there (`src/c/jlua/jlua.c:494-502`). An error that is itself a function is then called: one
  raised by the body of a one-argument try, as its catch function, and one pending after the
  catch function of a two-argument try, as its finally function. These are exactly the cases
  in which the code does not do what is meant (`TryBlocks.AsMeant`,
  `TryBlocks.CalledByMistake`); with three arguments they cannot occur
  (`TryBlocks.FullAsMeant`).
- A chunk that is dumped and loaded is the same exactly if every function in it has a source
  (`ChunkRoundTrip.NothingLost`): one without gets the source of its parent, or `=?`.
- The comment of `ltable.c` says that a node out of its main position collides with one
  that is in its own; this is proved as part of `NodeChains.Chains`.

## Left out

Weaker than the code:

- CodeGenCorrect.ExpressionCorrect: expressions are constants, locals, upvalues,
  parentheses, `not`, `and`, `or` and comparisons. Globals, indexing, calls, varargs,
  arithmetic and concatenation are not part of it, nor are the limits on registers,
  constants and jump distances; "no register" is -1 and not 255.
- CodeGenCorrect.CompileGood: over the same expressions; the comparisons of the machine are
  one total function of two values, so metamethods and comparison errors are left out, and
  constants are told apart by their value.
- Parsing.Parser.SubExpr: names are resolved to locals and upvalues beforehand; arithmetic,
  length and concatenation have priorities in the grammar but no code; a name or parenthesis
  that goes on as an index or a call ends the parse as not modelled.
- LuaMachine.SimExec: over the ten kinds of instruction that these expressions use; a test and
  its jump are one step, as they are in the interpreter's loop.
- FuncStates.FuncState.CompileToNextReg: line information and the growth of the code array are
  left out.
- GcInvariant.NoBlackToWhite: not for userdata left over from an earlier cycle, for which it
  fails.
- Collector.GlobalState.SingleStep: memory accounting and thresholds, and the shrinking of
  stacks, buffers and the string table, do not appear; a finalizer's own actions are steps of
  the program between steps of the collector. References of freed objects are not used again.
- Collector.GlobalState.constructor: only tables are metatables, that is, have a mode or a
  finalizer, as `lua_setmetatable` demands.
- Collector.GlobalState.Collect: a string to which only weak tables refer may be left, even
  where its entry is cleared; the program takes no step of its own while it runs. Nothing is said
  of the finalizer of a userdata whose metatable is itself weak and may lose it, nor of one held
  only through userdata that wait, which may be called.
- GcWeakTables.EntryStays: which tables are listed as weak is decided when they are traversed; a
  metatable changed after that counts from the next marking on.
- FuncStates.FuncState.LocalStat: a local statement has as many variables as expressions.
- PatternSyntax.PatternMeans: of patterns written with all magic characters escaped where they
  stand for themselves; `Patterns.Complete` and `Patterns.Sound` are about any pattern.
- Collector.GlobalState.FinalizeAll: finalizers return or raise an error and change nothing
  else; the closing of upvalues and the freeing of all objects around it are left out.
- Collector.GlobalState.Barrier: stated for every state, where the code asserts some
  states away.
- Tables.Table.Put: keys that are numbers but not integers, strings, booleans and objects are
  opaque, with any hash function; metamethods are left out. A table whose array part was made
  larger than 2^26 by its creator is left out.
- Tables.Table.Traverse: during the traversal the program assigns only to fields that have a
  value, as the manual demands.
- References.Registry.Unref: releasing a reference twice is left out, which the manual forbids.
- References.LuaObject.Finalize: an object is finalized once; the lock on the state is left out.
- Calls.LuaState.Precall: a C function is its list of results; hooks, yields, the limits on C
  calls and frames, and closing upvalues on return are left out. The stack is a sequence and its
  pointers are indices; `StackBlock` shows that moving the block of memory keeps both.
- StackBlock.LuaThread.ReallocStack: the allocator's choice of a place is a parameter, and it
  never fails; that no pointer lies past the new size is required, as the collector's caller
  sees to it; the array of frames does not move.
- Calls.LuaState.TailCall: a tail call of a C function is a call, as in the code, but the
  return that follows is a step of its own.
- ProtectedCalls.LuaThread.PCall: closing upvalues, the hook flag, the saved pc and the stack
  limits are not restored, as they are not there; errors of memory and of an error function do
  not occur, and the stack is the part in use.
- ProtectedCalls.LuaThread.Call: no error function is set, as the protected calls of tryBlock set
  none.
- ProtectedCalls.LuaThread.TryBlock: functions emit, raise, try and run one after the other;
  they see their argument and constants, and no variables around them.
- Undumping.LoadState.LoadFunction: the code check is a parameter; an int and an instruction
  have four bytes, a number is its eight bytes, and vectors always find memory.
- Dumping.DumpState.Dump: vectors have fewer than 2^31 elements, and the length of a string
  fits in a size_t.
- Matcher.MatchState.Match: character classes are a parameter, as the locale decides them.
- Matcher.MatchState.Find: pushing captures, `gsub`, `gmatch` and plain search are left out.
- Sorting.AuxSort: the comparison is a strict weak order; with others the scan may leave the
  range.
- Quoting.LexState.ReadString: the limit on the size of the lexer's buffer is left out.

Not part of the model:

- Coroutines, hooks and debug information; the symbolic execution that checks bytecode.
- Statements but for local variables, functions and table constructors in the parser, and the
  lexer but for strings.
- The JNI functions and the reflection of the Java side, which forward to others.
- The input/output, operating-system, mathematical and package libraries.
