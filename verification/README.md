# CHIP-8 engines and tools: a verification project

CHIP-8 has no formal standard. The reference meaning used here is the
interpreter of `src/interp.c` in BENCH mode, where everything an engine learns
from outside (timers, keys, random bytes) is a function of a virtual clock and a
seed. Against that reference the project models and proves five things.

1. **The trace JIT refines the interpreter.** `codegen` of
   `src/libgccjit_jit.c` (and, with the same algorithm, of `src/llvm_jit.cpp`)
   is modelled by the blocks it emits: retire, safepoint, store of the program
   counter, register operations, host calls, conditional branches, closed back
   edges, returns. The blocks have an operational semantics; each block is shown to do one or
   two passes of the interpreter's main loop; the dispatcher with its trace
   cache, its marking of code bytes and its whole-cache flush is a state
   machine; and every run of it, self-modifying programs included, is shown to
   stand where the interpreter stands after the same number of retired
   instructions, to overshoot its budget by at most a constant, and to be finite.
   What code generation refuses, runs through and follows is characterized by what
   the interpreter does with an opcode.
   For the differential test of `scripts/bench_diff.py`, which compares the two, it is
   settled exactly when it reports a match.
2. **Disassembler and assembler are inverse.** For every ROM of 0 to 3584 bytes,
   of odd or even size, with or without `--decode-unreachable`, the text of
   `--asm` assembles to exactly the ROM. The text is modelled character by
   character (fgets, the tokenizer, upper-casing, `strtoul` with base 0 as in
   section 7.22.1.4 of ISO/IEC 9899:2011). Every statement the assembler accepts comes
   back from its opcode too. Beside it: the two passes agree on
   every line's address; every operand of a data list stands in the output where it
   belongs; and recursive descent marks exactly what the machine can lead to, so that
   no word a run executes is printed as data.
3. **The optimizer's rewrites** of `tools/chip8opt.py` preserve runs: the
   tail-call rewrite by a stuttering simulation that erases stack frames, the
   byte-removing peepholes by a simulation under the old-to-new address map,
   sprites, loads and stores through I included, and both together for the program
   the optimizer returns, runs that end in an error included. This is carried through
   to the text: what it prints assembles, and the machine booted with the one ROM
   follows the machine booted with the other.
   The optimizer looks at the words of the statements; when that gives what the
   assembler makes of them is stated as an equivalence for each of its steps:
   tokens, numbers, layout, the branches of the analysis, the rewrite rules,
   symbolization.
   The context worklist is shown to terminate, to be closed, to cover every
   program counter and return stack a run reaches, to record exactly the
   memory accesses its branches see, and to carry right constants but for the named
   ways in which they go wrong.
4. **Ahead-of-time lowering** (`src/aot.c`): every block is well-formed SSA and
   does what the interpreter does.
5. **Smaller refinements**: lazily synced timers, the synthetic keyboard, idle
   elision, sprite drawing; and what the reference instructions compute, in place
   values and carries of its own.

## Layout

| file | what it holds |
|---|---|
| Chip8, Instructions, Bench, Interp | the machine, what its instructions compute, the BENCH environment, the reference run |
| InterpEngine, Display, Laziness, Idle | the interpreter and the framebuffer in imperative form; timers and keys; idle elision |
| Trace, Lowering, TraceSpec, Supported, Simulation, Cadence | the block IR, per-opcode correctness, what a trace is, what is refused, block simulation, safepoint spacing |
| Dispatch, WholeRun, Codegen | the dispatcher as a state machine, the whole-run theorems, the engine in imperative form |
| Rerun, Limits, Differential | the exact condition under which the differential test reports a match, a ROM on which it does not, the test itself |
| Text, Assembler, Tokenizing, TwoPass, Output, AssemblerEngine | the C library parts, the assembler's meaning, tokens and comments, the two passes, the bytes put out, the assembler in imperative form |
| Disassembler, DisassemblerEngine, Reached, Printed, Encoding, RoundTrip, Converse, Gluing | the static analysis and printer, their imperative form, reachability against the machine, printed lines as read back, encoding, the round trip both ways, glued labels |
| Tape, TailCall, Peephole, Compaction, OptimizedRun | the machine fed from a tape, the tail-call rewrite, what may be dropped and where the rest moves, the runs of a compacted program, both rewrites together |
| Numbers, Parsing, Statements, Analysis, Constants | numbers, tokens and statements as the optimizer and the assembler read them, the control-flow analysis, its constants against the machine |
| Rebuilt, Canonical, Returned | the statements that are returned under the assembler, the printed text through both passes, the optimizer from text to run |
| Optimizer, Relocate, Rules, Refusal, Missed | the optimizer's loop on the words of the statements, symbolization, its rules against the opcodes, refusal and the whole of it, programs it gets wrong |
| Aot | the ahead-of-time compiler |

The engines, the framebuffer, the assembler, the disassembler and the AOT emitter
are classes whose methods update their fields and buffers in place as the C code
does; each method is proved against a function of the old state, and the theorems
are about those functions.

## Where code and documentation differ

The code is followed; each difference is stated as a theorem.

* `;` and `#` are documented to start comments (`README.md:114`). The tokenizer
  overwrites the delimiter that ends a token, whatever it is, so a mark that
  touches a token starts no comment: `CLS;x` has two tokens and is rejected.
  `Tokenizing.CommentIgnored` gives the exact condition.
* The comment at `src/disas.c:238-239` says no live reference can point into a
  glued run. A jump to a word that is no valid instruction can:
  `Gluing.TargetKept` says exactly which targets keep their label, and
  `Gluing.TargetLost` shows a ROM. The round trip does not depend on it.
* The differential test re-runs the interpreter with the JIT's retired count as its
  budget, unless the counts are equal already (`scripts/bench_diff.py:93-97`), and
  says that any difference is a real divergence (`scripts/bench_diff.py:7-12`). The
  clock cap scales with the budget (`src/bench_io.c:245`). `Rerun.BenchDiff` gives
  the exact condition for every run of the JIT that stopped: with budget B, a base run
  of n instructions and a JIT that retired N, the script reports a match if and only if
  N = n; or N > n and N - 1 - n < 64 (N - B); or N < n (the JIT was refused code), the
  clock before its last instruction was below 64 N, and that instruction was no Fx0A
  that polled more than once, or one that the re-run may cut short unnoticed: it left
  the registers alone and the timers were at the same tick or had run out. On the ROM
  of `Limits.CapDiverges`, with budget 157,
  the base run ends after 52 instructions, every run of the JIT after 64, and the test
  reports a divergence though the JIT is right. `WholeRun.RunAgrees` has no such
  condition: it compares with the interpreter under the JIT's own budget.
* The comment at `tools/chip8opt.py:406-408` says deep recursion has been
  rejected before the tail-call rewrite. The hazard is recorded but is not among
  the problems that refuse a program (`tools/chip8opt.py:340`), and a routine that
  only calls itself is turned from a stack overflow into an endless loop:
  `TailCall.DeepRecursion`. `TailCall.ErrorMatches` says which errors survive the
  rewrite, and `Analysis.SameFailures` that all do when no deep call is reported.
* The overwritten-load rule (`tools/chip8opt.py:423-431`) drops the load before
  `LD Vx, Vx`, and `LD Vx, Vx` itself as a no-op, so the value is lost:
  `Optimizer.LoadLost`. `Peephole.OverwriteExact` says when the rule is right, for
  every pair of loads it accepts: it is not, for example, before `LD Vx, K`, which may
  end without a key, or for `LD V1, [I]` before `LD V1, 0`, which loses V0.
* The no-op rule (`tools/chip8opt.py:415-418`) compares the words of the operands. A
  label may be called I, and `LD I, I` then loads I and is deleted:
  `Optimizer.IndexLost`. `Optimizer.SameOperandsExact`: deleting `LD a, a` is right
  exactly when a is not I.
* `parse_number` is meant to read what `strtoul` with base 0 reads
  (`tools/chip8opt.py:61`). It does for numbers without a sign; behind one, `+010` is
  10 to it and 8 to the assembler, and `+0x300` no number at all. `Numbers.NumbersAgree`
  gives the exact condition. What comes of it: `LD V0, +010` and `ADD V0, +010`
  are merged to 20 instead of 16 (`Optimizer.SumLost`; `Optimizer.FoldExact` says
  when a merge is right), `JP +0x300` is an unresolved jump to the analysis
  (`Statements.JumpMisread`; `Statements.Classified` says when a statement is read
  rightly), and `LD I, +0x206` neither gets a label nor stops the
  compaction that moves what it points to (`Missed.AddressMissed`;
  `Relocate.RefersExact` says when an address is seen).
* `tokens` is meant to follow the assembler's rules closely (`tools/chip8opt.py:54`). A
  comment that touches a word is one to it but not to the assembler, so `.byte 1;2` has
  one byte to the optimizer and two to the assembler, and every later address differs:
  `Parsing.ByteTaken`. `Parsing.TokensAgree` gives the exact condition.
* The analysis keeps the constant it knows of VF across instructions that set the flag
  (`tools/chip8opt.py:225-244`), those of V0 to V(x-1) across `LD Vx, [I]`, and I in the
  font across `ADD I, Vx`. `Constants.TransferExact` says that nothing else goes wrong
  with a statement it reads rightly, `Constants.FlagKept` shows one. `LD Vx, K` and
  `LD Vx, DT` it reads as loads of an address in a source with a label K or DT:
  `Constants.LabelMistaken`.
* The runtime of the ahead-of-time compiler means to leave the dispatcher at a word the
  interpreter rejects (`src/aot_runtime.c:159`). The compiled block overwrites the
  exit address, so 8xyn and Fxkk words do nothing and Exkk words skip as Ex9E does:
  `Aot.RejectedGoesOn`.
* In the analysis, `LD Vx, [I]` takes the branch for `LD Vx, ...` before the one
  that would record a read through I (`tools/chip8opt.py:214-224`), so such a read is
  never recorded, nor an unknown I noticed at it: `Statements.Classified`,
  `Analysis.LoadUnrecorded`. `Missed.OptimizeMoved` and `Missed.MissedReadMoves`
  show a program that is therefore compacted although it then reads another byte.

## Modelling choices

* Counters that are 64 bits wide in C are unbounded here. Registers, I, the
  program counter, stack entries and memory have their C widths, with wrap-around
  written out. The live part of the return stack is a sequence; entries above the
  stack pointer are not kept.
* Key masks are sets of key numbers. `1 << Vx` in Ex9E and ExA1 is taken modulo
  32, as the hardware shifts; C leaves it undefined from 32 on.
* `rand()` is one stream, consumed once per Cxkk.
* `pc_block` has 4096 entries but is indexed by an unmasked 16-bit address. Code
  generation that gets to such an address has the result `OutOfRange`, and the
  engine the phase `Undefined`: nothing is claimed beyond it, and everything is
  proved up to it.
* Code generation that meets an unsupported opcode anywhere on its walk ends the
  run, as in C. The engine then still agrees with the interpreter under the same
  budget.
* A conditional branch out of a block is a piece `Unless` inside the block, so
  that a block stays one per address; snapshot locals are numbered.
* Host routines shared by interpreter and JIT are functions; the interpreter's
  own form of them is in InterpEngine.
* The symbol table is a map. Label names may have any length; the C table holds
  127 characters.
* In TailCall, Compaction, Analysis and Aot the inputs of a run are a sequence
  shared by both programs: the virtual clock, which counts instructions, moves
  differently in a program that takes fewer. What a program sends out, the settings
  of its timers, is compared.
* The differential test compares the display by a hash; the model compares the pixels.
* A statement of a source keeps its words as the optimizer holds them (upper-cased),
  what they assemble to, its labels and the statement its last operand names;
  `Optimizer.Encodes` and `Relocate.Assembles` tie these together for a source the
  assembler accepts with a given symbol table.
* In OptimizedRun and Compaction every instruction comes with its own input, used or not.
* A BENCH poll costs one clock unit (`src/bench.h`), the frame limiter of Dxyn is
  absent under BENCH.

## Model

| member | source | states |
|---|---|---|
| Display.Framebuffer.Draw | src/bench_io.c:46-78 | the framebuffer changes by exclusive-or with the wrapped-origin, clipped sprite set: exactly the pixels (x + i, y + j) flip for which the bit worth 2^(7-i) of row j is set; VF is 1 exactly when one of them was on; every byte stays 0 or 1 |
| Display.Framebuffer.DrawPixel | src/bench_io.c:62-74 | one pixel extends the part of the sprite already drawn by exactly that pixel, or by none when its bit is clear |
| Display.Framebuffer.Clear | src/bench_io.c:80-83 | no pixel is lit |
| Display.DrawTwice | src/bench_io.c:46-78 | drawing the same sprite twice restores the screen |
| Display.InSprite | src/bench_io.c:50-66 | a pixel is in the sprite set exactly when some set bit of some row, at the wrapped origin and not clipped, covers it |
| Instructions.LogicOpcodes | src/interp.c:244-268 | 8xy1, 8xy2 and 8xy3 are inclusive or, and, exclusive or, place by place of the two bytes by division; nothing else changes but the program counter |
| Instructions.BitsAddUp | src/interp.c:244-268 | and + or is the sum of the operands, and exclusive or is or less and |
| Instructions.RandomOpcode | src/interp.c:356-363 | Cxkk has a place of the random byte set exactly where kk has it too |
| Instructions.SumOpcodes | src/interp.c:271-326 | 8xy4, 5, 6, 7, E: 256 times the carry plus the result is the sum, the result less 256 times the borrow is the difference, twice the result plus the bit shifted out is the operand, and so on, also for x = F |
| Instructions.FullResultOnce | src/interp.c:271-326 | and that determines result and flag |
| Instructions.DigitsOpcode | src/interp.c:406-420 | the three bytes stored by Fx33, times 100, 10 and 1, make up Vx, and the last two are digits; no other byte changes |
| Instructions.SaveRestore | src/interp.c:506-526 | Fx65 brings back what Fx55 stored at the same I, whatever happened to the registers in between |
| Instructions.CallReturn | src/interp.c:154-179 | a return with the stack a call left goes behind that call with the stack of before it |
| Instructions.ColumnPlace | src/bench_io.c:62 | column i of a sprite row is its bit worth 2^(7-i) |
| Instructions.DrawOpcode | src/interp.c:476-504 | Dxyn flips exactly those pixels and sets VF to whether one of them was on |
| Instructions.RowRecovered | src/bench_io.c:50-66 | the pixels a sprite row lights on a blank screen, by their places, spell the row |
| Bench.CatchUp | src/interp.c:84-95 | syncing timers (and rolling the key tick) now and again later is the same as doing it only later, for any later tick |
| Bench.AdvanceAlike | src/bench_io.c:100-103 | two environments that differ only in how lazily they were brought up to date stay so when the clock advances |
| Bench.SyncAlike | src/interp.c:84-95 | syncing either side of two such environments changes nothing observable, and both read the same timers |
| Bench.RollAlike | src/bench_io.c:118-125 | rolling the key tick on either side changes nothing observable, and both see the same cleared keys |
| Bench.PollAlike | src/bench_io.c:150-159 | the Fx0A spin sees the same keys and leaves alike environments, also for two budgets that agree on when the run is over |
| Bench.EnvStepAlike | src/interp.c:540-651 | every opcode reads the same inputs from alike environments and leaves alike ones |
| Laziness.ExtraCalls | src/bench_io.c:115-154 | a BENCH run with any extra timer syncs and key polls between instructions reads the same inputs and has the same machine after every instruction |
| Laziness.VisibleKeys | src/bench_io.c:127-142 | the visible keys are those held in the current tick less those cleared during that tick, whenever the last poll was |
| Laziness.KeySchedule | src/bench_io.c:103-142 | key k is down exactly in the ticks that are 4k or 4k + 1 modulo 64 |
| Laziness.WaitEnds | src/bench_io.c:103-114 | a wait for a key that is not cut off by the end of the run ends with one, at the latest at the start of the third tick to come, whatever was cleared |
| Laziness.KeyTest | src/interp.c:422-432 | Ex9E and ExA1 skip by whether the key numbered by the low five bits of Vx is down by that schedule and not cleared in this tick, and clear it when they skip |
| Laziness.DelayReads | src/interp.c:84-95 | the delay timer set to v reads v less the ticks begun since, or zero, and the sound timer goes on as it was |
| Laziness.SoundReads | src/interp.c:84-95 | and the other way round |
| Interp.BasicBlockAlike | src/interp.c:540-651 | one interpreter step cannot tell alike machines apart |
| Interp.RetireRolled | src/interp.c:708-724 | polling keys once per instruction or once per trace makes no difference to the count of an instruction |
| Chip8.StraightFrame | src/interp.c:217-233 | an instruction that falls through neither reads nor sets the program counter but for the step |
| InterpEngine.Interpreter.SyncTimers | src/interp.c:84-95 | the environment becomes the synced one; the machine is unchanged |
| InterpEngine.Interpreter.RollTick | src/bench_io.c:118-125 | clears of an earlier tick are forgotten |
| InterpEngine.Interpreter.KeysNow | src/bench_io.c:127-142 | returns the keys of the synthetic keyboard at the current tick |
| InterpEngine.Interpreter.ClearKey | src/bench_io.c:144-148 | the key is cleared for the current tick |
| InterpEngine.Interpreter.PollKeys | src/bench_io.c:150-154 | one unit is charged to the clock and the keys at that clock are returned |
| InterpEngine.Interpreter.StoreBcd | src/interp.c:406-420 | three decimal digits are stored from I upwards, wrapping |
| InterpEngine.Interpreter.SaveRegisters | src/interp.c:506-515 | V0 through Vx are stored from I upwards, wrapping |
| InterpEngine.Interpreter.RestoreRegisters | src/interp.c:517-526 | V0 through Vx are loaded from I upwards, wrapping; the others stay |
| InterpEngine.Interpreter.DrawSprite | src/interp.c:476-504 | reads n bytes at I, draws them, sets VF last, steps |
| InterpEngine.Interpreter.SkipKeyX | src/interp.c:422-432 | skips, and clears the key, exactly when the key state differs from the wanted one |
| InterpEngine.Interpreter.WaitForKey | src/interp.c:439-458 | polls until a key is down or the run is over |
| InterpEngine.Interpreter.LoadOnKey | src/interp.c:434-474 | stores the highest key of the last poll, if any, clears all sixteen, steps |
| InterpEngine.Interpreter.SetWithFlag | src/interp.c:271-326 | the flag is stored after the result and wins when x is F |
| InterpEngine.Interpreter.Arithmetic | src/interp.c:235-326 | 8xyn has the reference effect or is an error |
| InterpEngine.Interpreter.Jump | src/interp.c:145-152 | timers are serviced and the program counter is the target |
| InterpEngine.Interpreter.Return | src/interp.c:154-164 | pops the newest frame, or fails on an empty stack |
| InterpEngine.Interpreter.Call | src/interp.c:166-179 | pushes the address of the next instruction, or fails on a full stack |
| InterpEngine.Interpreter.System | src/interp.c:540-558 | 00E0, 00EE, 0nnn and 1nnn have the reference effect |
| InterpEngine.Interpreter.SkipOn | src/interp.c:181-215 | the four comparisons skip as the reference does |
| InterpEngine.Interpreter.Immediate | src/interp.c:217-354 | 6xkk, 7xkk, Annn and Bnnn have the reference effect |
| InterpEngine.Interpreter.RandomByte | src/interp.c:356-363 | consumes one value of the shared stream and masks it |
| InterpEngine.Interpreter.KeyGroup | src/interp.c:607-619 | Ex9E and ExA1 have the reference effect, the rest of the group is an error |
| InterpEngine.Interpreter.Misc | src/interp.c:620-650 | the Fxkk group has the reference effect or is an error |
| InterpEngine.Interpreter.BasicBlock | src/interp.c:540-651 | fetch, decode and execute take the buffers to the state the reference step gives, and fail exactly when it does |
| InterpEngine.Interpreter.OnePass | src/interp.c:705-735 | one pass of the main loop is one pass of the reference loop |
| InterpEngine.Interpreter.RunRom | src/interp.c:705-743 | the main loop terminates and ends in the reference run's state after exactly the number of passes at which that run stops |
| InterpEngine.Interpreter.constructor | src/interp.c:656-704 | all registers, I, stack, timers and pixels are zero, the program counter at 0x200, the ROM in memory |
| Lowering.ArithDoes | src/libgccjit_jit.c:893-970 | the emitted 8xyn sequences compute the interpreter's result and flag in 8- and 16-bit arithmetic, also when x or y is F |
| Lowering.TimerDoes | src/libgccjit_jit.c:1016-1047 | Fx07, Fx15 and Fx18 sync the timers first and then read or set them as the interpreter does |
| Lowering.AddressDoes | src/libgccjit_jit.c:1048-1065 | Fx1E and Fx29 compute I as the interpreter does, with 16-bit wrap-around |
| Lowering.LoadDoes | src/libgccjit_jit.c:879-892 | 6xkk, 7xkk and Annn are the interpreter's |
| Lowering.RandomDoes | src/libgccjit_jit.c:988-992 | Cxkk decodes at the stored program counter and consumes the stream once |
| Lowering.DrawDoes | src/libgccjit_jit.c:993-997 | Dxyn, with VF and the timer sync, is the interpreter's |
| Lowering.RestoreDoes | src/libgccjit_jit.c:1072-1074 | Fx65 is the interpreter's and continues the trace |
| Lowering.ReturnDoes | src/libgccjit_jit.c:298-307 | 00EE services timers, then returns or stops with an error exactly as the interpreter |
| Lowering.CallDoes | src/libgccjit_jit.c:309-322 | 2nnn pushes the calling instruction's own return address, or stops with an error |
| Lowering.SkipKeyDoes | src/libgccjit_jit.c:351-372 | Ex9E and ExA1 skip and clear the key as the interpreter does |
| Lowering.WaitDoes | src/libgccjit_jit.c:374-416 | Fx0A polls, stores and clears as the interpreter does, and announces the end of the run when the budget is spent |
| Lowering.StoreDoes | src/libgccjit_jit.c:333-349 | Fx33 and Fx55 store as the interpreter does and raise the flush exactly when a stored byte is marked as code |
| Lowering.ComputedDoes | src/libgccjit_jit.c:977-987 | Bnnn stores NNN + V0 without wrapping at 12 bits |
| Lowering.InlineCorrect | src/libgccjit_jit.c:756-1074 | every opcode compiled inline leaves the machine as the interpreter does, though the program counter is only the code generator's |
| Lowering.EndCorrect | src/libgccjit_jit.c:761-1071 | every opcode that ends a trace leaves the machine as the interpreter does, stored program counter included, or both fail |
| TraceSpec.TraceFrame | src/libgccjit_jit.c:56-66 | a trace stays the code for memory while no marked byte changes, the second opcode of a folded skip included |
| TraceSpec.HeadTests | src/libgccjit_jit.c:747-754 | the safepoint is tested in every 32nd block of straight-line code and no other |
| TraceSpec.JumpFollowed | src/libgccjit_jit.c:769-792 | a jump to code not compiled yet is followed in the first 256 blocks and returned to after them |
| Supported.UnsupportedExact | src/libgccjit_jit.c:756-1082 | code generation refuses an opcode exactly if the interpreter rejects it in every state with every input |
| Supported.InlineExact | src/libgccjit_jit.c:756-1074 | a trace runs through an instruction exactly if it always falls through and leaves memory and stack alone, and is no comparison and no wait |
| Supported.JumpExact | src/libgccjit_jit.c:769-792 | it follows exactly the instructions that go to one address whatever the machine |
| Supported.WalkPath | src/libgccjit_jit.c:718-878 | every step of the walk of code generation is one the interpreter takes on some machine, but for the taken side of SNE Vx, Vx |
| Supported.RefusesRejected | src/libgccjit_jit.c:1084-1119 | so a refusal has ahead of it an opcode rejected in every state |
| Simulation.InlineBlock | src/libgccjit_jit.c:718-760 | a block of a fall-through instruction does one interpreter pass and lands on the block of the next address |
| Simulation.EndBlock | src/libgccjit_jit.c:1084-1085 | a block that ends the trace does one pass and returns with the interpreter's program counter |
| Simulation.JumpBlock | src/libgccjit_jit.c:769-792 | a jump block does one pass and lands on the target's block, closed, followed, or returned to |
| Simulation.BranchBlock | src/libgccjit_jit.c:798-878 | a skip does one pass, or two on the not-taken side of a folded jump |
| Simulation.FusedAlike | src/libgccjit_jit.c:844-865 | the folded 1NNN counts as an instruction of its own: two interpreter passes |
| Simulation.BlockSimulation | src/libgccjit_jit.c:718-1085 | running the block for an address, from any state whose memory the trace was compiled from, is one or two interpreter passes, and lands on the block for the new program counter or returns with it stored |
| Cadence.SafepointSteady | src/bench_io.c:156-168 | after a safepoint test the next one is due within one period, and the end of the run is announced only when it has come |
| Cadence.BlockKeeps | src/libgccjit_jit.c:747-754 | on every path out of a block at most 33 instructions have retired since the last test, memory is untouched if the trace goes on, and a store to marked bytes has raised the flush |
| Dispatch.StepOk | src/libgccjit_jit.c:1174-1219 | whatever the dispatcher does, every cached trace still is the code for memory unless a flush is pending |
| Dispatch.BlockStepOk | src/libgccjit_jit.c:70-78 | running a block keeps that: a store to a byte code generation read has raised the flush |
| Dispatch.MissOk | src/libgccjit_jit.c:1177-1189 | compiling a trace adds marks and one cache entry and disturbs no other |
| Dispatch.ServicesOk | src/libgccjit_jit.c:1192-1217 | the work between traces changes nothing of the machine, flushes cache and marks exactly when a flush is pending, and stops exactly when the run is over |
| WholeRun.RunOk | src/libgccjit_jit.c:1174-1219 | cache coherence holds in every state of every run |
| WholeRun.StepAgrees | src/libgccjit_jit.c:1174-1219 | one dispatcher step keeps the engine where the interpreter is after the same number of instructions |
| WholeRun.RunAgrees | src/libgccjit_jit.c:1174-1219 | in every state of every run of every program, self-modifying ones included, the JIT is where the interpreter is after as many instructions as the JIT has retired |
| Rerun.PassPolls | src/interp.c:439-458 | a pass of the main loop charges the clock for polls exactly when it executes Fx0A |
| Rerun.RunPrompt | src/libgccjit_jit.c:374-396 | the JIT executes no Fx0A once the interpreter's run is over, unless as its last instruction |
| Rerun.RunsAlike | src/bench_io.c:156-159 | two budgets give the same run as long as no Fx0A can tell them apart |
| Rerun.Reproduced | scripts/bench_diff.py:93-97 | a re-run whose larger budget has room for the overshoot stops with the JIT, in its state |
| Rerun.CutShort | src/bench_io.c:245 | a re-run without that room stops at another count |
| Rerun.LastPass | src/interp.c:439-458 | a budget that is spent in a pass and one that goes on give the same pass, unless it is an Fx0A that polls more than once, which the spent one leaves after one poll without a key |
| Rerun.BenchDiff | scripts/bench_diff.py:93-104 | for every run of the JIT that was stopped, the fields compared are equal exactly when the counts are, or the overshoot fits, or the run was refused in time and not behind an Fx0A whose effect the re-run misses; and then memory, random position and clock are equal too, but for the clock where the re-run cut a wait short |
| Rerun.StopsOnce | src/interp.c:736-742 | the main loop has one stopping point |
| Differential.Compare | scripts/bench_diff.py:79-104 | base run, JIT, re-run if the counts differ, comparison: for every JIT run that stopped with a count the outcome is a match exactly under that condition; one that did not notice the end of its run has an opcode ahead that the interpreter rejects in every state |
| Differential.CompareWaitRom | scripts/bench_diff.py:98-101 | on the ROM of Limits the test reports a divergence |
| WholeRun.ErrorsAgree | src/libgccjit_jit.c:292-296 | the JIT exits with an error exactly when the interpreter's run, to the same count, ends in one |
| WholeRun.RunBounded | src/bench_io.c:156-168 | a run retires at most 64 + 33 + 4096 + 1 instructions past its budget, never more than 33 between two tests, and is finite |
| WholeRun.TraceLength | src/libgccjit_jit.c:711-745 | each address gets at most one block, so no trace is longer than memory |
| WholeRun.StepProgress | src/libgccjit_jit.c:1174-1219 | a measure of retired instructions and dispatcher phase grows with every step |
| Limits.BaseStops | src/bench_io.c:156-159 | four waits for keys and a jump to itself end on the clock cap after 52 instructions |
| Limits.CapDiverges | scripts/bench_diff.py:93-101 | every run of the JIT on that ROM that has ended has retired 64 instructions and noticed the end of its run, and the interpreter re-run to 64 reports something else |
| Codegen.Engine.MarkCode | src/libgccjit_jit.c:62-66 | exactly the n bytes from a on, wrapping, become marked |
| Codegen.Engine.NoteStore | src/libgccjit_jit.c:70-78 | reports a hit exactly when a stored byte, with the same 12-bit wrap, is marked |
| Codegen.Engine.Emit | src/libgccjit_jit.c:756-1082 | the open block is completed, linked or ended as the trace contract demands, and refused exactly on an opcode the interpreter rejects in every state |
| Codegen.Engine.EmitBranch | src/libgccjit_jit.c:798-878 | a skip's second opcode is read, marked and folded when it is a jump |
| Codegen.Engine.Codegen | src/libgccjit_jit.c:564-1119 | terminates; a trace it returns is the code for memory from the program counter on, every byte it read marked, no word of it rejected; a refusal has on its walk, which the interpreter can take, an opcode rejected in every state |
| Codegen.Engine.RunTrace | src/libgccjit_jit.c:1191 | runs a cached trace block by block along the state machine until it returns or fails |
| Codegen.Engine.Service | src/libgccjit_jit.c:1192-1217 | timers, stop condition, flush and key poll as the state machine's service step |
| Codegen.Engine.RunRom | src/libgccjit_jit.c:1174-1219 | the dispatch loop terminates; its run is a run of the state machine; it stops within the bound, either with an opcode ahead that the interpreter rejects in every state or with its run over; and the differential test's verdict on it is settled |
| Idle.IdleWait | src/interp.c:126-136 | the wait ends when the delay runs out or the quit key is down, with the polled register zero, the program counter past the loop and both timers reduced by the same ticks; in the first case in the state the loop ends in |
| Idle.LoopWords | src/idle.h:8-22 | the loop is recognised exactly where the three words Fx07, 3x00 and 1nnn of it stand, with nnn their own address |
| Idle.SpinEnds | src/idle.h:8-22 | run as it stands, the recognised loop leaves after three instructions per timer service and two more, in the same state |
| Idle.ElisionSame | src/interp.c:712-723 | on any two tick schedules on which the delay runs out, spin and elided wait end with equal machine and timers |
| Text.ByteRoundTrip | src/disas.c:343 | a byte printed as 0x%02X and upper-cased is read back by strtoul with base 0 |
| Text.AddressRoundTrip | src/disas.c:334 | an address printed as 0x%03X is read back |
| Text.WordRoundTrip | src/disas.c:301-307 | a word printed as 0x%04X is read back |
| Tokenizing.CommentAt | src/asm.c:43-66 | the tokens of a line with a comment mark: those before it, and those behind it too if the mark ends a token |
| Tokenizing.CommentIgnored | src/asm.c:58-61 | a comment is ignored exactly when its mark does not end a token or nothing but blanks and comments follow |
| Tokenizing.CommentTaken | src/asm.c:58-61 | `CLS;x` has two tokens and is rejected, `CLS ;x` has one |
| AsmEngine.Assembler.SplitLine | src/asm.c:43-66 | the tokenizing loop returns the tokens of the line, upper-cased, or fails on more than 260 |
| AsmEngine.Assembler.DefineLabel | src/asm.c:86-96 | defines a new valid name at the location counter, or fails leaving the table alone |
| AsmEngine.Assembler.ScanLine | src/asm.c:341-353 | one line of the first pass |
| AsmEngine.Assembler.FirstPass | src/asm.c:341-354 | the first pass over the text, line by line as fgets cuts it |
| AsmEngine.Assembler.EmitList | src/asm.c:288-315 | the loop over a `.byte` or `.word` list, which fails at the first operand that does |
| AsmEngine.Assembler.EmitLine | src/asm.c:366-376 | one line of the second pass; what it puts out is spelled by its words |
| AsmEngine.Assembler.SecondPass | src/asm.c:364-379 | the second pass, with the location counter inside memory throughout |
| AsmEngine.Assembler.AssembleText | src/asm.c:325-382 | both passes, every failure included, are the specified assembly of the text, and every line stands in the output as what its operands stand for |
| Output.LineSpelled | src/asm.c:272-323 | value j of a `.byte` line is its byte j, value j of a `.word` line its bytes 2j and 2j + 1, high byte first; an .org is zeros up to its address; an instruction is its opcode, high byte first |
| Output.SpellsOnce | src/asm.c:272-323 | and that determines the bytes |
| Output.AssembledSpelled | src/asm.c:356-379 | in the output of every successful assembly each line stands so, at the address the first pass gave it |
| Output.OrgExact | src/asm.c:276-287 | .org takes exactly the addresses from 0x200 through 0xFFF that are not behind the location counter |
| TwoPass.OrgSettles | src/asm.c:276-287 | `.org` cannot depend on a label still to come: it would read as 0 and be refused |
| TwoPass.LineSettles | src/asm.c:272-323 | a line accepted in the first pass has the same size in the second, where it can only fail on an undefined or out-of-range operand |
| TwoPass.LabelsAreLines | src/asm.c:86-96 | the symbol table holds exactly the labels of the text |
| TwoPass.LabelPlace | src/asm.c:346-351 | a label is the address its own line had |
| TwoPass.TwoPassAgreement | src/asm.c:341-379 | every line has the same address in both passes; every label equals 0x200 plus the output offset of its line; the output length is the final address less 0x200 |
| DisasEngine.Disassembler.MarkLeaders | src/disas.c:73-119 | one word adds exactly the leaders it makes |
| DisasEngine.Disassembler.Analyze | src/disas.c:69-120 | the leader table is exactly the entry point, in-ROM jump and call targets, both sides of skips, and what follows the end of a block |
| DisasEngine.Disassembler.Follow | src/disas.c:171-221 | the successors that may hold code, which are those of the machine, are the one fallen through to and the one pushed |
| DisasEngine.Disassembler.Visit | src/disas.c:161-221 | marking a word and the data it touches keeps class equal to code exactly on reachable bytes |
| DisasEngine.Disassembler.Walk | src/disas.c:157-230 | one path of the descent keeps everything found needed and everything it leads to found or pending, pushing at most one entry per newly marked word |
| DisasEngine.Disassembler.Descend | src/disas.c:150-232 | terminates without overflowing its 2048-entry stack; marks exactly the least set of live words closed under static successors; class is code exactly where reach is set |
| DisasEngine.ReachableClosed | src/disas.c:150-232 | the least such set is itself closed |
| Reached.NextExact | src/disas.c:171-221 | the static successors of a valid word are where the machine can go from it on some state and input, the return address of a call, and the dead side of a comparison of a register with itself |
| Reached.RunReached | src/disas.c:145-149 | every valid word of the ROM that a run comes to, by calls and returns too, is reachable, while it stays on unmodified valid words and computes no jump with V0 other than zero |
| Reached.ExecutedPrinted | src/disas.c:496-510 | so it is printed as the instruction it is, with no remark that it could not be reached |
| Reached.ReachableExact | src/disas.c:150-232 | the reachable words are the least set that holds the entry and follows the machine |
| Reached.MakesExact | src/disas.c:69-120 | a word makes a leader of a word address exactly if it is valid and can lead there elsewhere than to the next word, or ends a block before it |
| Reached.ValidExact | src/disas.c:24-56 | the valid words are those the interpreter accepts in some state, but for 0nnn and comparisons with a low digit |
| DisasEngine.Disassembler.Glue | src/disas.c:242-260 | reachable leaders stay; a dead run keeps a label at its start only |
| DisasEngine.Disassembler.PrintWord | src/disas.c:309-435 | the text of one word: mnemonic and operands, `.word` for what cannot execute, and its comment |
| DisasEngine.Disassembler.Print | src/disas.c:496-522 | the output loop prints the label and word lines of the whole ROM, and the trailing byte of an odd one |
| DisasEngine.Disassembler.DisassembleRom | src/disas.c:438-524 | the program's --asm output is the specified disassembly |
| Gluing.TargetKept | src/disas.c:234-241 | the target of a reachable jump or call keeps its label exactly when it holds a valid instruction or starts its dead run |
| Gluing.AddressKept | src/disas.c:242-260 | an address that reachable code loads into I is printed as a label exactly when it is reachable and starts a block, or starts its dead run |
| Gluing.AddressLost | src/disas.c:385-391 | a ROM whose live LD I refers into the middle of a glued run, where a label was cleared |
| Gluing.TargetLost | src/disas.c:238-239 | a ROM whose live jump points into the middle of a glued run |
| Printed.LineTokens | src/disas.c:286-299 | the tokens of a printed line are its words, upper-cased; its comment adds none |
| Printed.LinesOf | src/asm.c:341 | fgets cuts the printed text into exactly the printed lines |
| Encoding.StatementEncodes | src/disas.c:309-435 | a statement is printed for exactly the valid opcodes, and what is printed encodes back to the opcode once labels are known |
| Encoding.NameOnce | src/disas.c:500 | two addresses never print the same label |
| RoundTrip.WordEncodes | src/disas.c:496-510 | every printed word line assembles to the two bytes it was printed for |
| RoundTrip.ListingPassOne | src/asm.c:341-354 | after k printed words the first pass stands at word k and knows exactly the labels before it, never more than the table holds |
| RoundTrip.PrintedAssembles | src/disas.c:496-522 | whatever the reachability analysis says, the printed text assembles to the bytes it was printed from |
| RoundTrip.ViewWellLed | src/disas.c:60-63 | labels exist only on word addresses of the ROM and on its trailing byte, where the printer puts them |
| RoundTrip.RoundTrip | src/disas.c:438-524 | for every ROM that fits, of any size, with dead words decoded or not, assembling the disassembly succeeds and returns the ROM |
| Converse.DisassembledBack | src/asm.c:134-270 | the other way: every instruction the assembler accepts assembles to a valid opcode that is printed as the same mnemonic and registers, with an operand of the same value (and V0 for the register left out of SHR and SHL) |
| TailCall.RewrittenWord | tools/chip8opt.py:409-411 | JP with the operand of a CALL assembles, exactly when the CALL does, to the opcode 0x1000 lower |
| TailCall.StepMatches | tools/chip8opt.py:400-414 | one step of the original is one step of the rewritten program, or none when it returns to a RET behind a rewritten call |
| TailCall.ErrorMatches | tools/chip8opt.py:400-414 | where the original stops with an error the rewritten program does too, exactly unless that is a call on a full stack which is rewritten or for which the rewritten program has room |
| TailCall.TailCalls | tools/chip8opt.py:400-414 | for runs that leave the sites alone, after n original steps the rewritten program has taken m with m <= n <= 2m and is the same machine with the idle frames erased, its stack no deeper |
| TailCall.TailCallsOnly | tools/chip8opt.py:400-414 | and every state it reaches belongs to a state of the original |
| TailCall.DeepRecursion | tools/chip8opt.py:406-414 | a program that overflows its stack on the seventeenth step and runs forever once rewritten |
| Peephole.SkipLands | tools/chip8opt.py:361-362 | a skip lands equally far ahead in the compacted program: both landing points are kept and nothing between is dropped |
| Peephole.OverwriteExact | tools/chip8opt.py:423-431 | for every pair of loads the rule accepts, dropping the first is right for all machines and inputs exactly when the second loads all the first did without reading it, or the first was a no-op or a load of I; and the same with waits that always end with a key |
| Compaction.OneToOne | tools/chip8opt.py:386-434 | no byte of the data of one program corresponds to two of the other |
| Compaction.StoreCorresponds | tools/chip8opt.py:386-434 | a store through I in both programs keeps corresponding bytes equal |
| Compaction.MovesTogether | tools/chip8opt.py:386-434 | data behind a label moves as the label does while nothing between them is dropped |
| Compaction.StepRelated | tools/chip8opt.py:386-434 | one step of the original is one step of the compacted program, or none when the statement was dropped |
| Compaction.Preserved | tools/chip8opt.py:370-434 | a run over instruction statements, drawing, loading and storing data that moved as I did, is preserved under the address map: same display and timer settings, corresponding return stack and data, matching registers and I |
| OptimizedRun.StepErrors | tools/chip8opt.py:386-434 | at a statement that is kept the compacted program stops with an error exactly when the original does; at a dropped one neither does |
| OptimizedRun.ErrorsPreserved | tools/chip8opt.py:386-434 | a run of the original ends in an error exactly when the run of the compacted program, fed the inputs of the statements that are left, does, at the same statement |
| OptimizedRun.PlannedTurns | tools/chip8opt.py:409-411 | what the loop turns from CALL to JP is an assembled 2nnn with 00EE right behind it |
| OptimizedRun.OptimizedWords | tools/chip8opt.py:386-434 | in the optimized program every statement that is left is the word it assembles to under the edit, 0x1000 lower where its CALL was turned |
| OptimizedRun.SafeStep | tools/chip8opt.py:400-414 | no step of the compacted program starts inside a turned call, reads its changed byte, or writes to it or its RET |
| OptimizedRun.Optimized | tools/chip8opt.py:370-434 | compaction and tail calls composed: after any such run of the source the program that is returned, having taken a step for each kept statement except the returns it does not need, has the compacted program's state with the idle frames erased, which is the source's state under the address map, its stack no deeper |
| OptimizedRun.OptimizedErrors | tools/chip8opt.py:370-434 | where the source stops with an error, the returned program has taken the same steps and stops too, exactly unless that is a call on a full stack that was turned or for which it has room |
| Rebuilt.NewWord | tools/chip8opt.py:386-434 | every instruction that is returned, with its folded constant, its JP for CALL, or as it was, assembles under the labels where they then stand, to exactly the word the run theorems have at its place |
| Rebuilt.DataMoved | tools/chip8opt.py:432-433 | a data list assembles under the new labels to as many bytes, the same but for a label in the last place |
| Rebuilt.LoadedRebuilt | tools/chip8opt.py:400-434 | memory in which the returned source stands as it is assembled is, with the calls put back, memory in which the compacted program of the run theorems stands |
| Rebuilt.DataSame | tools/chip8opt.py:386-434 | corresponding data bytes of the two assembled programs are equal at the start |
| Canonical.Canonicalize | tools/chip8opt.py:437-445 | prints a label line for every label and a line for every operation, of the statements that are left |
| Canonical.InstructionEarly | src/asm.c:341-353 | what is accepted with all labels known is accepted in the first pass, which knows only some |
| Canonical.FirstPass | src/asm.c:341-354 | the first pass over the printed lines succeeds, with every label at the new place of its statement |
| Canonical.TextAssembles | tools/chip8opt.py:437-445 | the printed text, cut into lines by the assembler, assembles to the bytes of the statements that are left |
| Returned.CanonicalKept | tools/chip8opt.py:437-445 | canonicalize keeps the program: printed as it is, a source assembles to its own bytes |
| Returned.OwnBytes | tools/chip8opt.py:437-445 | which are, statement by statement, those its own words assemble to |
| Returned.ReturnedAssembles | tools/chip8opt.py:370-434 | the optimizer's text assembles, to a ROM two bytes shorter for every statement dropped |
| Returned.EndToEnd | tools/chip8opt.py:370-445 | after any run of the source's ROM that keeps to its statements, the ROM of the returned text, fed some of the same inputs in the same order, has the same display and timer settings, registers, I and data that correspond, no deeper stack, and is at the same statement or at a RET |
| Returned.EndToEndErrors | tools/chip8opt.py:370-445 | where the source's ROM stops with an error the returned one does too, exactly unless that is a call on a full stack that was turned or for which it has room |
| Returned.SymbolizedGrown | tools/chip8opt.py:283-318 | symbolization extends the label table by exactly the labels it puts into the source, each once |
| Returned.SymbolizedReady | tools/chip8opt.py:283-318 | the symbolized source, printed, assembles to the ROM of the source |
| Returned.OptimizeText | tools/chip8opt.py:479-484 | the optimize command: unless it refuses, its text is that of a planned edit of the symbolized source; for a source without signed numbers, generated names in use or a label I, it assembles to that many bytes less, and, if the overwritten loads are of the right kind, its ROM follows the ROM of the source on every such run |
| Returned.MovedFit | tools/chip8opt.py:332-350 | the program of Missed.MissedReadMoves meets all that is asked of a source |
| Returned.MovedTexts | tools/chip8opt.py:214-224 | and the ROMs of its two texts differ: 0xF0 in V0 after the read, and 0x12 |
| Numbers.NumbersAgree | tools/chip8opt.py:59-68 | a number the assembler accepts is the same to the optimizer exactly when it has no sign, or one that cannot matter |
| Numbers.ZeroAgrees | tools/chip8opt.py:417-418 | what the optimizer takes for zero is zero to the assembler, signed or not |
| Numbers.AlikeExact | tools/chip8opt.py:111-118 | an operand that has a value resolves to it exactly when it is a label or such a number |
| Numbers.ReadOtherwise | tools/chip8opt.py:59-68 | `+010` is 8 to the assembler and 10 to the optimizer, `+0X300` is 0x300 and none |
| Parsing.TokensAgree | tools/chip8opt.py:53-56 | on lines without odd white space the optimizer finds the assembler's words exactly when the first comment mark does not touch a word or nothing but blanks and comments follow |
| Parsing.ByteTaken | tools/chip8opt.py:53-56 | `.byte 1;2` has one value to the optimizer and two to the assembler |
| Parsing.SizesAgree | tools/chip8opt.py:89-104 | a statement of the assembler's first pass has the size the optimizer gives it exactly when the address of an .org is a plain number |
| Parsing.LineAgrees | tools/chip8opt.py:71-108 | for a line with the same words that the first pass accepts, the optimizer comes to the same address and labels exactly under that condition |
| Parsing.LayoutAgrees | tools/chip8opt.py:71-108 | so it gives every statement of a text the address, and every label the value, of the first pass, if the conditions hold on every line |
| Statements.Classified | tools/chip8opt.py:208-267 | every statement the assembler accepts is read without an exception; it is read as what it assembles to (the same control flow, and a record of the same bytes at I, except for LD Vx, [I]) exactly when the operand this depends on, if any, is a label or a plain number |
| Statements.JumpMisread | tools/chip8opt.py:125-147 | `JP +0X300` assembles to 0x1300 and is an unresolved jump to the analysis |
| Analysis.Explore | tools/chip8opt.py:200-269 | the worklist terminates; its table holds the entry and is closed under the transfer function; reachable addresses, edges, accesses and hazards are exactly what its contexts show |
| Analysis.Analyze | tools/chip8opt.py:179-280 | and the hazards of writes into the ROM are exactly those of the recorded writes with known bounds |
| Analysis.RomWritten | tools/chip8opt.py:272-279 | a write into the ROM is reported exactly where a recorded write with known bounds has a byte in it, a self-modifying one where it has a reachable statement |
| Analysis.MergeOk | tools/chip8opt.py:260-269 | merging a state keeps every other context closed and either changes nothing or loses a context still to meet or a constant still known |
| Analysis.Recorded | tools/chip8opt.py:166-176 | exactly the reachable statements that ask for it have a record, but for those at which I is in the font on every way; an unknown I is noticed exactly where one of them is reached with it |
| Analysis.EdgesExact | tools/chip8opt.py:258-262 | an edge is reported exactly where some context leads along it |
| Analysis.ControlHazards | tools/chip8opt.py:125-147 | computed and unresolved jumps, unresolved calls and calls with a full stack are reported exactly where a context meets them |
| Constants.TransitionPossible | tools/chip8opt.py:125-147 | every transition of a context is one the machine makes with some registers, but for the dead side of a comparison of a register with itself |
| Constants.ClassifiedSpeaks | tools/chip8opt.py:208-244 | an accepted statement is read with the registers and the constant of its opcode, if its last operand is a label or a plain number and no label K or DT is in the way |
| Constants.LabelMistaken | tools/chip8opt.py:216 | with a label K, LD Vx, K is read as a load of its address |
| Constants.TransferExact | tools/chip8opt.py:205-244 | of a machine that has the constants claimed, the next state has those claimed after the statement exactly unless VF was set, a register below Vx was loaded from memory, or something was added to I in the font |
| Constants.TransferKnows | tools/chip8opt.py:205-239 | where its operands are known the analysis knows the result, and it forgets nothing the instruction leaves alone |
| Constants.JoinGreatest | tools/chip8opt.py:195-198 | a join claims all that both sides claim |
| Constants.ConstantsHold | tools/chip8opt.py:179-269 | along every run over statements that leave no such claim standing, what the table claims of a context holds of the machine |
| Constants.RecordRight | tools/chip8opt.py:166-176 | so where an access is recorded with a known start, I is there |
| Constants.RecordShape | tools/chip8opt.py:166-176 | a record has the direction and length of the access, and the base of an offset |
| Constants.TouchesData | tools/chip8opt.py:219-241 | the bytes a record is asked for are those the instruction reads or writes |
| Constants.FlagKept | tools/chip8opt.py:236-239 | after LD VF, 5; ADD V0, V1 the analysis claims 5 in VF, and no machine has it |
| Analysis.LoadUnrecorded | tools/chip8opt.py:214-224 | LD Vx, [I] has no record in any program, and an unknown I is not noticed at it, though it assembles to an opcode that reads at I |
| Analysis.Covered | tools/chip8opt.py:179-269 | every program counter and return stack that a run reaches, while on unmodified instruction statements and without computed jumps, is a context of the table |
| Analysis.OverflowReported | tools/chip8opt.py:251-253 | a run that overflows the stack does so at a reported call |
| Analysis.SameFailures | tools/chip8opt.py:400-414 | with no deep call reported, the program with its tail calls rewritten stops with an error exactly when the original does |
| Optimizer.IsProtected | tools/chip8opt.py:353-363 | decides whether an address must stay an instruction boundary |
| Optimizer.Optimize | tools/chip8opt.py:386-434 | the index loop, looking only at words, makes exactly the planned edit; everything it drops, folds or turns is one that its textual rules name, unprotected where it drops |
| Optimizer.SameOperandsExact | tools/chip8opt.py:415-418 | for an accepted `LD a, a`, deleting it changes no machine exactly when a is not I |
| Optimizer.AddsZeroOp | tools/chip8opt.py:417-418 | an accepted `ADD Vx` of what the optimizer reads as zero assembles to the addition of zero |
| Optimizer.FoldsOps | tools/chip8opt.py:391-396 | two accepted statements that the loop merges assemble to 6xkk and 7xkk with the same x, and for plain numbers the merged constant is the sum of the two bytes |
| Optimizer.FoldExact | tools/chip8opt.py:395-396 | a merged load has the effect of the load and the addition on every machine exactly when its constant is the sum of the assembled ones |
| Optimizer.OverwrittenOps | tools/chip8opt.py:423-431 | two accepted statements of the overwritten-load rule assemble to two loads of the same place, the first not from K |
| Rules.OverwriteRule | tools/chip8opt.py:423-427 | of accepted statements the overwritten-load rule takes exactly those that assemble to two loads of one place, the first not from the keyboard and not LD I, K |
| Rules.NoOpRule | tools/chip8opt.py:415-418 | the no-op rule takes exactly LD I, I, 8xx0, and 7x00 whose zero is read |
| Rules.FoldRule | tools/chip8opt.py:391-394 | the folding rule takes exactly a 6xkk and a 7xkk of one register whose constants are both read |
| Rules.TailRule | tools/chip8opt.py:409-410 | the tail-call rule takes exactly a 2nnn whose target is resolved before a 00EE |
| Rules.LoopTreats | tools/chip8opt.py:386-434 | the loop, at a glance: it folds where it can and does not look again at what it folded away; else it turns a tail call; else it drops a free no-op or overwritten load; it does nothing else |
| Optimizer.PlannedLegal | tools/chip8opt.py:386-434 | for an accepted source, what the loop does is allowed by the assembled statements exactly when every merged constant is the sum of the assembled ones and no `LD I, I` is dropped but before another load of I |
| Optimizer.PlainLegal | tools/chip8opt.py:386-434 | so it always is in a source without a label I and without signed numbers |
| Optimizer.LoadLost | tools/chip8opt.py:415-431 | a program whose load is dropped although its value is still there after the original |
| Optimizer.IndexLost | tools/chip8opt.py:415-422 | an accepted program with a label I from which `LD I, I` is dropped, which loads I with 0x208 |
| Optimizer.SumLost | tools/chip8opt.py:391-399 | an accepted program whose constants 8 and 8 are merged to 20 |
| Relocate.Symbolize | tools/chip8opt.py:283-318 | the two loops give every address of a statement that a JP, CALL or LD I is read to name by number a label (the first the source has there, or a new one), and every last operand read as that number the label; the label table grows accordingly |
| Relocate.ExtendedHas | tools/chip8opt.py:301-310 | the new table keeps every old label's value and gives every label put in place of a number that number, unless the source already uses a generated name |
| Relocate.AddressingOp | tools/chip8opt.py:292-293 | among accepted instructions JP, CALL and LD I are those with an address in the opcode, which is the value of the last operand |
| Relocate.SmallStaysSmall | tools/chip8opt.py:313-316 | what the assembler reads as a byte the optimizer never reads as an address in the ROM, signed or not |
| Relocate.SymbolizedAssembles | tools/chip8opt.py:283-318 | for a source without signed numbers that uses no generated name, the assembler accepts what symbolization makes of it, with the new table, and puts the same bytes at the same addresses |
| Relocate.FixedExact | tools/chip8opt.py:332-350 | an accepted source without signed numbers may be laid out anew exactly when it holds no .ORG and no numeric in-ROM address |
| Relocate.RefersExact | tools/chip8opt.py:59-68 | the optimizer reads the address that a numeric operand assembles to exactly when it is a plain number |
| Refusal.ReadAll | tools/chip8opt.py:150-151 | the analysis is given the instruction statements by address, each as its branches read its words |
| Refusal.SymbolizedFixed | tools/chip8opt.py:283-350 | after symbolization a source has a fixed layout exactly if it had an .org or a numeric address inside the ROM at which no statement starts |
| Refusal.BlockedExact | tools/chip8opt.py:337-340 | the hazards stop compaction exactly if a recorded write with known bounds lands on a reachable statement, a computed jump is reached, or memory is touched at a statement through an unknown I and never through an offset from a known base |
| Refusal.OptimizeSource | tools/chip8opt.py:370-434 | symbolizes, analyzes the statements as their words are read, refuses exactly in those cases, and otherwise runs the loop, which drops nothing at or behind a dynamic base; of a source without signed numbers and generated names only what may be laid out anew is compacted, and without a label I only by edits the assembled statements allow |
| Missed.OptimizeQuiet | tools/chip8opt.py:332-350 | a source that names no address by number and touches no memory the analysis records is not refused, nothing of it is pinned, and the edit is that of the loop alone |
| Missed.OptimizeMoved | tools/chip8opt.py:332-350 | a program that reads through an unknown I by LD V0, [I] is accepted and loses a statement |
| Missed.MissedReadMoves | tools/chip8opt.py:214-224 | and then reads another byte: V0 is 0xF0 in the original and 0x12 in the compacted program |
| Missed.AddressMissed | tools/chip8opt.py:286-297 | a program with `LD I, +0X206` is neither symbolized nor refused, loses a statement, and its operand stays while the byte it names moves |
| Missed.OptimizeStays | tools/chip8opt.py:332-350 | and the whole optimizer does so |
| Missed.OptimizeSigned | tools/chip8opt.py:391-399 | the whole optimizer accepts the program of Optimizer.SumLost and merges 8 and 8 to 20 |
| Aot.Emitter.Regptr | src/aot.c:22-29 | the register's pointer is emitted once per block |
| Aot.Emitter.Loadreg | src/aot.c:31-39 | the register's value is loaded once per block |
| Aot.Emitter.Block | src/aot.c:41-121 | the emitted block is the specified code for the word |
| Aot.Emitter.Program | src/aot.c:148-162 | for a ROM of even, nonzero size there is a block for exactly the word addresses of the ROM, each the code for its word |
| Aot.BlockCorrect | src/aot.c:41-121 | every block defines each name once and before use, leaves the machine as the interpreter does or sends it to the exit, and sends the same timer settings |
| Aot.SupportedExact | src/aot.c:41-121 | the words this covers are those the interpreter accepts in some state, but for the wait for a key |
| Aot.RejectedGoesOn | src/aot.c:91-93 | at a word the interpreter rejects in every state the compiled program goes on, doing nothing or skipping as Ex9E does |
| Aot.AotRuns | src/aot.c:157-162 | k dispatches are k interpreter steps, timer settings included, while the program stays on compiled, supported, unmodified words |
| Aot.AotErrors | src/aot_runtime.c:99-116 | where the interpreter fails the dispatcher leaves by an address without a block |

## Left out

* libgccjit and LLVM themselves: emitted blocks are executed as written; optimization passes, symbol lookup and release of results have no counterpart.
* `src/llvm_jit.cpp` has no model of its own; its trace builder makes the same decisions as the one modelled.
* Interactive mode except for idle elision: wall clock, SIGALRM, ncurses, key-history rings, `usleep`.
* Lowering.EndCorrect: the quit-key branch of Fx0A cannot be taken under BENCH and is not modelled.
* Code generation beyond address 0xFFF: `pc_block` is indexed out of bounds there and C gives it no meaning.
* A BENCH run whose 64-bit counters wrap around.
* The disassembler's prose output, its region report, the self-modification warning (`src/disas.c:132-143`) and the class of bytes that stay unknown (`src/disas.c:490-493`), none of which the assembler text depends on.
* Labels longer than the 127 characters the C table holds; the C code overruns its buffer there.
* Partial output: the C assembler has already written the bytes before the line it fails on.
* Constants.ConstantsHold: of an offset from a base nothing is claimed but that it is one; the reasons in the records are not kept.
* TailCall.TailCalls: the sites are given as addresses of `2nnn` words followed by `00EE`, not as statements; OptimizedRun ties them to the statements.
* Compaction.Preserved: an overwritten load dropped before `LD Vx, Vx`, before `LD Vx, K` without a key, or, itself `LD Vx, [I]`, before a load of Vx alone, and data read at an address that moved otherwise than I did, are outside it; Optimizer.LoadLost and Missed.MissedReadMoves show what then happens.
* Returned.EndToEnd: labels in a data list other than the last, signed numbers, a source whose symbolized text has lines of more than 1022 characters, and an empty source, are outside it.
* OptimizedRun.Optimized: its premises are those of Compaction.Preserved; that the overwritten loads are of the right kind is not something the optimizer checks.
* Relocate.SymbolizedAssembles: a source that already uses a generated name, such as ADDR208, for another address is outside it; the assembler refuses the duplicate label.
* Refusal.OptimizeSource: the text of the refusal is not kept, nor is its change list modelled.
* Parsing.TokensAgree: characters outside ASCII, NUL, and the few control characters that only Python takes for white space or for the end of a line are outside it; lines are those fgets cuts.
* Aot.AotRuns: words the interpreter rejects are outside it (Aot.RejectedGoesOn says what becomes of them), and so is Fx0A, whose polling depends on wall-clock time.
* Argument parsing, file errors, benchmark reporting and the Python scripts.
