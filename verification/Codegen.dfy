/** The JIT engine in its own, imperative form: marking of code bytes, code
    generation, execution of traces and the dispatch loop. Each method is proved
    against the state machine of module Dispatch. */
module Codegen {
  import opened Chip8
  import opened Bench
  import opened Interp
  import opened Trace
  import opened TraceSpec
  import opened Simulation
  import opened Dispatch
  import opened WholeRun
  import opened Rerun
  import Supported

  /** What codegen returns: a trace, NULL at an unsupported opcode, or nothing
      defined once it indexes pc_block outside memory. */
  datatype Compiled = Code(t: Trace) | Bail(at: address) | OutOfRange(pc: int)

  function Snapshots(ops: seq<Op>): nat
  {
    if ops == [] then 0 else (if ops[0].Snap? then 1 else 0) + Snapshots(ops[1..])
  }

  // --------------------------------------------- blocks as they are completed

  lemma {:induction false} EmittedGrow(pcs: seq<address>, k: nat, x: address)
    requires k <= |pcs|
    ensures forall q: int :: Emitted(pcs + [x], k, q) == Emitted(pcs, k, q)
  {
    var more := pcs + [x];
    assert forall i :: 0 <= i < k ==> more[i] == pcs[i];
  }

  /** Later blocks do not disturb a finished one. */
  lemma {:induction false} BlockGrow(mem: Memory, pcs: seq<address>, k: nat, b: Block, x: address)
    requires k < |pcs| && BlockOk(mem, pcs, k, b)
    ensures BlockOk(mem, pcs + [x], k, b)
  {
    hide Lower, OpAt, Head, Landing, Top, NNN, Emitted;
    var more, pc: int := pcs + [x], pcs[k];
    EmittedGrow(pcs, k + 1, x);
    match Lower(OpAt(mem, pc), pc, b.local)
    case Inline(ops) =>
      assert ContinuesAt(more, k, b, Head(k) + Plain(ops), pc + 2);
    case Jump(q) =>
      assert JumpsTo(more, k, b, q);
    case Branch(cond) =>
      var els, exit :| NotTaken(mem, pcs, k, els, exit)
        && ContinuesAt(pcs, k, b, Head(k) + [Unless(cond, els, exit), Do(SetPc(Const(pc + 4)))], pc + 4);
      assert NotTaken(mem, more, k, els, exit);
      assert ContinuesAt(more, k, b, Head(k) + [Unless(cond, els, exit), Do(SetPc(Const(pc + 4)))], pc + 4);
    case _ =>
  }

  /** The block being emitted, `code` so far, will be right once it is linked to
      the next address `q`, new or already compiled. */
  ghost predicate OpenOk(mem: Memory, pcs: seq<address>, local: nat, code: seq<Piece>, q: int)
    requires |pcs| > 0
  {
    var k := |pcs| - 1;
    && (0 <= q < 0x1000 && !Emitted(pcs, k + 1, q) ==> BlockOk(mem, pcs + [q], k, Block(pcs[k], local, code, Fall)))
    && forall i :: 0 <= i <= k && pcs[i] == q ==> BlockOk(mem, pcs, k, Block(pcs[k], local, code + Landing(q), Close(i)))
  }

  lemma {:induction false} InlineOpen(mem: Memory, pcs: seq<address>, local: nat, ops: seq<Op>)
    requires |pcs| > 0
    requires var pc := pcs[|pcs| - 1]; Lower(OpAt(mem, pc), pc, local) == Inline(ops)
    ensures var pc: int := pcs[|pcs| - 1]; OpenOk(mem, pcs, local, Head(|pcs| - 1) + Plain(ops), pc + 2)
  {
    hide Lower, OpAt, Head, Landing;
    var k, pc: int := |pcs| - 1, pcs[|pcs| - 1];
    var q, code := pc + 2, Head(k) + Plain(ops);
    if q < 0x1000 && !Emitted(pcs, k + 1, q) {
      EmittedGrow(pcs, k + 1, q);
      assert ContinuesAt(pcs + [q], k, Block(pc, local, code, Fall), code, q);
    }
    forall i | 0 <= i <= k && pcs[i] == q
      ensures BlockOk(mem, pcs, k, Block(pc, local, code + Landing(q), Close(i)))
    {
      assert Emitted(pcs, k + 1, q);
      assert ContinuesAt(pcs, k, Block(pc, local, code + Landing(q), Close(i)), code, q);
    }
  }

  lemma {:induction false} BranchOpen(mem: Memory, pcs: seq<address>, local: nat, cond: Cond, els: seq<Op>, exit: Term)
    requires |pcs| > 0
    requires var pc := pcs[|pcs| - 1]; Lower(OpAt(mem, pc), pc, local) == Branch(cond)
    requires NotTaken(mem, pcs, |pcs| - 1, els, exit)
    ensures
      var pc: int := pcs[|pcs| - 1];
      OpenOk(mem, pcs, local, Head(|pcs| - 1) + [Unless(cond, els, exit), Do(SetPc(Const(pc + 4)))], pc + 4)
  {
    hide Lower, OpAt, Head, Landing, Top, NNN;
    var k, pc: int := |pcs| - 1, pcs[|pcs| - 1];
    var q, code := pc + 4, Head(k) + [Unless(cond, els, exit), Do(SetPc(Const(pc + 4)))];
    if q < 0x1000 && !Emitted(pcs, k + 1, q) {
      EmittedGrow(pcs, k + 1, q);
      assert NotTaken(mem, pcs + [q], k, els, exit);
      assert ContinuesAt(pcs + [q], k, Block(pc, local, code, Fall), code, q);
    }
    forall i | 0 <= i <= k && pcs[i] == q
      ensures BlockOk(mem, pcs, k, Block(pc, local, code + Landing(q), Close(i)))
    {
      assert Emitted(pcs, k + 1, q);
      assert ContinuesAt(pcs, k, Block(pc, local, code + Landing(q), Close(i)), code, q);
    }
  }

  lemma {:induction false} JumpOpen(mem: Memory, pcs: seq<address>, local: nat, q: address)
    requires |pcs| > 0 && |pcs| - 1 < JUMP_LIMIT
    requires var pc := pcs[|pcs| - 1]; Lower(OpAt(mem, pc), pc, local) == Jump(q)
    requires !Emitted(pcs, |pcs|, q)
    ensures OpenOk(mem, pcs, local, Head(|pcs| - 1) + Landing(q), q)
  {
    hide Lower, OpAt, Head, Landing;
    var k, pc: int := |pcs| - 1, pcs[|pcs| - 1];
    EmittedGrow(pcs, k + 1, q);
    assert JumpsTo(pcs + [q], k, Block(pc, local, Head(k) + Landing(q), Fall), q);
  }

  lemma {:induction false} JumpClosed(mem: Memory, pcs: seq<address>, local: nat, q: address, exit: Term)
    requires |pcs| > 0
    requires var pc := pcs[|pcs| - 1]; Lower(OpAt(mem, pc), pc, local) == Jump(q)
    requires if Emitted(pcs, |pcs|, q) then Closes(pcs, |pcs| - 1, exit, q) else exit == Return && |pcs| > JUMP_LIMIT
    ensures var k := |pcs| - 1; BlockOk(mem, pcs, k, Block(pcs[k], local, Head(k) + Landing(q), exit))
  {
    hide Lower, OpAt, Head, Landing;
    var k := |pcs| - 1;
    assert JumpsTo(pcs, k, Block(pcs[k], local, Head(k) + Landing(q), exit), q);
  }

  /** All blocks but the open one are finished. */
  ghost predicate Finished(mem: Memory, pcs: seq<address>, blocks: seq<Block>)
  {
    |blocks| <= |pcs| && forall k :: 0 <= k < |blocks| ==> BlockOk(mem, pcs, k, blocks[k])
  }

  lemma {:induction false} FinishedGrow(mem: Memory, pcs: seq<address>, blocks: seq<Block>, x: address)
    requires Finished(mem, pcs, blocks)
    ensures Finished(mem, pcs + [x], blocks)
  {
    forall k | 0 <= k < |blocks| ensures BlockOk(mem, pcs + [x], k, blocks[k]) {
      BlockGrow(mem, pcs, k, blocks[k], x);
    }
    hide BlockOk;
  }

  lemma {:induction false} FinishedTrace(mem: Memory, pcs: seq<address>, t: Trace)
    requires Finished(mem, pcs, t) && |t| == |pcs| > 0 && Distinct(pcs)
    ensures TraceOk(mem, t) && Pcs(t) == pcs
  {
    hide Lower, ContinuesAt, JumpsTo, Branches, OpAt;
    assert forall k :: 0 <= k < |t| ==> BlockOk(mem, pcs, k, t[k]) && t[k].pc == pcs[k];
    assert Pcs(t) == pcs;
  }

  /** pc_block: the block each address was emitted into, -1 for none. */
  ghost predicate Indexes(pcBlock: seq<int>, pcs: seq<address>)
  {
    && |pcBlock| == 0x1000
    && forall a :: 0 <= a < 0x1000 ==>
      if pcBlock[a] >= 0 then pcBlock[a] < |pcs| && pcs[pcBlock[a]] == a else a !in pcs
  }

  lemma {:induction false} IndexGrow(pcBlock: seq<int>, pcs: seq<address>, x: address)
    requires Indexes(pcBlock, pcs) && Distinct(pcs) && pcBlock[x] < 0
    ensures Indexes(pcBlock[x := |pcs|], pcs + [x]) && Distinct(pcs + [x])
  {
    var more := pcs + [x];
    assert forall i :: 0 <= i < |pcs| ==> more[i] == pcs[i] && pcs[i] in pcs;
  }

  lemma {:induction false} IndexEmitted(pcBlock: seq<int>, pcs: seq<address>, q: address)
    requires Indexes(pcBlock, pcs)
    ensures Emitted(pcs, |pcs|, q) <==> pcBlock[q] >= 0
  {
    assert Emitted(pcs, |pcs|, q) <==> q in pcs;
  }

  // ------------------------------------------------------------- code bytes

  /** `code` after the `n` bytes from `a` on have been marked. */
  function Marking(code: seq<bool>, a: int, n: nat): (r: seq<bool>)
    requires |code| == 0x1000
    ensures |r| == 0x1000
  {
    seq(0x1000, b requires 0 <= b < 0x1000 => code[b] || Offset(b, a) < n)
  }

  lemma {:induction false} MarkingGrows(code: seq<bool>, a: int, n: nat)
    requires |code| == 0x1000 && n <= 0x1000
    ensures Grows(code, Marking(code, a, n))
    ensures n > 1 ==> Marking(code, a, n)[Wrap(a)] && Marking(code, a, n)[Wrap(a + 1)]
  {}

  /** What is left of a Marked address under more marks. */
  lemma {:induction false} MarkedGrow(a: seq<bool>, b: seq<bool>, mem: Memory, pcs: seq<address>)
    requires Grows(a, b) && forall k :: 0 <= k < |pcs| ==> Marked(a, mem, pcs[k])
    ensures forall k :: 0 <= k < |pcs| ==> Marked(b, mem, pcs[k])
  {
    hide OpAt, IsCompare;
    forall k | 0 <= k < |pcs| ensures Marked(b, mem, pcs[k]) {
      assert Marked(a, mem, pcs[k]);
    }
  }

  lemma {:induction false} GrowsTrans(a: seq<bool>, b: seq<bool>, c: seq<bool>)
    requires Grows(a, b) && Grows(b, c)
    ensures Grows(a, c)
  {}

  // ------------------------------------------------ states of code generation

  ghost predicate MarkedAll(marks: seq<bool>, mem: Memory, pcs: seq<address>)
  {
    |marks| == 0x1000 && forall k :: 0 <= k < |pcs| ==> Marked(marks, mem, pcs[k])
  }

  /** About to compile `pc`: `walk` is compiled, its last block still open. */
  ghost predicate Building(mem: Memory, from: int, walk: seq<address>, blocks: Trace, local: nat, code: seq<Piece>, pc: int,
                           marks: seq<bool>, index: seq<int>)
  {
    && |blocks| == (if walk == [] then 0 else |walk| - 1)
    && Finished(mem, walk, blocks) && Distinct(walk) && Indexes(index, walk)
    && Walked(mem, walk, from, pc) && MarkedAll(marks, mem, walk)
    && (walk != [] ==> OpenOk(mem, walk, local, code, pc))
  }

  /** Compiling the last address of `walk`, whose block is open. */
  ghost predicate Opened(mem: Memory, from: int, walk: seq<address>, blocks: Trace, marks: seq<bool>, index: seq<int>)
  {
    && |walk| > 0 && |blocks| == |walk| - 1
    && Finished(mem, walk, blocks) && Distinct(walk) && Indexes(index, walk)
    && var before, pc: int := walk[..|walk| - 1], walk[|walk| - 1];
       && Walked(mem, before, from, pc) && MarkedAll(marks, mem, before)
       && marks[Wrap(pc)] && marks[Wrap(pc + 1)]
  }

  /** A finished trace, every byte it was compiled from marked. */
  ghost predicate Complete(mem: Memory, from: int, walk: seq<address>, t: Trace, marks: seq<bool>)
  {
    && |t| > 0 && t[0].pc == from && TraceOk(mem, t) && Pcs(t) == walk
    && |marks| == 0x1000 && AllMarked(marks, mem, t)
  }

  lemma {:induction false} BuildingMarks(mem: Memory, from: int, walk: seq<address>, blocks: Trace, local: nat, code: seq<Piece>,
                                         pc: int, marks: seq<bool>, index: seq<int>, more: seq<bool>)
    requires Building(mem, from, walk, blocks, local, code, pc, marks, index) && Grows(marks, more)
    ensures Building(mem, from, walk, blocks, local, code, pc, more, index)
  {
    hide Finished, Distinct, Indexes, Walked, OpenOk;
    MarkedGrow(marks, more, mem, walk);
  }

  lemma {:induction false} OpenedMarks(mem: Memory, from: int, walk: seq<address>, blocks: Trace, marks: seq<bool>, index: seq<int>,
                                       more: seq<bool>)
    requires Opened(mem, from, walk, blocks, marks, index) && Grows(marks, more)
    ensures Opened(mem, from, walk, blocks, more, index)
  {
    hide Finished, Distinct, Indexes, Walked;
    MarkedGrow(marks, more, mem, walk[..|walk| - 1]);
  }

  /** The trace is complete once its last block is. */
  lemma {:induction false} Completes(mem: Memory, from: int, walk: seq<address>, t: Trace, marks: seq<bool>)
    requires |walk| > 0 && |t| == |walk| && Finished(mem, walk, t) && Distinct(walk) && walk[0] == from
    requires MarkedAll(marks, mem, walk)
    ensures Complete(mem, from, walk, t, marks)
  {
    hide Distinct, TraceOk, BlockOk, Marked;
    FinishedTrace(mem, walk, t);
    assert forall k :: 0 <= k < |t| ==> t[k].pc == Pcs(t)[k];
  }

  lemma {:induction false} FinishedOne(mem: Memory, walk: seq<address>, blocks: Trace, b: Block)
    requires Finished(mem, walk, blocks) && |blocks| < |walk| && BlockOk(mem, walk, |blocks|, b)
    ensures Finished(mem, walk, blocks + [b])
  {
    hide BlockOk;
  }

  /** Falling onto an address already compiled closes the loop. */
  lemma {:induction false} BuildingClosed(mem: Memory, from: int, walk: seq<address>, blocks: Trace, local: nat, code: seq<Piece>,
                                          pc: address, marks: seq<bool>, index: seq<int>)
    requires Building(mem, from, walk, blocks, local, code, pc, marks, index) && index[pc] >= 0
    ensures |walk| > 0
    ensures Complete(mem, from, walk,
      blocks + [Block(walk[|walk| - 1], local, code + Landing(pc), Close(index[pc]))], marks)
  {
    hide BlockOk, Distinct, MarkedAll, Landing;
    var b := Block(walk[|walk| - 1], local, code + Landing(pc), Close(index[pc]));
    assert BlockOk(mem, walk, |walk| - 1, b);
    FinishedOne(mem, walk, blocks, b);
    assert walk[0] == from;
    Completes(mem, from, walk, blocks + [b], marks);
  }

  /** A new address links the open block to the block now begun. */
  lemma {:induction false} BuildingOpens(mem: Memory, from: int, walk: seq<address>, blocks: Trace, local: nat, code: seq<Piece>,
                                         pc: address, marks: seq<bool>, index: seq<int>)
    requires Building(mem, from, walk, blocks, local, code, pc, marks, index) && index[pc] < 0
    requires marks[Wrap(pc)] && marks[Wrap(pc + 1)]
    ensures
      var sealed := if walk == [] then blocks else blocks + [Block(walk[|walk| - 1], local, code, Fall)];
      Opened(mem, from, walk + [pc], sealed, marks, index[pc := |walk|])
  {
    hide BlockOk, MarkedAll;
    IndexGrow(index, walk, pc);
    FinishedGrow(mem, walk, blocks, pc);
    assert (walk + [pc])[..|walk|] == walk;
    if walk != [] {
      var b := Block(walk[|walk| - 1], local, code, Fall);
      IndexEmitted(index, walk, pc);
      assert BlockOk(mem, walk + [pc], |walk| - 1, b);
      FinishedOne(mem, walk + [pc], blocks, b);
    }
    hide Finished, Distinct, Indexes, Walked;
  }

  /** The kind of an instruction and its target do not depend on the locals. */
  lemma {:induction false} LowerLocal(op: word, pc: address, k: nat, i: nat)
    ensures Lower(op, pc, k).Inline? <==> Lower(op, pc, i).Inline?
    ensures Lower(op, pc, k).Unsupported? <==> Lower(op, pc, i).Unsupported?
    ensures Lower(op, pc, k).Jump? ==> Lower(op, pc, k) == Lower(op, pc, i)
    ensures Lower(op, pc, k).Branch? ==> Lower(op, pc, k) == Lower(op, pc, i)
  {
    hide Top, KK, X, Y, N, NNN, LowerMisc;
  }

  lemma {:induction false} MarkedLast(marks: seq<bool>, mem: Memory, walk: seq<address>)
    requires |walk| > 0 && MarkedAll(marks, mem, walk[..|walk| - 1]) && Marked(marks, mem, walk[|walk| - 1])
    ensures MarkedAll(marks, mem, walk)
  {
    hide Marked;
    var before := walk[..|walk| - 1];
    forall k | 0 <= k < |walk| ensures Marked(marks, mem, walk[k]) {
      if k < |before| { assert before[k] == walk[k]; }
    }
  }

  lemma {:induction false} WalkedMore(mem: Memory, walk: seq<address>, from: int, to: int)
    requires |walk| > 0 && Walked(mem, walk[..|walk| - 1], from, walk[|walk| - 1]) && GoesOn(mem, walk[|walk| - 1], to)
    ensures Walked(mem, walk, from, to) && walk[0] == from
  {
    hide GoesOn;
    var before := walk[..|walk| - 1];
    forall k | 0 <= k < |walk| - 1 ensures GoesOn(mem, walk[k], walk[k + 1]) {
      if k < |before| - 1 { assert before[k] == walk[k] && before[k + 1] == walk[k + 1]; }
    }
    assert before != [] ==> before[0] == walk[0];
  }

  /** The open block linked on to `q`. */
  lemma {:induction false} OpenedGoesOn(mem: Memory, from: int, walk: seq<address>, blocks: Trace, local: nat, code: seq<Piece>, q: int,
                                        marks: seq<bool>, index: seq<int>)
    requires Opened(mem, from, walk, blocks, marks, index)
    requires GoesOn(mem, walk[|walk| - 1], q) && OpenOk(mem, walk, local, code, q)
    requires Marked(marks, mem, walk[|walk| - 1])
    ensures Building(mem, from, walk, blocks, local, code, q, marks, index)
  {
    hide Finished, Distinct, Indexes, Walked, OpenOk, MarkedAll, GoesOn;
    WalkedMore(mem, walk, from, q);
    MarkedLast(marks, mem, walk);
  }

  /** The open block ends the trace. */
  lemma {:induction false} OpenedEnds(mem: Memory, from: int, walk: seq<address>, blocks: Trace, b: Block, marks: seq<bool>, index: seq<int>)
    requires Opened(mem, from, walk, blocks, marks, index)
    requires BlockOk(mem, walk, |walk| - 1, b) && Marked(marks, mem, walk[|walk| - 1])
    ensures Complete(mem, from, walk, blocks + [b], marks)
  {
    hide BlockOk, Distinct, MarkedAll, Marked, GoesOn;
    FinishedOne(mem, walk, blocks, b);
    MarkedLast(marks, mem, walk);
    assert walk[0] == from by { assert |walk| > 1 ==> walk[..|walk| - 1][0] == walk[0]; }
    Completes(mem, from, walk, blocks + [b], marks);
  }

  lemma {:induction false} NoSkipMarked(marks: seq<bool>, mem: Memory, pc: address, k: nat)
    requires |marks| == 0x1000 && marks[Wrap(pc)] && marks[Wrap(pc + 1)]
    requires !Lower(OpAt(mem, pc), pc, k).Branch?
    ensures Marked(marks, mem, pc)
  {
    LowerKinds(OpAt(mem, pc), pc, k);
    hide Lower, OpAt, IsCompare;
  }

  lemma {:induction false} SkipMarked(marks: seq<bool>, mem: Memory, pc: int)
    requires |marks| == 0x1000 && 0 <= pc < 0x1000
    requires marks[Wrap(pc)] && marks[Wrap(pc + 1)] && marks[Wrap(pc + 2)] && marks[Wrap(pc + 3)]
    ensures Marked(marks, mem, pc)
  {
    hide OpAt, IsCompare;
  }

  lemma {:induction false} EndOk(mem: Memory, pcs: seq<address>, local: nat, ops: seq<Op>)
    requires |pcs| > 0
    requires var pc := pcs[|pcs| - 1]; Lower(OpAt(mem, pc), pc, local) == End(ops)
    ensures var k := |pcs| - 1; BlockOk(mem, pcs, k, Block(pcs[k], local, Head(k) + Plain(ops), Return))
  {
    hide Lower, OpAt, Head;
  }

  /** The not-taken side as code generation builds it. */
  function Folded(index: seq<int>, next: word, pc: nat): (seq<Op>, Term)
    requires |index| == 0x1000
  {
    if Top(next) == 1
    then ([Count(1), Safepoint, SetPc(Const(NNN(next)))], if index[NNN(next)] >= 0 then Close(index[NNN(next)]) else Return)
    else ([SetPc(Const(pc + 2))], Return)
  }

  lemma {:induction false} FoldedOk(mem: Memory, walk: seq<address>, index: seq<int>)
    requires |walk| > 0 && Indexes(index, walk)
    ensures
      var pc: int := walk[|walk| - 1];
      var (els, exit) := Folded(index, OpAt(mem, pc + 2), pc);
      NotTaken(mem, walk, |walk| - 1, els, exit)
  {
    hide Emitted, Top, NNN, OpAt;
    var pc: int := walk[|walk| - 1];
    IndexEmitted(index, walk, NNN(OpAt(mem, pc + 2)));
  }

  lemma {:induction false} BuildingWalk(mem: Memory, from: int, walk: seq<address>, blocks: Trace, local: nat, code: seq<Piece>,
                                        pc: int, marks: seq<bool>, index: seq<int>)
    requires Building(mem, from, walk, blocks, local, code, pc, marks, index)
    ensures Walked(mem, walk, from, pc)
  {}

  lemma {:induction false} BuildingStart(mem: Memory, pc: int, marks: seq<bool>, index: seq<int>)
    requires |marks| == 0x1000 == |index| && forall a :: 0 <= a < 0x1000 ==> index[a] < 0
    ensures Building(mem, pc, [], [], 0, [], pc, marks, index)
  {}

  lemma {:induction false} CompleteShape(mem: Memory, from: int, walk: seq<address>, t: Trace, marks: seq<bool>)
    requires Complete(mem, from, walk, t, marks)
    ensures |t| > 0 && t[0].pc == from && TraceOk(mem, t) && Pcs(t) == walk && |marks| == 0x1000 && AllMarked(marks, mem, t)
  {
    hide TraceOk, Marked;
  }

  lemma {:induction false} OpenedShape(mem: Memory, from: int, walk: seq<address>, blocks: Trace, marks: seq<bool>, index: seq<int>)
    requires Opened(mem, from, walk, blocks, marks, index)
    ensures |walk| <= 0x1000 && Indexes(index, walk)
    ensures Walked(mem, walk[..|walk| - 1], from, walk[|walk| - 1])
    ensures |marks| == 0x1000 && var pc: int := walk[|walk| - 1]; marks[Wrap(pc)] && marks[Wrap(pc + 1)]
  {
    Pigeonhole(walk, 0x1000);
    hide Finished, Walked;
  }

  lemma {:induction false} InlineGoesOn(mem: Memory, pc: address, k: nat)
    ensures
      match Lower(OpAt(mem, pc), pc, k)
      case Inline(_) => GoesOn(mem, pc, pc as int + 2)
      case Branch(_) => GoesOn(mem, pc, pc as int + 4)
      case Jump(target) => GoesOn(mem, pc, target)
      case _ => true
  {
    LowerLocal(OpAt(mem, pc), pc, k, 0);
    hide Lower, OpAt;
  }

  lemma {:induction false} GrowsMarks(a: seq<bool>, b: seq<bool>, pc: int)
    requires Grows(a, b) && a[Wrap(pc)] && a[Wrap(pc + 1)]
    ensures b[Wrap(pc)] && b[Wrap(pc + 1)]
  {}

  lemma {:induction false} GrowsSame(a: seq<bool>)
    requires |a| == 0x1000
    ensures Grows(a, a)
  {}

  /** One instruction emitted: the trace goes on at `pc`, ends, or is refused. */
  datatype Emission = Goes(code: seq<Piece>, pc: nat, local: nat) | Ended(t: Trace) | Refused

  lemma {:induction false} RunMore(cfg: Config, mem: Memory, run: seq<Jit>, now: Jit)
    requires ValidRun(cfg, mem, run) && Step(cfg, Last(run), now)
    ensures ValidRun(cfg, mem, run + [now]) && Last(run + [now]) == now
  {
    hide Step;
    var more := run + [now];
    forall i | 0 <= i < |more| - 1 ensures Step(cfg, more[i], more[i + 1]) {
      if i < |run| - 1 { assert more[i] == run[i] && more[i + 1] == run[i + 1]; }
    }
  }

  lemma {:induction false} InTraceIndex(cfg: Config, mem: Memory, run: seq<Jit>)
    requires cfg.Valid() && ValidRun(cfg, mem, run) && Last(run).phase.InTrace?
    ensures Last(run).phase.k < |Last(run).phase.t| && |Last(run).code| == 0x1000
  {
    RunOk(cfg, mem, run);
  }

  class Engine {
    const codeBytes: array<bool>
    var vm: Native
    var cache: map<word, Trace>

    ghost predicate Valid()
      reads this
    {
      codeBytes.Length == 0x1000
    }

    /** The machine state, with the engine at `phase`. */
    ghost function State(phase: Phase): Jit
      reads this, codeBytes
    {
      Jit(phase, vm, codeBytes[..], cache)
    }

    constructor (mem: Memory)
      ensures Valid() && fresh(codeBytes) && State(AtHead) == Start(mem)
    {
      codeBytes := new bool[0x1000](_ => false);
      vm := Start(mem).vm;
      cache := map[];
      new;
      assert codeBytes[..] == NoCode();
    }

    method MarkCode(a: int, n: nat)
      requires Valid() && n <= 0x1000
      modifies codeBytes
      ensures codeBytes[..] == Marking(old(codeBytes[..]), a, n)
    {
      for i := 0 to n
        invariant codeBytes[..] == Marking(old(codeBytes[..]), a, i)
      {
        assert forall b :: 0 <= b < 0x1000 ==> (Offset(b, a) < i + 1 <==> Offset(b, a) < i || b == Wrap(a + i));
        codeBytes[Wrap(a + i)] := true;
      }
    }

    /** Does a store to [a, a+n) reach a byte some live trace was compiled from? */
    method NoteStore(a: int, n: nat) returns (hit: bool)
      requires Valid() && n <= 0x1000
      ensures hit <==> Overlaps(codeBytes[..], a, n)
    {
      for i := 0 to n
        invariant forall b :: 0 <= b < 0x1000 && codeBytes[b] ==> Offset(b, a) >= i
      {
        if codeBytes[Wrap(a + i)] {
          assert Offset(Wrap(a + i), a) == i;
          return true;
        }
        assert forall b :: 0 <= b < 0x1000 && Offset(b, a) == i ==> b == Wrap(a + i);
      }
      return false;
    }

    /** The opcode switch of codegen: emit the instruction at `pc`, the last of
        `walk`, into the block just opened for it. */
    method Emit(ghost from: int, ghost walk: seq<address>, blocks: Trace, op: word, pc: address, local: nat, opCount: nat,
                pcBlock: array<int>) returns (e: Emission)
      requires Valid() && pcBlock.Length == 0x1000
      requires |walk| == opCount + 1 && walk[opCount] == pc && op == OpAt(vm.core.mem, pc)
      requires Opened(vm.core.mem, from, walk, blocks, codeBytes[..], pcBlock[..])
      modifies codeBytes
      ensures Grows(old(codeBytes[..]), codeBytes[..])
      ensures e.Refused? ==> Lower(op, pc, 0).Unsupported?
      ensures e.Refused? <==> Supported.Rejected(op)
      ensures e.Ended? ==> Complete(vm.core.mem, from, walk, e.t, codeBytes[..])
      ensures e.Goes? ==> Building(vm.core.mem, from, walk, blocks, local, e.code, e.pc, codeBytes[..], pcBlock[..])
    {
      hide Building, Opened, Complete, OpAt, Lower, Head, Landing, Emitted, Grows, NotTaken, BlockOk, Marked, OpenOk, GoesOn,
        Supported.Rejected;
      ghost var mem := vm.core.mem;
      var blk := Head(opCount);
      OpenedShape(mem, from, walk, blocks, codeBytes[..], pcBlock[..]);
      LowerLocal(op, pc, local, 0);
      InlineGoesOn(mem, pc, local);
      GrowsSame(codeBytes[..]);
      Supported.UnsupportedExact(op, pc, local);
      match Lower(op, pc, local) {
        case Unsupported =>
          return Refused;
        case End(ops) =>
          NoSkipMarked(codeBytes[..], mem, pc, local);
          EndOk(mem, walk, local, ops);
          OpenedEnds(mem, from, walk, blocks, Block(pc, local, blk + Plain(ops), Return), codeBytes[..], pcBlock[..]);
          return Ended(blocks + [Block(pc, local, blk + Plain(ops), Return)]);
        case Inline(ops) =>
          NoSkipMarked(codeBytes[..], mem, pc, local);
          InlineOpen(mem, walk, local, ops);
          OpenedGoesOn(mem, from, walk, blocks, local, blk + Plain(ops), pc as int + 2, codeBytes[..], pcBlock[..]);
          return Goes(blk + Plain(ops), pc as int + 2, local + Snapshots(ops));
        case Jump(target) =>
          NoSkipMarked(codeBytes[..], mem, pc, local);
          IndexEmitted(pcBlock[..], walk, target);
          blk := blk + Landing(target);
          if pcBlock[target] >= 0 || opCount >= JUMP_LIMIT {
            var exit := if pcBlock[target] >= 0 then Close(pcBlock[target]) else Return;
            JumpClosed(mem, walk, local, target, exit);
            OpenedEnds(mem, from, walk, blocks, Block(pc, local, blk, exit), codeBytes[..], pcBlock[..]);
            return Ended(blocks + [Block(pc, local, blk, exit)]);
          }
          JumpOpen(mem, walk, local, target);
          OpenedGoesOn(mem, from, walk, blocks, local, blk, target, codeBytes[..], pcBlock[..]);
          return Goes(blk, target, local);
        case Branch(cond) =>
          e := EmitBranch(from, walk, blocks, pc, local, opCount, pcBlock, cond);
      }
    }

    /** A skip: its second opcode is read, and marked, to fold a jump in. */
    method EmitBranch(ghost from: int, ghost walk: seq<address>, blocks: Trace, pc: address, local: nat, opCount: nat,
                      pcBlock: array<int>, cond: Cond) returns (e: Emission)
      requires Valid() && pcBlock.Length == 0x1000
      requires |walk| == opCount + 1 && walk[opCount] == pc
      requires Opened(vm.core.mem, from, walk, blocks, codeBytes[..], pcBlock[..])
      requires Lower(OpAt(vm.core.mem, pc), pc, local) == Branch(cond)
      modifies codeBytes
      ensures Grows(old(codeBytes[..]), codeBytes[..])
      ensures e.Goes? && Building(vm.core.mem, from, walk, blocks, local, e.code, e.pc, codeBytes[..], pcBlock[..])
    {
      hide Building, Opened, OpAt, Lower, Head, Emitted, Marking, Grows, NotTaken, BlockOk, Marked, OpenOk, GoesOn, Folded;
      ghost var mem, before := vm.core.mem, codeBytes[..];
      OpenedShape(mem, from, walk, blocks, before, pcBlock[..]);
      var at: int, next := pc, OpAt(vm.core.mem, pc as int + 2);
      MarkCode(at + 2, 2);
      MarkingGrows(before, at + 2, 2);
      GrowsMarks(before, codeBytes[..], pc);
      OpenedMarks(mem, from, walk, blocks, before, pcBlock[..], codeBytes[..]);
      SkipMarked(codeBytes[..], mem, pc);
      var (els, exit) := Folded(pcBlock[..], next, pc);
      FoldedOk(mem, walk, pcBlock[..]);
      BranchOpen(mem, walk, local, cond, els, exit);
      InlineGoesOn(mem, pc, local);
      e := Goes(Head(opCount) + [Unless(cond, els, exit), Do(SetPc(Const(at + 4)))], at + 4, local);
      OpenedGoesOn(mem, from, walk, blocks, local, e.code, e.pc, codeBytes[..], pcBlock[..]);
    }

    /** Compile the trace that begins at the program counter. The ghost result is
        the walk of code generation, which for a refusal ends at its cause. */
    method Codegen() returns (r: Compiled, ghost walk: seq<address>)
      requires Valid()
      modifies codeBytes
      ensures Grows(old(codeBytes[..]), codeBytes[..])
      ensures r.Code? ==> |r.t| > 0 && r.t[0].pc == vm.core.pc && TraceOk(vm.core.mem, r.t) && Pcs(r.t) == walk
      ensures r.Code? ==> AllMarked(codeBytes[..], vm.core.mem, r.t)
      ensures r.Bail? ==> Walked(vm.core.mem, walk, vm.core.pc, r.at) && Lower(OpAt(vm.core.mem, r.at), r.at, 0).Unsupported?
      ensures r.OutOfRange? ==> Walked(vm.core.mem, walk, vm.core.pc, r.pc) && r.pc >= 0x1000
      ensures r.Bail? ==> Supported.Path(vm.core.mem, walk, vm.core.pc, r.at) && Supported.Rejected(OpAt(vm.core.mem, r.at))
      ensures r.OutOfRange? ==> Supported.Path(vm.core.mem, walk, vm.core.pc, r.pc)
      ensures !r.OutOfRange? ==> forall k :: 0 <= k < |walk| ==> !Supported.Rejected(OpAt(vm.core.mem, walk[k]))
    {
      hide Building, Opened, Complete, OpAt, Lower, Head, Landing, Grows, Marking, Marked, TraceOk, Pcs, Walked, Supported.Rejected, Supported.Path;
      walk := [];
      var mem := vm.core.mem;
      ghost var from: int := vm.core.pc;
      var pcBlock := new int[0x1000](_ => -1);
      var pc: int, opCount: nat, local: nat := vm.core.pc, 0, 0;
      var blocks: Trace, blk: seq<Piece>, openPc: address, openLocal: nat := [], [], 0, 0;
      GrowsSame(codeBytes[..]);
      BuildingStart(mem, pc, codeBytes[..], pcBlock[..]);
      while true
        invariant fresh(pcBlock) && pcBlock.Length == 0x1000 && |walk| == opCount <= 0x1000 && pc >= 0
        invariant opCount > 0 ==> openPc == walk[opCount - 1]
        invariant Building(mem, from, walk, blocks, openLocal, blk, pc, codeBytes[..], pcBlock[..])
        invariant Grows(old(codeBytes[..]), codeBytes[..])
        invariant forall k :: 0 <= k < |walk| ==> !Supported.Rejected(OpAt(mem, walk[k]))
        decreases 0x1000 - opCount
      {
        ghost var before := codeBytes[..];
        var op := OpAt(mem, pc);
        MarkCode(pc, 2);
        MarkingGrows(before, pc, 2);
        GrowsTrans(old(codeBytes[..]), before, codeBytes[..]);
        BuildingMarks(mem, from, walk, blocks, openLocal, blk, pc, before, pcBlock[..], codeBytes[..]);
        if pc >= 0x1000 {
          BuildingWalk(mem, from, walk, blocks, openLocal, blk, pc, codeBytes[..], pcBlock[..]);
          Supported.WalkPath(mem, walk, from, pc);
          return OutOfRange(pc), walk;
        }
        if pcBlock[pc] >= 0 {
          BuildingClosed(mem, from, walk, blocks, openLocal, blk, pc, codeBytes[..], pcBlock[..]);
          blocks := blocks + [Block(openPc, openLocal, blk + Landing(pc), Close(pcBlock[pc]))];
          CompleteShape(mem, from, walk, blocks, codeBytes[..]);
          return Code(blocks), walk;
        }
        BuildingOpens(mem, from, walk, blocks, openLocal, blk, pc, codeBytes[..], pcBlock[..]);
        if opCount > 0 {
          blocks := blocks + [Block(openPc, openLocal, blk, Fall)];
        }
        walk := walk + [pc];
        pcBlock[pc] := opCount;
        openPc, openLocal, before := pc, local, codeBytes[..];
        OpenedShape(mem, from, walk, blocks, before, pcBlock[..]);
        var e := Emit(from, walk, blocks, op, pc, local, opCount, pcBlock);
        GrowsTrans(old(codeBytes[..]), before, codeBytes[..]);
        match e {
          case Refused =>
            Supported.WalkPath(mem, walk[..|walk| - 1], from, pc);
            return Bail(pc), walk[..|walk| - 1];
          case Ended(t) =>
            CompleteShape(mem, from, walk, t, codeBytes[..]);
            return Code(t), walk;
          case Goes(emitted, q, k) =>
            blk, pc, local := emitted, q, k;
        }
        opCount := opCount + 1;
      }
    }

    /** Call a cached trace: block after block until it returns. `run` is the
        history so far. */
    method RunTrace(cfg: Config, t: Trace, ghost mem: Memory, ghost run: seq<Jit>) returns (exit: Phase, ghost after: seq<Jit>)
      requires Valid() && cfg.Valid() && |run| > 0 && ValidRun(cfg, mem, run) && Last(run) == State(InTrace(t, 0))
      modifies this`vm
      ensures ValidRun(cfg, mem, after) && |after| > |run| && Last(after) == State(exit)
      ensures exit == Returned || exit == Exited
    {
      hide ValidRun, JitOk, RunBlock;
      var k := 0;
      after := run;
      while true
        invariant |after| >= |run| && ValidRun(cfg, mem, after) && Last(after) == State(InTrace(t, k))
        decreases 4 * (cfg.budget + LAG) + 2 - |after|
      {
        InTraceIndex(cfg, mem, after);
        var f := RunBlock(cfg, codeBytes[..], t[k], vm);
        ghost var before := State(InTrace(t, k));
        vm := f.j;
        ghost var now := Leaves(before, t, k, f);
        RunMore(cfg, mem, after, now);
        RunBounded(cfg, mem, after + [now]);
        after := after + [now];
        match f {
          case Going(_) => return Returned, after;
          case Crashed(_) => return Exited, after;
          case Leaving(_, Return) => return Returned, after;
          case Leaving(_, Fall) => k := k + 1;
          case Leaving(_, Close(i)) =>
            if vm.over { return Returned, after; }
            k := i;
        }
      }
    }

    /** The dispatch loop. It terminates, and its whole run is a run of the state
        machine, so that all that is proved of those runs holds of it. */
    method RunRom(cfg: Config, ghost mem: Memory) returns (end: Phase, ghost run: seq<Jit>)
      requires Valid() && cfg.Valid() && State(AtHead) == Start(mem)
      modifies this, codeBytes
      ensures ValidRun(cfg, mem, run) && Last(run) == State(end)
      ensures end == Stopped || end == Exited || end == Undefined
      ensures vm.env.retired <= cfg.budget + LAG
      ensures end == Stopped && !vm.over ==> Supported.MeetsRejected(vm.core.mem, vm.core.pc)
      ensures end == Undefined ==> Supported.RunsOff(vm.core.mem, vm.core.pc)
      ensures end == Stopped ==> Settled(cfg, mem, State(end)) && (vm.over ==> Done(cfg, vm.env) && vm.env.retired > 0)
    {
      hide JitOk, StopsAfter, Run, Reported, Done, TraceOk, Services, Grows, NoCode, Walked, Lower, OpAt, Settled, Supported.Rejected, Supported.Path;
      run := [Start(mem)];
      end := AtHead;
      while end == AtHead
        invariant Valid() && ValidRun(cfg, mem, run) && Last(run) == State(end)
        invariant end == AtHead || end == Stopped || end == Exited || end == Undefined
        invariant end == Stopped && !vm.over ==> Supported.MeetsRejected(vm.core.mem, vm.core.pc)
        invariant end == Undefined ==> Supported.RunsOff(vm.core.mem, vm.core.pc)
        decreases 4 * (cfg.budget + LAG) + 2 - |run|, end == AtHead
      {
        if vm.core.pc !in cache {
          ghost var a := State(AtHead);
          var r, walk := Codegen();
          match r {
            case Code(t) => cache := cache[vm.core.pc := t]; assert Compiles(a, State(AtHead), t);
            case Bail(at) => end := Stopped;
            case OutOfRange(q) => end := Undefined;
          }
          assert Misses(a, State(end));
          RunMore(cfg, mem, run, State(end));
          run := run + [State(end)];
        } else {
          var t := cache[vm.core.pc];
          RunMore(cfg, mem, run, State(InTrace(t, 0)));
          end, run := RunTrace(cfg, t, mem, run + [State(InTrace(t, 0))]);
          if end == Returned {
            ghost var now := Services(cfg, State(Returned));
            ServicesEnv(cfg, State(Returned));
            RunMore(cfg, mem, run, now);
            end := Service(cfg);
            run := run + [now];
          }
        }
        RunBounded(cfg, mem, run);
      }
      RunBounded(cfg, mem, run);
      if end == Stopped {
        RunSettled(cfg, mem, run);
        OverIsDone(cfg, mem, run);
      }
    }

    /** Between traces: timers, stop condition, flush, key poll. */
    method Service(cfg: Config) returns (end: Phase)
      requires Valid()
      modifies this, codeBytes
      ensures State(end) == old(Services(cfg, State(Returned)))
      ensures end == Stopped || end == AtHead
    {
      hide Done, Sync, Roll;
      vm := CheckInterrupt(cfg, vm);
      if vm.smc {
        cache := map[];
        forall i | 0 <= i < codeBytes.Length { codeBytes[i] := false; }
        vm := vm.(smc := false);
        assert codeBytes[..] == NoCode();
      }
      vm := vm.(env := Roll(vm.env));
      end := if vm.over then Stopped else AtHead;
    }
  }
}
