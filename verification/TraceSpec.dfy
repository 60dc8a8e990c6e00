/** What a trace compiled from a given memory looks like. This is the contract
    between code generation and the dispatcher; both back ends meet it. */
module TraceSpec {
  import opened Chip8
  import opened Trace

  /** Straight-line instructions between two emitted safepoints. */
  const SPACING: int := 32
  /** A jump is followed only while fewer instructions have been compiled. */
  const JUMP_LIMIT: int := 256

  /** The addresses of a trace's blocks, in emission order. */
  function Pcs(t: Trace): (r: seq<address>)
    ensures |r| == |t| && forall k :: 0 <= k < |t| ==> r[k] == t[k].pc
  {
    seq(|t|, k requires 0 <= k < |t| => t[k].pc)
  }

  /** Is `q` one of the first `n` addresses compiled? */
  predicate Emitted(pcs: seq<address>, n: nat, q: int)
    requires n <= |pcs|
  {
    exists i :: 0 <= i < n && pcs[i] == q
  }

  ghost predicate Closes(pcs: seq<address>, k: nat, exit: Term, q: int)
    requires k < |pcs|
  {
    exit.Close? && exit.k <= k && pcs[exit.k] == q
  }

  /** Every block retires its instruction; every 32nd tests the safepoint first. */
  function Head(k: nat): seq<Piece>
  {
    (if k != 0 && k % SPACING == 0 then [Do(Safepoint)] else []) + [Do(Count(1))]
  }

  function Landing(q: nat): seq<Piece>
  {
    Plain([Safepoint, SetPc(Const(q))])
  }

  /** Block `k` runs `ps` and goes on at `q`: by a back edge when `q` is already
      compiled, else by falling into the next block. */
  ghost predicate ContinuesAt(pcs: seq<address>, k: nat, b: Block, ps: seq<Piece>, q: int)
    requires k < |pcs|
  {
    if Emitted(pcs, k + 1, q)
    then b.code == ps + Landing(q) && Closes(pcs, k, b.term, q)
    else b.code == ps && b.term == Fall && k + 1 < |pcs| && pcs[k + 1] == q
  }

  ghost predicate JumpsTo(pcs: seq<address>, k: nat, b: Block, q: address)
    requires k < |pcs|
  {
    && b.code == Head(k) + Landing(q)
    && if Emitted(pcs, k + 1, q) then Closes(pcs, k, b.term, q)
       else if k < JUMP_LIMIT then b.term == Fall && k + 1 < |pcs| && pcs[k + 1] == q
       else b.term == Return
  }

  /** The not-taken side of a skip at `pc`: a following 1NNN is folded in. */
  ghost predicate NotTaken(mem: Memory, pcs: seq<address>, k: nat, els: seq<Op>, exit: Term)
    requires k < |pcs|
  {
    var pc: int := pcs[k];
    var next := OpAt(mem, pc + 2);
    if Top(next) == 1
    then
      && els == [Count(1), Safepoint, SetPc(Const(NNN(next)))]
      && if Emitted(pcs, k + 1, NNN(next)) then Closes(pcs, k, exit, NNN(next)) else exit == Return
    else els == [SetPc(Const(pc + 2))] && exit == Return
  }

  ghost predicate Branches(mem: Memory, pcs: seq<address>, k: nat, b: Block, cond: Cond)
    requires k < |pcs|
  {
    var pc: int := pcs[k];
    exists els, exit ::
      && NotTaken(mem, pcs, k, els, exit)
      && ContinuesAt(pcs, k, b, Head(k) + [Unless(cond, els, exit), Do(SetPc(Const(pc + 4)))], pc + 4)
  }

  /** Block `k` is the code for the instruction at its address. */
  ghost predicate BlockOk(mem: Memory, pcs: seq<address>, k: nat, b: Block)
    requires k < |pcs|
  {
    var pc: int := pcs[k];
    b.pc == pc &&
    match Lower(OpAt(mem, pc), pc, b.local)
    case Inline(ops) => ContinuesAt(pcs, k, b, Head(k) + Plain(ops), pc + 2)
    case End(ops) => b.code == Head(k) + Plain(ops) && b.term == Return
    case Jump(q) => JumpsTo(pcs, k, b, q)
    case Branch(cond) => Branches(mem, pcs, k, b, cond)
    case Unsupported => false
  }

  ghost predicate Distinct(pcs: seq<address>)
  {
    forall i, j :: 0 <= i < j < |pcs| ==> pcs[i] != pcs[j]
  }

  /** A complete trace for the code now in memory, entered at its first block. */
  ghost predicate TraceOk(mem: Memory, t: Trace)
  {
    && |t| > 0 && Distinct(Pcs(t))
    && forall k :: 0 <= k < |t| ==> BlockOk(mem, Pcs(t), k, t[k])
  }

  /** Straight-line successor, taken side of a skip, or jump target: the address
      code generation goes on to from `p`. */
  predicate GoesOn(mem: Memory, p: int, q: int)
  {
    match Lower(OpAt(mem, p), Wrap(p), 0)
    case Inline(_) => q == p + 2
    case Branch(_) => q == p + 4
    case Jump(target) => q == target
    case _ => false
  }

  /** Code generation walked from `from` to `to` over the addresses `pcs`. */
  ghost predicate Walked(mem: Memory, pcs: seq<address>, from: int, to: int)
  {
    && (pcs == [] ==> from == to)
    && (pcs != [] ==> pcs[0] == from && GoesOn(mem, pcs[|pcs| - 1], to))
    && forall k :: 0 <= k < |pcs| - 1 ==> GoesOn(mem, pcs[k], pcs[k + 1])
  }

  /** An unsupported opcode lies on the walk of code generation from `from`. */
  ghost predicate Refuses(mem: Memory, from: int)
  {
    exists walk: seq<address>, at: address :: Walked(mem, walk, from, at) && Lower(OpAt(mem, at), at, 0).Unsupported?
  }

  /** The walk of code generation from `from` leaves memory. */
  ghost predicate Escapes(mem: Memory, from: int)
  {
    exists walk: seq<address>, to: int :: Walked(mem, walk, from, to) && to >= 0x1000
  }

  predicate IsCompare(op: word)
  {
    3 <= Top(op) <= 5 || Top(op) == 9
  }

  /** Every byte the block at `pc` was compiled from is marked as code. */
  predicate Marked(code: seq<bool>, mem: Memory, pc: address)
    requires |code| == 0x1000
  {
    && code[Wrap(pc)] && code[Wrap(pc + 1)]
    && (IsCompare(OpAt(mem, pc)) ==> code[Wrap(pc + 2)] && code[Wrap(pc + 3)])
  }

  ghost predicate AllMarked(code: seq<bool>, mem: Memory, t: Trace)
    requires |code| == 0x1000
  {
    forall k :: 0 <= k < |t| ==> Marked(code, mem, t[k].pc)
  }

  ghost predicate AgreeOn(code: seq<bool>, a: Memory, b: Memory)
    requires |code| == 0x1000
  {
    forall i :: 0 <= i < 0x1000 && code[i] ==> a[i] == b[i]
  }

  /** The safepoint is tested in every 32nd block and no other. */
  lemma HeadTests(k: nat)
    ensures Do(Safepoint) in Head(k) <==> k > 0 && k % 32 == 0
  {}

  /** A jump to code not compiled yet is followed in the first 256 blocks only. */
  lemma JumpFollowed(pcs: seq<address>, k: nat, b: Block, q: address)
    requires k < |pcs| && JumpsTo(pcs, k, b, q) && !Emitted(pcs, k + 1, q)
    ensures if k < 256 then b.term == Fall && k + 1 < |pcs| && pcs[k + 1] == q else b.term == Return
  {}

  /** A trace stays valid while the bytes it was compiled from do not change,
      the second opcode of a folded skip included. */
  lemma {:induction false} TraceFrame(code: seq<bool>, a: Memory, b: Memory, t: Trace)
    requires |code| == 0x1000
    requires TraceOk(a, t) && AllMarked(code, a, t) && AgreeOn(code, a, b)
    ensures TraceOk(b, t) && AllMarked(code, b, t)
  {
    forall k | 0 <= k < |t|
      ensures BlockOk(b, Pcs(t), k, t[k]) && Marked(code, b, t[k].pc)
    {
      BlockFrame(code, a, b, Pcs(t), k, t[k]);
    }
  }

  lemma {:induction false} BlockFrame(code: seq<bool>, a: Memory, b: Memory, pcs: seq<address>, k: nat, blk: Block)
    requires |code| == 0x1000 && k < |pcs|
    requires BlockOk(a, pcs, k, blk) && Marked(code, a, pcs[k]) && AgreeOn(code, a, b)
    ensures BlockOk(b, pcs, k, blk) && Marked(code, b, pcs[k])
  {
    var pc: int := pcs[k];
    assert OpAt(a, pc) == OpAt(b, pc);
    if Lower(OpAt(a, pc), pc, blk.local).Branch? {
      BranchCompares(OpAt(a, pc), pc, blk.local);
      assert OpAt(a, pc + 2) == OpAt(b, pc + 2);
    }
    hide Lower, OpAt, NotTaken, ContinuesAt, JumpsTo, Top;
  }

  lemma {:induction false} BranchCompares(op: word, pc: address, k: nat)
    requires Lower(op, pc, k).Branch?
    ensures IsCompare(op)
  {
    hide Top, KK, N, X, Y, NNN;
  }
}
