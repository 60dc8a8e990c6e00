/** Which opcodes code generation refuses, runs through, or follows, in terms of
    what the interpreter does with them. */
module Supported {
  import opened Chip8
  import opened Bench
  import opened Trace
  import opened TraceSpec

  /** The interpreter stops with an error at `op`, whatever the machine. */
  ghost predicate Rejected(op: word)
  {
    forall c: Core, inp: Input :: ExecCore(op, c, inp).None?
  }

  /** A machine with room on its stack and a frame to return to. */
  function Able(mem: Memory, pc: word, regs: Regs): Core
  {
    Core(regs, 0, pc, [0], mem, {})
  }

  function Zeros(): Regs { seq(0x10, _ => 0) }

  function Blank(): Memory { seq(0x1000, _ => 0) }

  lemma {:induction false} LowerExecutes(op: word, pc: address, k: nat, c: Core, inp: Input)
    requires 0 < |c.stack| < 0x10
    ensures Lower(op, pc, k).Unsupported? <==> ExecCore(op, c, inp).None?
  {
    NotSystem(op);
    hide Top, X, Y, N, KK, NNN, Store, Load, Bits, SpritePixels, SkipIf;
  }

  lemma {:induction false} UnsupportedFails(op: word, pc: address, k: nat, c: Core, inp: Input)
    requires Lower(op, pc, k).Unsupported?
    ensures ExecCore(op, c, inp).None?
  {
    NotSystem(op);
    hide Top, X, Y, N, KK, NNN, Store, Load, Bits, SpritePixels, SkipIf;
  }

  /** Code generation refuses exactly what the interpreter rejects in every state. */
  lemma {:induction false} UnsupportedExact(op: word, pc: address, k: nat)
    ensures Lower(op, pc, k).Unsupported? <==> Rejected(op)
  {
    hide Lower, ExecCore;
    LowerExecutes(op, pc, k, Able(Blank(), 0, Zeros()), NO_INPUT);
    if Lower(op, pc, k).Unsupported? {
      forall c: Core, inp: Input ensures ExecCore(op, c, inp).None? { UnsupportedFails(op, pc, k, c, inp); }
    } else {
      assert ExecCore(op, Able(Blank(), 0, Zeros()), NO_INPUT).Some?;
    }
  }

  /** The instruction falls through and leaves memory and the stack alone. */
  predicate Passes(op: word, c: Core, inp: Input)
  {
    var r := ExecCore(op, c, inp);
    r.Some? && r.value.pc == (c.pc + 2) % 0x10000 && r.value.mem == c.mem && r.value.stack == c.stack
  }

  /** A trace runs through exactly the instructions that always do so, other than
      comparisons and the wait for a key. */
  lemma {:induction false} InlineExact(op: word, pc: address, k: nat)
    ensures Lower(op, pc, k).Inline? <==> (forall c: Core, inp: Input :: Passes(op, c, inp)) && !IsCompare(op) && !Waits(op)
  {
    hide Lower, Passes, IsCompare, Waits;
    if Lower(op, pc, k).Inline? {
      forall c: Core, inp: Input ensures Passes(op, c, inp) { InlinePasses(op, pc, k, c, inp); }
      InlinePasses(op, pc, k, Able(Blank(), 0, Zeros()), NO_INPUT);
    } else if !IsCompare(op) && !Waits(op) {
      OthersDoNot(op, pc, k);
    }
  }

  lemma {:induction false} InlinePasses(op: word, pc: address, k: nat, c: Core, inp: Input)
    requires Lower(op, pc, k).Inline?
    ensures Passes(op, c, inp) && !IsCompare(op) && !Waits(op)
  {
    NotSystem(op);
    hide Top, X, Y, N, KK, NNN, Store, Load, Bits, SpritePixels;
  }

  /** Machines on which the instruction does something else. */
  lemma {:induction false} OthersDoNot(op: word, pc: address, k: nat)
    requires !Lower(op, pc, k).Inline? && !IsCompare(op) && !Waits(op)
    ensures exists c: Core, inp: Input :: !Passes(op, c, inp)
  {
    var c, d := Able(Blank(), 0x800, Zeros()), Able(seq(0x1000, _ => 1), 0xFFE, Zeros());
    var inp := NO_INPUT.(hit := true);
    assert !Passes(op, c, inp) || !Passes(op, d, inp) by {
      NotSystem(op);
      Stored(op, d.mem, d.i);
      hide Top, X, Y, N, KK, Bits, SpritePixels, Store, Load;
    }
  }

  lemma {:induction false} Stored(op: word, mem: Memory, i: word)
    requires mem == seq(0x1000, _ => 1) && i == 0
    ensures Store(mem, i, Digits(0)) != mem && Store(mem, i, Zeros()[..X(op) + 1]) != mem
  {
    hide X;
    var m, n := Store(mem, i, Digits(0)), Store(mem, i, Zeros()[..X(op) + 1]);
    assert Offset(0, 0) == 0;
    assert m[0] == 0 && n[0] == 0 && mem[0] == 1;
  }

  /** It follows exactly the jumps that go to one address whatever the machine. */
  lemma {:induction false} JumpExact(op: word, pc: address, k: nat, q: address)
    ensures Lower(op, pc, k) == Jump(q) <==> forall c: Core, inp: Input :: ExecCore(op, c, inp) == Some(c.(pc := q))
  {
    NotSystem(op);
    hide Top, X, Y, N, KK, NNN, Store, Load, Bits, SpritePixels;
    if forall c: Core, inp: Input :: ExecCore(op, c, inp) == Some(c.(pc := q)) {
      var c, d := Able(Blank(), 0x800, Zeros()), Able(Blank(), 0x900, seq(0x10, _ => 1));
      assert ExecCore(op, c, NO_INPUT) == Some(c.(pc := q)) && ExecCore(op, d, NO_INPUT) == Some(d.(pc := q));
      assert c.regs[0] == 0 && d.regs[0] == 1;
    }
  }

  lemma {:induction false} BranchExact(op: word, pc: address, k: nat)
    ensures Lower(op, pc, k).Branch? <==> IsCompare(op)
  {
    NotSystem(op);
    hide X, Y, N, KK, NNN;
  }

  // --------------------------------------------------- the walk and its end

  /** On some machine with this memory the interpreter goes from `p` to `q`. */
  ghost predicate CanGo(mem: Memory, p: address, q: int)
  {
    exists c: Core, inp: Input :: c.mem == mem && c.pc == p && GoesTo(OpAt(mem, p), c, inp, q)
  }

  predicate GoesTo(op: word, c: Core, inp: Input, q: int)
  {
    ExecCore(op, c, inp).Some? && ExecCore(op, c, inp).value.pc == q
  }

  /** SNE Vx, Vx, which never skips. Code generation compiles its taken side all
      the same. */
  predicate NeverSkips(op: word) { Top(op) == 9 && X(op) == Y(op) }

  /** Code generation only goes where the interpreter can. */
  lemma {:induction false} GoesOnGoes(mem: Memory, p: address, q: int)
    requires GoesOn(mem, p, q)
    ensures CanGo(mem, p, q) || (NeverSkips(OpAt(mem, p)) && q == p + 4)
  {
    hide OpAt, Lower, ExecCore;
    var op := OpAt(mem, p);
    var c := Able(mem, p, Zeros());
    match Lower(op, Wrap(p), 0)
    case Inline(_) => InlinePasses(op, p, 0, c, NO_INPUT);
      assert GoesTo(op, c, NO_INPUT, q);
    case Jump(_) => JumpExact(op, p, 0, q);
      assert ExecCore(op, c, NO_INPUT) == Some(c.(pc := q));
      assert GoesTo(op, c, NO_INPUT, q);
    case Branch(_) => BranchExact(op, p, 0);
      if !NeverSkips(op) {
        SkipTaken(op, mem, p);
        assert GoesTo(op, Able(mem, p, Skipping(op)), NO_INPUT, q);
      }
  }

  /** Registers on which the comparison skips. */
  function Skipping(op: word): Regs
  {
    var k: int := KK(op);
    Zeros()[X(op) := if Top(op) == 3 then k else if Top(op) == 4 then (k + 1) % 0x100 else if Top(op) == 9 then 1 else 0]
  }

  lemma {:induction false} SkipTaken(op: word, mem: Memory, p: address)
    requires IsCompare(op) && !NeverSkips(op)
    ensures GoesTo(op, Able(mem, p, Skipping(op)), NO_INPUT, p + 4)
  {
    NotSystem(op);
    hide Top, X, Y, N, KK, NNN, ExecStraight;
  }

  /** The interpreter, for some machines, walks from `from` to `to` over `pcs`. */
  ghost predicate Path(mem: Memory, pcs: seq<address>, from: int, to: int)
  {
    && (pcs == [] ==> from == to)
    && (pcs != [] ==> pcs[0] == from && Onward(mem, pcs[|pcs| - 1], to))
    && forall k :: 0 <= k < |pcs| - 1 ==> Onward(mem, pcs[k], pcs[k + 1])
  }

  ghost predicate Onward(mem: Memory, p: address, q: int)
  {
    CanGo(mem, p, q) || (NeverSkips(OpAt(mem, p)) && q == p + 4)
  }

  lemma {:induction false} WalkPath(mem: Memory, pcs: seq<address>, from: int, to: int)
    requires Walked(mem, pcs, from, to)
    ensures Path(mem, pcs, from, to)
  {
    hide GoesOn, CanGo, NeverSkips, OpAt;
    forall k | 0 <= k < |pcs| - 1 ensures Onward(mem, pcs[k], pcs[k + 1]) { GoesOnGoes(mem, pcs[k], pcs[k + 1]); }
    if pcs != [] { GoesOnGoes(mem, pcs[|pcs| - 1], to); }
  }

  /** Ahead of `from` lies an opcode the interpreter rejects in every state. */
  ghost predicate MeetsRejected(mem: Memory, from: int)
  {
    exists walk: seq<address>, at: address :: Path(mem, walk, from, at) && Rejected(OpAt(mem, at))
  }

  /** Ahead of `from` lies an address outside memory. */
  ghost predicate RunsOff(mem: Memory, from: int)
  {
    exists walk: seq<address>, to: int :: Path(mem, walk, from, to) && to >= 0x1000
  }

  lemma {:induction false} RefusesRejected(mem: Memory, from: int)
    requires Refuses(mem, from)
    ensures MeetsRejected(mem, from)
  {
    hide Walked, Path, Lower, OpAt, Rejected;
    var walk: seq<address>, at: address :| Walked(mem, walk, from, at) && Lower(OpAt(mem, at), at, 0).Unsupported?;
    WalkPath(mem, walk, from, at);
    UnsupportedExact(OpAt(mem, at), at, 0);
  }
}
