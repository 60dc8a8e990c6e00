/** The disassembler's reachable words against the machine: where runs can go, and
    that nothing is reached which no step and no return can lead to. */
module Reached {
  import opened Chip8
  import opened Bench
  import opened Interp
  import opened Supported
  import opened Disas
  import DisasEngine

  // ------------------------------------------------------ single instructions

  /** On some machine the instruction at `p` leads to `q`; a computed jump with
      V0 zero, and returns aside. */
  ghost predicate LeadsTo(op: word, p: int, q: int)
  {
    op != 0x00EE && exists c: Core, inp: Input :: c.pc == p && (Top(op) == 0xB ==> c.regs[0] == 0) && GoesTo(op, c, inp, q)
  }

  /** SE Vx, Vx and SNE Vx, Vx, which always and never skip. */
  predicate Decided(op: word) { Top(op) in {5, 9} && X(op) == Y(op) }

  /** The static successors of a valid instruction are those of the machine, the
      return address of a call, and the dead side of a decided comparison. */
  lemma {:induction false} NextExact(op: word, p: address, q: int)
    requires ValidOpcode(op)
    ensures q in StaticNext(op, p) <==>
      || LeadsTo(op, p, q)
      || (Top(op) == 2 && q == p + 2)
      || (Decided(op) && (q == p + 2 || q == p + 4))
  {
    hide StaticNext, ValidOpcode, Top, X, Y;
    if q in StaticNext(op, p) { NextLeads(op, p, q); }
    if LeadsTo(op, p, q) {
      var c: Core, inp: Input :| c.pc == p && (Top(op) == 0xB ==> c.regs[0] == 0) && GoesTo(op, c, inp, q);
      StepNext(op, c, inp);
    }
    OtherNext(op, p);
  }

  lemma OtherNext(op: word, p: address)
    requires ValidOpcode(op)
    ensures Top(op) == 2 ==> p + 2 in StaticNext(op, p)
    ensures Decided(op) ==> p + 2 in StaticNext(op, p) && p + 4 in StaticNext(op, p)
  {
    NotSystem(op);
    hide Top, X, Y, N, KK, NNN;
  }

  /** A step of the machine goes to a static successor. */
  lemma {:induction false} StepNext(op: word, c: Core, inp: Input)
    requires ValidOpcode(op) && op != 0x00EE && ExecCore(op, c, inp).Some? && c.pc < 0x1000 && (Top(op) == 0xB ==> c.regs[0] == 0)
    ensures ExecCore(op, c, inp).value.pc in StaticNext(op, c.pc)
  {
    NotSystem(op);
    if ExecStraight(op, c, inp).Some? { StraightFrame(op, c, 0, inp) by { hide ExecStraight; } }
    hide Top, X, Y, N, KK, NNN, ExecStraight;
  }

  /** Registers that take the branch, and that do not. */
  function Choosing(op: word, taken: bool): Regs
  {
    var k: int := KK(op);
    var same := Zeros()[X(op) := k];
    match Top(op)
    case 3 => if taken then same else Zeros()[X(op) := (k + 1) % 0x100]
    case 4 => if taken then Zeros()[X(op) := (k + 1) % 0x100] else same
    case 5 => if taken then Zeros() else Zeros()[X(op) := 1]
    case 9 => if taken then Zeros()[X(op) := 1] else Zeros()
    case _ => Zeros()
  }

  lemma {:induction false} ChooseStep(op: word, p: address, taken: bool)
    requires ValidOpcode(op) && op != 0x00EE && !Decided(op)
    requires taken ==> Top(op) in {3, 4, 5, 9, 0xE}
    ensures
      var r := ExecCore(op, Able(Blank(), p, Choosing(op, taken)), NO_INPUT.(hit := taken));
      r.Some? && r.value.pc == if Top(op) in {1, 2, 0xB} then NNN(op) else if taken then p + 4 else p + 2
  {
    NotSystem(op);
    var c := Able(Blank(), p, Choosing(op, taken));
    if ExecStraight(op, c, NO_INPUT.(hit := taken)).Some? { StraightFrame(op, c, 0, NO_INPUT.(hit := taken)); }
    StraightValid(op, c, NO_INPUT.(hit := taken));
    hide Top, X, Y, N, KK, NNN, ExecStraight;
  }

  lemma {:induction false} StraightValid(op: word, c: Core, inp: Input)
    requires ValidOpcode(op)
    ensures op == 0x00E0 || Top(op) in {6, 7, 8, 0xA, 0xC, 0xD, 0xF} ==> ExecStraight(op, c, inp).Some?
  {
    NotSystem(op);
    hide Top, X, Y, N, KK, NNN, Store, Load, Bits, SpritePixels;
  }

  lemma {:induction false} NextLeads(op: word, p: address, q: int)
    requires ValidOpcode(op) && q in StaticNext(op, p)
    ensures LeadsTo(op, p, q) || (Top(op) == 2 && q == p + 2) || (Decided(op) && (q == p + 2 || q == p + 4))
  {
    if !(Top(op) == 2 && q == p + 2) && !Decided(op) {
      var taken := q == p + 4 && Top(op) in {3, 4, 5, 9, 0xE};
      ReturnNone(op, p);
      ChooseStep(op, p, taken);
      NextShape(op, p, q);
      hide ExecCore, StaticNext, ValidOpcode, Top, X, Y, KK, NNN, Decided;
      var c, inp := Able(Blank(), p, Choosing(op, taken)), NO_INPUT.(hit := taken);
      assert Top(op) == 0xB ==> c.regs[0] == 0 by { Unchosen(op, taken); }
      assert GoesTo(op, c, inp, q);
    }
  }

  lemma Unchosen(op: word, taken: bool)
    ensures Top(op) == 0xB ==> Choosing(op, taken) == Zeros()
  {
    hide X, KK;
  }

  lemma ReturnNone(op: word, p: address)
    ensures op == 0x00EE ==> StaticNext(op, p) == {}
  {}

  lemma NextShape(op: word, p: address, q: int)
    requires ValidOpcode(op) && q in StaticNext(op, p)
    ensures Top(op) in {1, 0xB} ==> q == NNN(op)
    ensures Top(op) == 2 ==> q == NNN(op) || q == p + 2
    ensures Top(op) in {3, 4, 5, 9, 0xE} ==> q == p + 2 || q == p + 4
    ensures Top(op) !in {1, 2, 0xB, 3, 4, 5, 9, 0xE} ==> q == p + 2
  {
    hide Top, NNN;
  }

  // ------------------------------------------------------------ whole runs

  /** The machine is at a valid word of the ROM that is as it was loaded, and is no
      computed jump away from its base. */
  ghost predicate OnRom(img: Memory, size: nat, c: Core)
  {
    && Live(img, size, c.pc) && OpAt(c.mem, c.pc) == OpAt(img, c.pc)
    && (Top(OpAt(img, c.pc)) == 0xB ==> c.regs[0] == 0)
  }

  /** What the machine is at, or can return to, is reachable if it is live. */
  ghost predicate Tracked(img: Memory, size: nat, c: Core)
  {
    && (Live(img, size, c.pc) ==> c.pc in Reachable(img, size))
    && forall k :: 0 <= k < |c.stack| && Live(img, size, c.stack[k]) ==> c.stack[k] in Reachable(img, size)
  }

  lemma {:induction false} StackStep(op: word, c: Core, inp: Input)
    requires ExecCore(op, c, inp).Some? && c.pc < 0x1000 && ValidOpcode(op)
    ensures
      var d := ExecCore(op, c, inp).value;
      && (op == 0x00EE ==> |c.stack| > 0 && d.pc == c.stack[|c.stack| - 1] && d.stack == c.stack[..|c.stack| - 1])
      && (Top(op) == 2 ==> d.stack == c.stack + [c.pc + 2])
      && (op != 0x00EE && Top(op) != 2 ==> d.stack == c.stack)
  {
    NotSystem(op);
    if ExecStraight(op, c, inp).Some? { StackKept(op, c, inp); }
    hide Top, X, Y, N, KK, NNN, ExecStraight;
  }

  lemma {:induction false} StackKept(op: word, c: Core, inp: Input)
    requires ExecStraight(op, c, inp).Some?
    ensures ExecStraight(op, c, inp).value.stack == c.stack
  {
    hide Top, X, Y, N, KK, NNN, Store, Load, Bits, SpritePixels;
  }

  lemma {:induction false} Followed(img: Memory, size: nat, p: int, q: int)
    requires size <= 0xE00 && p in Reachable(img, size) && q in StaticNext(OpAt(img, p), p) && Live(img, size, q)
    ensures q in Reachable(img, size)
  {
    hide StaticNext, Live, Reachable, OpAt;
    DisasEngine.ReachableClosed(img, size);
  }

  lemma {:induction false} TrackedStep(img: Memory, size: nat, c: Core, inp: Input)
    requires size <= 0xE00 && OnRom(img, size, c) && Tracked(img, size, c) && ExecCore(OpAt(img, c.pc), c, inp).Some?
    ensures Tracked(img, size, ExecCore(OpAt(img, c.pc), c, inp).value)
  {
    hide Reachable, OpAt, StaticNext, ExecCore, Top, ValidOpcode;
    var op, d := OpAt(img, c.pc), ExecCore(OpAt(img, c.pc), c, inp).value;
    StackStep(op, c, inp);
    ReturnTop(op);
    if op != 0x00EE { StepNext(op, c, inp); }
    OtherNext(op, c.pc);
    if Live(img, size, d.pc) && op != 0x00EE { Followed(img, size, c.pc, d.pc); }
    if Top(op) == 2 && Live(img, size, c.pc + 2) { Followed(img, size, c.pc, c.pc + 2); }
    hide Live;
  }

  lemma ReturnTop(op: word)
    ensures op == 0x00EE ==> Top(op) == 0
  {}

  /** The run stays on the ROM for its first `n` instructions. */
  ghost predicate StaysOn(cfg: Config, img: Memory, size: nat, mem: Memory, n: nat)
  {
    forall i :: 0 <= i < n ==> Run(cfg, Boot(mem), i).Ok? && OnRom(img, size, Run(cfg, Boot(mem), i).vm.core)
  }

  lemma {:induction false} TrackedRun(cfg: Config, img: Memory, size: nat, mem: Memory, n: nat)
    requires size <= 0xE00 && StaysOn(cfg, img, size, mem, n) && Run(cfg, Boot(mem), n).Ok?
    ensures Tracked(img, size, Run(cfg, Boot(mem), n).vm.core)
  {
    hide OnRom, Live, OpAt, ExecCore, EnvStep, Roll;
    if n == 0 {
      EntryReached(img, size);
    } else {
      hide Reachable;
      assert OnRom(img, size, Run(cfg, Boot(mem), n - 1).vm.core);
      TrackedRun(cfg, img, size, mem, n - 1);
      var v := Run(cfg, Boot(mem), n - 1).vm;
      PassCore(cfg, v);
      OnRomWord(img, size, v.core);
      TrackedStep(img, size, v.core, EnvStep(cfg, OpAt(v.core.mem, v.core.pc), v.core, Retire(Roll(v.env), 1)).0) by { hide Tracked; }
    }
  }

  lemma OnRomWord(img: Memory, size: nat, c: Core)
    requires OnRom(img, size, c)
    ensures OpAt(c.mem, c.pc) == OpAt(img, c.pc)
  {
    hide Live, OpAt;
  }

  lemma PassCore(cfg: Config, v: Vm)
    requires Pass(cfg, v).Ok?
    ensures
      var op := OpAt(v.core.mem, v.core.pc);
      var r := ExecCore(op, v.core, EnvStep(cfg, op, v.core, Retire(Roll(v.env), 1)).0);
      r.Some? && Pass(cfg, v).vm.core == r.value
  {
    hide OpAt, ExecCore, EnvStep, Roll;
  }

  lemma {:induction false} EntryReached(img: Memory, size: nat)
    ensures Live(img, size, ENTRYPOINT) ==> ENTRYPOINT in Reachable(img, size)
  {
    hide Live, StaticNext, OpAt;
    if Live(img, size, ENTRYPOINT) { assert Forced(img, size, ENTRYPOINT); }
  }

  /** Every live word a run comes to is reachable, whatever else is in memory, as
      long as the run stays on unmodified valid words of the ROM and computes no
      jump away from its base. */
  lemma {:induction false} RunReached(cfg: Config, rom: Rom, mem: Memory, n: nat)
    requires StaysOn(cfg, Image(rom), |rom|, mem, n) && Run(cfg, Boot(mem), n).Ok?
    ensures
      var pc := Run(cfg, Boot(mem), n).vm.core.pc;
      Live(Image(rom), |rom|, pc) ==> pc in Reachable(Image(rom), |rom|)
  {
    TrackedRun(cfg, Image(rom), |rom|, mem, n);
    hide Reachable, Run, StaysOn, Live, Image;
  }

  /** So every word a run executes, or stops at with a valid word, is printed as the
      instruction it is, without a remark that it could not be reached. */
  lemma {:induction false} ExecutedPrinted(cfg: Config, rom: Rom, mem: Memory, n: nat, all: bool)
    requires StaysOn(cfg, Image(rom), |rom|, mem, n) && Run(cfg, Boot(mem), n).Ok?
    requires Live(Image(rom), |rom|, Run(cfg, Boot(mem), n).vm.core.pc)
    ensures
      var v, k := ViewOf(rom, all), (Run(cfg, Boot(mem), n).vm.core.pc - 0x200) / 2;
      && 2 * k + 1 < v.size && v.reach[0x200 + 2 * k]
      && Statement(v.Op(k), v.leader).Some? && Words(v, k) == Statement(v.Op(k), v.leader).value
      && Remark(v, k) == if Top(v.Op(k)) == 0xB then WARNING else ""
  {
    hide StaysOn, Run, Reachable, Live, Image, Statement, ViewOf, OpAt, Top, Words, Remark;
    RunReached(cfg, rom, mem, n);
    ReachedPrinted(rom, all, Run(cfg, Boot(mem), n).vm.core.pc);
  }

  lemma {:induction false} ReachedPrinted(rom: Rom, all: bool, pc: word)
    requires Live(Image(rom), |rom|, pc) && pc in Reachable(Image(rom), |rom|)
    ensures
      var v, k := ViewOf(rom, all), (pc - 0x200) / 2;
      && 0x200 <= pc && v.Valid() && 2 * k + 1 < v.size && v.reach[0x200 + 2 * k]
      && Statement(v.Op(k), v.leader).Some? && Words(v, k) == Statement(v.Op(k), v.leader).value
      && Remark(v, k) == if Top(v.Op(k)) == 0xB then WARNING else ""
  {
    hide Reachable, Live, Image, Statement, Leads, Glued, OpAt, Top;
    WordPlace(Image(rom), |rom|, pc);
    ValidPrinted(OpAt(Image(rom), pc), ViewOf(rom, all).leader);
  }

  lemma WordPlace(img: Memory, size: nat, pc: int)
    requires Live(img, size, pc)
    ensures 0x200 <= pc && pc % 2 == 0 && pc + 1 < 0x200 + size && ValidOpcode(OpAt(img, pc))
  {
    hide OpAt, ValidOpcode;
  }

  lemma ValidPrinted(op: word, leader: seq<bool>)
    requires |leader| == 0x1000 && ValidOpcode(op)
    ensures Statement(op, leader).Some?
  {
    hide Top, X, Y, N, KK, NNN;
  }

  // ------------------------------------------------------------- exactness

  /** The graph of the machine on the words of a ROM: its steps, returns taken to
      come back behind the call, and both sides of a decided comparison. */
  ghost predicate Edge(img: Memory, p: int, q: int)
  {
    0 <= p < 0x1000 && EdgeOf(OpAt(img, p), p, q)
  }

  ghost predicate EdgeOf(op: word, p: int, q: int)
  {
    LeadsTo(op, p, q) || (Top(op) == 2 && q == p + 2) || (Decided(op) && (q == p + 2 || q == p + 4))
  }

  ghost predicate Follows(img: Memory, size: nat, s: set<int>)
  {
    && (Live(img, size, ENTRYPOINT) ==> ENTRYPOINT in s)
    && forall p, q {:trigger Edge(img, p, q)} :: p in s && Live(img, size, p) && Edge(img, p, q) && Live(img, size, q) ==> q in s
  }

  /** The reachable words are the least such set that follows the machine. */
  lemma {:induction false} ReachableExact(img: Memory, size: nat)
    requires size <= 0xE00
    ensures Follows(img, size, Reachable(img, size))
    ensures forall s, a :: Follows(img, size, s) && a in Reachable(img, size) ==> a in s
  {
    hide OpAt, StaticNext, ValidOpcode, LeadsTo, EdgeOf, Reachable;
    EntryReached(img, size);
    forall p, q {:trigger Edge(img, p, q)} | p in Reachable(img, size) && Live(img, size, p) && Edge(img, p, q) && Live(img, size, q)
      ensures q in Reachable(img, size)
    {
      EdgeNext(img, size, p, q);
      Followed(img, size, p, q);
    }
    forall s, a | Follows(img, size, s) && a in Reachable(img, size) ensures a in s {
      LiveClosed(img, size, s);
      ReachableIn(img, size, a, set b | b in s && Live(img, size, b));
    }
  }

  lemma {:induction false} EdgeNext(img: Memory, size: nat, p: int, q: int)
    requires size <= 0xE00 && Live(img, size, p)
    ensures Edge(img, p, q) <==> q in StaticNext(OpAt(img, p), p)
  {
    hide OpAt, StaticNext, ValidOpcode, LeadsTo, Decided, Top;
    NextExact(OpAt(img, p), p, q);
  }

  lemma {:induction false} LiveClosed(img: Memory, size: nat, s: set<int>)
    requires size <= 0xE00 && Follows(img, size, s)
    ensures Closed(img, size, set b | b in s && Live(img, size, b))
  {
    hide OpAt, StaticNext, ValidOpcode, Edge;
    var t := set b | b in s && Live(img, size, b);
    forall p, q | p in t && q in StaticNext(OpAt(img, p), p) && Live(img, size, q) ensures q in t {
      EdgeNext(img, size, p, q);
    }
  }

  lemma ReachableIn(img: Memory, size: nat, a: int, s: set<int>)
    requires a in Reachable(img, size) && Closed(img, size, s)
    ensures a in s
  {
    assert Forced(img, size, a);
    hide Closed, Live;
  }

  // --------------------------------------------------------------- leaders

  /** A block ends behind the instruction: it returns, jumps, or can go elsewhere
      than to the next word, other than by a call. */
  ghost predicate Breaks(op: word, p: int)
  {
    op == 0x00EE || Top(op) in {1, 0xB} || (Top(op) != 2 && exists q :: q != p + 2 && EdgeOf(op, p, q))
  }

  /** Elsewhere than the next word, and no computed jump; or behind the end of a
      block. */
  ghost predicate Branches(op: word, p: int, a: int)
  {
    || (Top(op) != 0xB && (a != p + 2 || Top(op) == 2) && (LeadsTo(op, p, a) || (Decided(op) && a == p + 4)))
    || (a == p + 2 && Breaks(op, p))
  }

  /** At word addresses of the ROM a valid instruction makes leaders of exactly what
      it can lead to elsewhere, and of what follows the end of a block. */
  lemma {:induction false} MakesExact(op: word, p: address, size: nat, a: int)
    requires Labelable(a, size)
    ensures Makes(op, p, size, a) <==> ValidOpcode(op) && Branches(op, p, a)
  {
    if ValidOpcode(op) { ValidMakes(op, p, size, a); } else { InvalidMakes(op, p, size, a); }
    hide Makes, ValidOpcode, Branches;
  }

  lemma InvalidMakes(op: word, p: address, size: nat, a: int)
    requires !ValidOpcode(op)
    ensures !Makes(op, p, size, a)
  {
    NotSystem(op);
    hide Top, NNN, N, KK;
  }

  lemma {:induction false} ValidMakes(op: word, p: address, size: nat, a: int)
    requires ValidOpcode(op) && Labelable(a, size)
    ensures Makes(op, p, size, a) <==> Branches(op, p, a)
  {
    hide ValidOpcode, LeadsTo, Decided, Top, NNN, N, KK;
    NextExact(op, p, a) by { hide StaticNext; }
    ReturnTop(op);
    SkipGroups(op);
    if Top(op) == 2 { CallLeads(op, p, a); }
    if Breaks(op, p) && op != 0x00EE && Top(op) !in {1, 0xB} {
      var q :| q != p + 2 && EdgeOf(op, p, q);
      NextExact(op, p, q) by { hide StaticNext; }
    }
    if ValidSkip(op) {
      NextExact(op, p, p + 4) by { hide StaticNext; }
      assert EdgeOf(op, p, p + 4);
    }
  }

  lemma {:induction false} CallLeads(op: word, p: address, q: int)
    requires ValidOpcode(op) && Top(op) == 2
    ensures LeadsTo(op, p, q) <==> q == NNN(op)
  {
    hide ExecCore, ValidOpcode, Top, X, Y, KK, NNN;
    assert op != 0x00EE && !Decided(op) by { NotSystem(op); }
    ChooseStep(op, p, false);
    var c := Able(Blank(), p, Choosing(op, false));
    assert q == NNN(op) ==> GoesTo(op, c, NO_INPUT.(hit := false), q);
    if LeadsTo(op, p, q) {
      var d: Core, inp: Input :| d.pc == p && GoesTo(op, d, inp, q);
      CallStep(op, d, inp);
    }
  }

  lemma CallStep(op: word, c: Core, inp: Input)
    requires Top(op) == 2 && ExecCore(op, c, inp).Some?
    ensures ExecCore(op, c, inp).value.pc == NNN(op)
  {
    NotSystem(op);
    hide Top, X, Y, KK, NNN, ExecStraight;
  }

  lemma SkipGroups(op: word)
    requires ValidOpcode(op)
    ensures ValidSkip(op) <==> Top(op) in {3, 4, 5, 9, 0xE}
  {
    NotSystem(op);
    hide Top, KK, N;
  }

  /** The valid words are those the interpreter accepts on some machine, but for
      0nnn, which it takes for a jump, and comparisons of registers with a low digit. */
  lemma {:induction false} ValidExact(op: word)
    ensures ValidOpcode(op) <==>
      !Rejected(op) && (Top(op) == 0 ==> op == 0x00E0 || op == 0x00EE) && (Top(op) in {5, 9} ==> N(op) == 0)
  {
    hide ExecCore, ValidOpcode, Top, N;
    var c := Able(Blank(), 0, Zeros());
    AcceptsValid(op, c);
    if !Rejected(op) {
      var d: Core, inp: Input :| ExecCore(op, d, inp).Some?;
      AcceptsOnly(op, d, inp);
    }
  }

  lemma {:induction false} AcceptsValid(op: word, c: Core)
    requires ValidOpcode(op) ==> 0 < |c.stack| < 0x10
    ensures ValidOpcode(op) ==>
      ExecCore(op, c, NO_INPUT).Some? && (Top(op) == 0 ==> op == 0x00E0 || op == 0x00EE) && (Top(op) in {5, 9} ==> N(op) == 0)
  {
    NotSystem(op);
    hide Top, X, Y, N, KK, NNN, Store, Load, Bits, SpritePixels, SkipIf;
  }

  lemma {:induction false} AcceptsOnly(op: word, c: Core, inp: Input)
    requires ExecCore(op, c, inp).Some?
    ensures ValidOpcode(op) || (Top(op) == 0 && op != 0x00E0 && op != 0x00EE) || (Top(op) in {5, 9} && N(op) != 0)
  {
    NotSystem(op);
    hide Top, X, Y, N, KK, NNN, Store, Load, Bits, SpritePixels, SkipIf;
  }
}
