/** The ahead-of-time compiler: every word of an even-sized ROM becomes a block
    of LLVM IR behind one dispatcher. The blocks are in SSA form, and dispatching
    does what the interpreter does. */
module Aot {
  import opened Chip8
  import opened Bench
  import opened Tape
  import opened Disas
  import V = Supported

  // --------------------------------------------------------------- the IR

  /** SSA names; each carries the address of its block. */
  datatype Name = RegPtr(pc: nat, r: nibble) | RegVal(pc: nat, r: nibble) | Cond(pc: nat) | NextPc(pc: nat)
                | Sum(pc: nat) | Wide(pc: nat) | Target(pc: nat)

  datatype Helper =
    | Clear | Return | CallTo(dst: address, ret: word) | Alu(x: nibble, y: nibble, n: nibble)
    | Random(x: nibble, k: byte) | Draw(x: nibble, y: nibble, n: nibble) | Key(x: nibble, up: bool) | Misc(x: nibble, k: byte)

  datatype Instr =
    | ElementPtr(d: Name, r: nibble)
    | LoadByte(d: Name, p: Name)
    | StoreConst(k: byte, p: Name)
    | StoreByte(v: Name, p: Name)
    | AddByte(d: Name, v: Name, k: byte)
    | CompareConst(d: Name, eq: bool, v: Name, k: byte)
    | Compare(d: Name, eq: bool, v: Name, w: Name)
    | Select(d: Name, c: Name, yes: word, no: word)
    | Extend(d: Name, v: Name)
    | AddWord(d: Name, imm: word, v: Name)
    | StorePc(imm: word)
    | StorePcFrom(v: Name)
    | StoreAddr(imm: word)
    | CallHelper(h: Helper)

  datatype Value = Pointer(r: nibble) | Number(n: nat)

  /** `sent` are the timer settings the block has sent out. */
  datatype Frame = Frame(core: Core, names: map<Name, Value>, sent: seq<Sent>)

  /** None: a name used before it is defined, or defined twice. */
  function Bind(f: Frame, d: Name, v: Value): Option<Frame>
  {
    if d in f.names then None else Some(f.(names := f.names[d := v]))
  }

  function NumberOf(f: Frame, v: Name): Option<nat>
  {
    if v in f.names && f.names[v].Number? then Some(f.names[v].n) else None
  }

  // ------------------------------------------------------ the runtime helpers

  /** Where the runtime sends the program counter to leave the dispatcher. */
  const LOST_PC: word := 0xFFFF

  function AluOp(x: nibble, y: nibble, n: nibble, c: Core): Core
  {
    var a: int, b: int := c.regs[x], c.regs[y];
    match n
    case 0 => SetReg(c, x, b)
    case 1 => SetReg(c, x, Bits8(OR, a, b))
    case 2 => SetReg(c, x, Bits8(AND, a, b))
    case 3 => SetReg(c, x, Bits8(XOR, a, b))
    case 4 => SetRegFlag(c, x, a + b, a + b > 255)
    case 5 => SetRegFlag(c, x, a - b, a >= b)
    case 6 => SetRegFlag(c, x, a / 2, a % 2 == 1)
    case 7 => SetRegFlag(c, x, b - a, b >= a)
    case 14 => SetRegFlag(c, x, a * 2, a / 128 == 1)
    case _ => c.(pc := LOST_PC)
  }

  /** chip8_aot_f, for all but the key wait. */
  function MiscOp(x: nibble, k: byte, c: Core, inp: Input): Core
  {
    match k
    case 7 => SetReg(c, x, inp.delay)
    case 10 => c
    case 21 => c
    case 24 => c
    case 30 => c.(i := (c.i + c.regs[x]) % 0x10000)
    case 41 => c.(i := c.regs[x] % 16 * 5)
    case 51 => c.(mem := Store(c.mem, c.i, Digits(c.regs[x])))
    case 85 => c.(mem := Store(c.mem, c.i, c.regs[..x + 1]))
    case 101 => c.(regs := Load(c.mem, c.i, x + 1) + c.regs[x + 1..])
    case _ => c.(pc := LOST_PC)
  }

  function RunHelper(h: Helper, c: Core, inp: Input): Core
  {
    match h
    case Clear => c.(lit := {})
    case Return => (
      if |c.stack| > 0 then c.(pc := c.stack[|c.stack| - 1], stack := c.stack[..|c.stack| - 1]) else c.(pc := LOST_PC))
    case CallTo(dst, ret) =>
      if |c.stack| < STACK_SIZE then c.(stack := c.stack + [ret], pc := dst) else c.(pc := LOST_PC)
    case Alu(x, y, n) => AluOp(x, y, n, c)
    case Random(x, k) => SetReg(c, x, Bits8(AND, inp.rnd, k))
    case Draw(x, y, n) => (
      var sprite := SpritePixels(c.regs[x], c.regs[y], Load(c.mem, c.i, n));
      c.(lit := Toggle(c.lit, sprite), regs := c.regs[0xF := Bit(c.lit * sprite != {})]))
    case Key(_, _) => SkipIf(c, inp.hit)
    case Misc(x, k) => MiscOp(x, k, c, inp)
  }

  /** The timer stores of chip8_aot_f. */
  function HelperSent(h: Helper, f: Frame): seq<Sent>
  {
    match h
    case Misc(x, k) =>
      if k == 21 then f.sent + [DelaySet(f.core.regs[x])] else if k == 24 then f.sent + [SoundSet(f.core.regs[x])] else f.sent
    case _ => f.sent
  }

  function RunInstr(i: Instr, f: Frame, inp: Input): Option<Frame>
  {
    match i
    case ElementPtr(d, r) => Bind(f, d, Pointer(r))
    case LoadByte(d, p) =>
      if p in f.names && f.names[p].Pointer? then Bind(f, d, Number(f.core.regs[f.names[p].r])) else None
    case StoreConst(k, p) =>
      if p in f.names && f.names[p].Pointer? then Some(f.(core := SetReg(f.core, f.names[p].r, k))) else None
    case StoreByte(v, p) =>
      if NumberOf(f, v).Some? && p in f.names && f.names[p].Pointer?
      then Some(f.(core := SetReg(f.core, f.names[p].r, NumberOf(f, v).value))) else None
    case AddByte(d, v, k) =>
      if NumberOf(f, v).Some? then Bind(f, d, Number((NumberOf(f, v).value + k) % 0x100)) else None
    case CompareConst(d, eq, v, k) =>
      if NumberOf(f, v).Some? then Bind(f, d, Number(if (NumberOf(f, v).value == k) == eq then 1 else 0)) else None
    case Compare(d, eq, v, w) =>
      if NumberOf(f, v).Some? && NumberOf(f, w).Some?
      then Bind(f, d, Number(if (NumberOf(f, v).value == NumberOf(f, w).value) == eq then 1 else 0)) else None
    case Select(d, c, yes, no) =>
      if NumberOf(f, c).Some? then Bind(f, d, Number(if NumberOf(f, c).value == 1 then yes else no)) else None
    case Extend(d, v) => if NumberOf(f, v).Some? then Bind(f, d, Number(NumberOf(f, v).value)) else None
    case AddWord(d, k, v) =>
      if NumberOf(f, v).Some? then Bind(f, d, Number((NumberOf(f, v).value + k) % 0x10000)) else None
    case StorePc(k) => Some(f.(core := f.core.(pc := k)))
    case StorePcFrom(v) =>
      if NumberOf(f, v).Some? && NumberOf(f, v).value < 0x10000 then Some(f.(core := f.core.(pc := NumberOf(f, v).value))) else None
    case StoreAddr(k) => Some(f.(core := f.core.(i := k)))
    case CallHelper(h) => Some(f.(core := RunHelper(h, f.core, inp), sent := HelperSent(h, f)))
  }

  function RunCode(code: seq<Instr>, f: Frame, inp: Input): Option<Frame>
  {
    if code == [] then Some(f)
    else match RunInstr(code[0], f, inp)
      case Some(g) => RunCode(code[1..], g, inp)
      case None => None
  }

  // ---------------------------------------------------------------- lowering

  function Loads(pc: nat, r: nibble): seq<Instr>
  {
    [ElementPtr(RegPtr(pc, r), r), LoadByte(RegVal(pc, r), RegPtr(pc, r))]
  }

  function Choose(pc: nat): seq<Instr>
    requires pc < 0x1000
  {
    [Select(NextPc(pc), Cond(pc), pc + 4, pc + 2), StorePcFrom(NextPc(pc))]
  }

  /** The code of the block for `op` at `pc`, after its head. */
  function Lowered(pc: nat, op: word): seq<Instr>
    requires pc < 0x1000
  {
    var x, y := X(op), Y(op);
    if op == 0x00E0 then [CallHelper(Clear), StorePc(pc + 2)]
    else if op == 0x00EE then [CallHelper(Return)]
    else match Top(op)
      case 0x2 => [CallHelper(CallTo(NNN(op), pc + 2))]
      case 0x3 => Loads(pc, x) + [CompareConst(Cond(pc), true, RegVal(pc, x), KK(op))] + Choose(pc)
      case 0x4 => Loads(pc, x) + [CompareConst(Cond(pc), false, RegVal(pc, x), KK(op))] + Choose(pc)
      case 0x5 =>
        Loads(pc, x) + (if x == y then [] else Loads(pc, y)) + [Compare(Cond(pc), true, RegVal(pc, x), RegVal(pc, y))] + Choose(pc)
      case 0x9 =>
        Loads(pc, x) + (if x == y then [] else Loads(pc, y)) + [Compare(Cond(pc), false, RegVal(pc, x), RegVal(pc, y))] + Choose(pc)
      case 0x6 => [ElementPtr(RegPtr(pc, x), x), StoreConst(KK(op), RegPtr(pc, x)), StorePc(pc + 2)]
      case 0x7 => Loads(pc, x) + [AddByte(Sum(pc), RegVal(pc, x), KK(op)), StoreByte(Sum(pc), RegPtr(pc, x)), StorePc(pc + 2)]
      case 0x8 => [CallHelper(Alu(x, y, N(op))), StorePc(pc + 2)]
      case 0xA => [StoreAddr(NNN(op)), StorePc(pc + 2)]
      case 0xB => Loads(pc, 0) + [Extend(Wide(pc), RegVal(pc, 0)), AddWord(Target(pc), NNN(op), Wide(pc)), StorePcFrom(Target(pc))]
      case 0xC => [CallHelper(Random(x, KK(op))), StorePc(pc + 2)]
      case 0xD => [CallHelper(Draw(x, y, N(op))), StorePc(pc + 2)]
      case 0xE => [CallHelper(Key(x, KK(op) == 0xA1))]
      case 0xF => [CallHelper(Misc(x, KK(op))), StorePc(pc + 2)]
      case _ => [StorePc(NNN(op))]
  }

  /** The words both engines implement alike: no unsupported 8xyn, Exkk or Fxkk,
      and no key wait. */
  predicate Supported(op: word)
  {
    match Top(op)
    case 0x8 => N(op) <= 7 || N(op) == 0xE
    case 0xE => KK(op) == 0x9E || KK(op) == 0xA1
    case 0xF => KK(op) in {0x07, 0x15, 0x18, 0x1E, 0x29, 0x33, 0x55, 0x65}
    case _ => true
  }

  // ------------------------------------------------------------- the program

  function RomWord(rom: Rom, pc: nat): word
    requires 0x200 <= pc && pc + 1 < 0x200 + |rom|
  {
    var high: int, low: int := rom[pc - 0x200], rom[pc - 0x200 + 1];
    high * 0x100 + low
  }

  /** The dispatcher has a block for `pc`. */
  predicate HasBlock(rom: Rom, pc: nat)
  {
    pc % 2 == 0 && 0x200 <= pc && pc + 1 < 0x200 + |rom|
  }

  // -------------------------------------------------------------- the emitter

  /** The emitter, with the masks of the registers whose pointer and value the
      current block has already got. */
  class Emitter {
    var code: seq<Instr>
    var ptrMask: set<nibble>
    var loadMask: set<nibble>

    constructor ()
      ensures code == [] && ptrMask == {} && loadMask == {}
    {
      code, ptrMask, loadMask := [], {}, {};
    }

    method Regptr(pc: nat, r: nibble)
      modifies this
      ensures ptrMask == old(ptrMask) + {r} && loadMask == old(loadMask)
      ensures code == old(code) + if r in old(ptrMask) then [] else [ElementPtr(RegPtr(pc, r), r)]
    {
      if r !in ptrMask {
        code := code + [ElementPtr(RegPtr(pc, r), r)];
        ptrMask := ptrMask + {r};
      }
    }

    method Loadreg(pc: nat, r: nibble)
      modifies this
      ensures ptrMask == old(ptrMask) + {r} && loadMask == old(loadMask) + {r}
      ensures code == old(code)
        + (if r in old(ptrMask) then [] else [ElementPtr(RegPtr(pc, r), r)])
        + (if r in old(loadMask) then [] else [LoadByte(RegVal(pc, r), RegPtr(pc, r))])
    {
      Regptr(pc, r);
      if r !in loadMask {
        code := code + [LoadByte(RegVal(pc, r), RegPtr(pc, r))];
        loadMask := loadMask + {r};
      }
    }

    method Emit(more: seq<Instr>)
      modifies this
      ensures code == old(code) + more && ptrMask == old(ptrMask) && loadMask == old(loadMask)
    {
      code := code + more;
    }

    /** The first registers of a block; the second may be the first again. */
    method LoadTwo(pc: nat, x: nibble, y: nibble)
      requires ptrMask == {} == loadMask
      modifies this
      ensures code == old(code) + (Loads(pc, x) + if x == y then [] else Loads(pc, y))
    {
      ghost var was := code;
      Loadreg(pc, x);
      assert code == was + Loads(pc, x);
      Loadreg(pc, y);
      hide Loads;
    }

    /** The skips on registers and bytes. */
    method CompareBlock(pc: nat, op: word)
      requires pc < 0x1000 && Top(op) in {3, 4, 5, 9} && ptrMask == {} == loadMask
      modifies this
      ensures code == old(code) + Lowered(pc, op)
    {
      hide Top, X, Y, KK, Choose, Loads;
      NotSystem(op);
      var x, y := X(op), Y(op);
      ghost var was := code;
      if Top(op) == 3 || Top(op) == 4 {
        LoadTwo(pc, x, x);
        Emit([CompareConst(Cond(pc), Top(op) == 3, RegVal(pc, x), KK(op))] + Choose(pc));
        Joined(was, Loads(pc, x) + [], [CompareConst(Cond(pc), Top(op) == 3, RegVal(pc, x), KK(op))], Choose(pc));
        assert Loads(pc, x) + [] == Loads(pc, x);
      } else {
        LoadTwo(pc, x, y);
        Emit([Compare(Cond(pc), Top(op) == 5, RegVal(pc, x), RegVal(pc, y))] + Choose(pc));
        Joined(was, Loads(pc, x) + (if x == y then [] else Loads(pc, y)),
               [Compare(Cond(pc), Top(op) == 5, RegVal(pc, x), RegVal(pc, y))], Choose(pc));
      }
    }

    /** 6xkk, 7xkk, Bnnn. */
    method RegisterBlock(pc: nat, op: word)
      requires pc < 0x1000 && Top(op) in {6, 7, 0xB} && ptrMask == {} == loadMask
      modifies this
      ensures code == old(code) + Lowered(pc, op)
    {
      hide Top, X, KK, NNN;
      NotSystem(op);
      var x := X(op);
      if Top(op) == 6 {
        Regptr(pc, x);
        Emit([StoreConst(KK(op), RegPtr(pc, x)), StorePc(pc + 2)]);
      } else if Top(op) == 7 {
        Loadreg(pc, x);
        Emit([AddByte(Sum(pc), RegVal(pc, x), KK(op))]);
        Regptr(pc, x);
        Emit([StoreByte(Sum(pc), RegPtr(pc, x)), StorePc(pc + 2)]);
      } else {
        Loadreg(pc, 0);
        Emit([Extend(Wide(pc), RegVal(pc, 0)), AddWord(Target(pc), NNN(op), Wide(pc)), StorePcFrom(Target(pc))]);
      }
      assert code == old(code) + Lowered(pc, op);
    }

    /** block: the code for one word. */
    method Block(pc: nat, op: word)
      requires pc < 0x1000
      modifies this
      ensures code == old(code) + Lowered(pc, op)
    {
      hide Top, X, Y, N, KK, NNN, Loads, Choose;
      NotSystem(op);
      ptrMask, loadMask := {}, {};
      var x, y := X(op), Y(op);
      if op == 0x00E0 {
        Emit([CallHelper(Clear), StorePc(pc + 2)]);
        return;
      }
      if op == 0x00EE {
        Emit([CallHelper(Return)]);
        return;
      }
      match Top(op) {
        case 0x2 => Emit([CallHelper(CallTo(NNN(op), pc + 2))]);
        case 0x3 | 0x4 | 0x5 | 0x9 => CompareBlock(pc, op);
        case 0x6 | 0x7 | 0xB => RegisterBlock(pc, op);
        case 0x8 => Emit([CallHelper(Alu(x, y, N(op))), StorePc(pc + 2)]);
        case 0xA => Emit([StoreAddr(NNN(op)), StorePc(pc + 2)]);
        case 0xC => Emit([CallHelper(Random(x, KK(op))), StorePc(pc + 2)]);
        case 0xD => Emit([CallHelper(Draw(x, y, N(op))), StorePc(pc + 2)]);
        case 0xE => Emit([CallHelper(Key(x, KK(op) == 0xA1))]);
        case 0xF => Emit([CallHelper(Misc(x, KK(op))), StorePc(pc + 2)]);
        case _ => Emit([StorePc(NNN(op))]);
      }
    }

    /** The whole program: a block for every word of the ROM, by its address, if the
        size is even and not zero. */
    method Program(rom: Rom) returns (ok: bool, blocks: map<nat, seq<Instr>>)
      modifies this
      ensures ok <==> rom != [] && |rom| % 2 == 0
      ensures ok ==> forall pc :: pc in blocks <==> HasBlock(rom, pc)
      ensures ok ==> forall i :: 0 <= i < |rom| && i % 2 == 0 ==> 0x200 + i in blocks
      ensures ok ==> forall pc :: pc in blocks && 0x200 <= pc && pc + 1 < 0x200 + |rom| ==> blocks[pc] == Lowered(pc, RomWord(rom, pc))
    {
      hide Lowered;
      blocks := map[];
      ok := rom != [] && |rom| % 2 == 0;
      if !ok { return; }
      var i := 0;
      while i < |rom|
        invariant 0 <= i <= |rom| && i % 2 == 0
        invariant forall pc :: pc in blocks <==> pc % 2 == 0 && 0x200 <= pc < 0x200 + i
        invariant forall pc :: pc in blocks ==> blocks[pc] == Lowered(pc, RomWord(rom, pc))
      {
        code := [];
        Block(0x200 + i, RomWord(rom, 0x200 + i));
        blocks := blocks[0x200 + i := code];
        i := i + 2;
      }
    }
  }

  lemma Joined(a: seq<Instr>, b: seq<Instr>, c: seq<Instr>, d: seq<Instr>)
    ensures a + b + (c + d) == a + (b + c + d)
  {}

  // ------------------------------------------------------------- correctness

  lemma {:induction false} RunSplit(a: seq<Instr>, b: seq<Instr>, f: Frame, inp: Input)
    ensures RunCode(a + b, f, inp) == match RunCode(a, f, inp) case Some(g) => RunCode(b, g, inp) case None => None
  {
    if a == [] {
      assert a + b == b;
    } else {
      assert (a + b)[1..] == a[1..] + b;
      match RunInstr(a[0], f, inp)
      case Some(g) => RunSplit(a[1..], b, g, inp);
      case None =>
    }
    hide RunInstr;
  }

  lemma {:induction false} RunFew(i: Instr, j: Instr, f: Frame, inp: Input)
    ensures RunCode([], f, inp) == Some(f) && RunCode([i], f, inp) == RunInstr(i, f, inp)
    ensures RunCode([i, j], f, inp) == match RunInstr(i, f, inp) case Some(g) => RunInstr(j, g, inp) case None => None
  {
    hide RunInstr;
    assert [i][1..] == [] && [j][1..] == [];
    RunSplit([i], [j], f, inp);
    assert [i] + [j] == [i, j];
  }

  /** What the interpreter leaves, or the sentinel that ends the dispatcher. */
  function Expected(op: word, c: Core, inp: Input): Core
  {
    match ExecCore(op, c, inp)
    case Some(d) => d
    case None => c.(pc := LOST_PC)
  }

  /** The code runs without using an undefined name or defining one twice, ends
      in `d` and has sent `sent`. */
  ghost predicate Yields(code: seq<Instr>, f: Frame, inp: Input, d: Core, sent: seq<Sent>)
  {
    RunCode(code, f, inp).Some? && RunCode(code, f, inp).value.core == d && RunCode(code, f, inp).value.sent == sent
  }

  function Empty(c: Core): Frame { Frame(c, map[], []) }

  lemma {:induction false} LoadsDo(pc: nat, r: nibble, f: Frame, inp: Input)
    requires RegPtr(pc, r) !in f.names && RegVal(pc, r) !in f.names
    ensures RunCode(Loads(pc, r), f, inp) ==
      Some(f.(names := f.names[RegPtr(pc, r) := Pointer(r)][RegVal(pc, r) := Number(f.core.regs[r])]))
  {
    RunFew(ElementPtr(RegPtr(pc, r), r), LoadByte(RegVal(pc, r), RegPtr(pc, r)), f, inp);
    hide RunCode;
  }

  lemma {:induction false} ChooseDoes(pc: nat, taken: bool, f: Frame, inp: Input)
    requires pc < 0x1000 && f.core.pc == pc && NextPc(pc) !in f.names
    requires Cond(pc) in f.names && f.names[Cond(pc)] == Number(if taken then 1 else 0)
    ensures Yields(Choose(pc), f, inp, SkipIf(f.core, taken), f.sent)
  {
    RunFew(Select(NextPc(pc), Cond(pc), pc + 4, pc + 2), StorePcFrom(NextPc(pc)), f, inp);
    hide RunCode;
  }

  lemma {:induction false} CompareDoes(pc: nat, test: Instr, taken: bool, f: Frame, inp: Input)
    requires pc < 0x1000 && f.core.pc == pc && NextPc(pc) !in f.names
    requires RunInstr(test, f, inp) == Some(f.(names := f.names[Cond(pc) := Number(if taken then 1 else 0)]))
    ensures Yields([test] + Choose(pc), f, inp, SkipIf(f.core, taken), f.sent)
  {
    hide RunInstr, Choose, RunCode, SkipIf;
    RunSplit([test], Choose(pc), f, inp);
    RunFew(test, test, f, inp);
    ChooseDoes(pc, taken, f.(names := f.names[Cond(pc) := Number(if taken then 1 else 0)]), inp);
  }

  /** 3xkk, 4xkk. */
  lemma {:induction false} SkipConst(pc: nat, op: word, c: Core, inp: Input)
    requires pc < 0x1000 && c.pc == pc && Top(op) in {3, 4}
    ensures Yields(Lowered(pc, op), Empty(c), inp, Expected(op, c, inp), [])
  {
    hide X, Y, N, KK, NNN, Top, Choose, RunCode, SkipIf, ExecStraight;
    NotSystem(op);
    var x, eq := X(op), Top(op) == 3;
    LoadsDo(pc, x, Empty(c), inp);
    var test := CompareConst(Cond(pc), eq, RegVal(pc, x), KK(op));
    var f := Empty(c).(names := map[RegPtr(pc, x) := Pointer(x)][RegVal(pc, x) := Number(c.regs[x])]);
    CompareDoes(pc, test, (c.regs[x] == KK(op)) == eq, f, inp);
    RunSplit(Loads(pc, x), [test] + Choose(pc), Empty(c), inp);
    assert Lowered(pc, op) == Loads(pc, x) + ([test] + Choose(pc));
  }

  lemma {:induction false} BothLoads(pc: nat, x: nibble, y: nibble, c: Core, inp: Input)
    ensures
      var r := RunCode(Loads(pc, x) + (if x == y then [] else Loads(pc, y)), Empty(c), inp);
      && r.Some? && r.value.core == c && r.value.sent == [] && NextPc(pc) !in r.value.names && Cond(pc) !in r.value.names
      && RegVal(pc, x) in r.value.names && r.value.names[RegVal(pc, x)] == Number(c.regs[x])
      && RegVal(pc, y) in r.value.names && r.value.names[RegVal(pc, y)] == Number(c.regs[y])
  {
    hide RunCode, Loads;
    LoadsDo(pc, x, Empty(c), inp);
    if x == y {
      assert Loads(pc, x) + [] == Loads(pc, x);
    } else {
      var f := Empty(c).(names := map[RegPtr(pc, x) := Pointer(x)][RegVal(pc, x) := Number(c.regs[x])]);
      LoadsDo(pc, y, f, inp);
      RunSplit(Loads(pc, x), Loads(pc, y), Empty(c), inp);
    }
  }

  /** 5xy0, 9xy0; x and y may be the same register. */
  lemma {:induction false} SkipRegs(pc: nat, op: word, c: Core, inp: Input)
    requires pc < 0x1000 && c.pc == pc && Top(op) in {5, 9}
    ensures Yields(Lowered(pc, op), Empty(c), inp, Expected(op, c, inp), [])
  {
    hide X, Y, N, KK, NNN, Top, Choose, RunCode, SkipIf, ExecStraight, Loads;
    NotSystem(op);
    var x, y, eq := X(op), Y(op), Top(op) == 5;
    var loads := Loads(pc, x) + (if x == y then [] else Loads(pc, y));
    BothLoads(pc, x, y, c, inp);
    var f := RunCode(loads, Empty(c), inp).value;
    var test := Compare(Cond(pc), eq, RegVal(pc, x), RegVal(pc, y));
    CompareDoes(pc, test, (c.regs[x] == c.regs[y]) == eq, f, inp);
    RunSplit(loads, [test] + Choose(pc), Empty(c), inp);
    assert Lowered(pc, op) == loads + ([test] + Choose(pc));
  }

  /** 7xkk. */
  lemma {:induction false} AddConst(pc: nat, op: word, c: Core, inp: Input)
    requires pc < 0x1000 && c.pc == pc && Top(op) == 7
    ensures Yields(Lowered(pc, op), Empty(c), inp, Expected(op, c, inp), [])
  {
    hide X, Y, N, KK, NNN, Top, RunCode, Loads;
    NotSystem(op);
    var x := X(op);
    LoadsDo(pc, x, Empty(c), inp);
    var f := Empty(c).(names := map[RegPtr(pc, x) := Pointer(x)][RegVal(pc, x) := Number(c.regs[x])]);
    var add, put, next := AddByte(Sum(pc), RegVal(pc, x), KK(op)), StoreByte(Sum(pc), RegPtr(pc, x)), StorePc(pc + 2);
    RunSplit(Loads(pc, x), [add] + [put, next], Empty(c), inp);
    RunSplit([add], [put, next], f, inp);
    RunFew(add, add, f, inp);
    var g := RunInstr(add, f, inp).value;
    RunFew(put, next, g, inp);
    assert Lowered(pc, op) == Loads(pc, x) + ([add] + [put, next]);
  }

  /** Bnnn. */
  lemma {:induction false} Computed(pc: nat, op: word, c: Core, inp: Input)
    requires pc < 0x1000 && c.pc == pc && Top(op) == 0xB
    ensures Yields(Lowered(pc, op), Empty(c), inp, Expected(op, c, inp), [])
  {
    hide X, Y, N, KK, NNN, Top, RunCode, Loads, ExecStraight;
    NotSystem(op);
    LoadsDo(pc, 0, Empty(c), inp);
    var f := Empty(c).(names := map[RegPtr(pc, 0) := Pointer(0)][RegVal(pc, 0) := Number(c.regs[0])]);
    var wide, add, put := Extend(Wide(pc), RegVal(pc, 0)), AddWord(Target(pc), NNN(op), Wide(pc)), StorePcFrom(Target(pc));
    RunSplit(Loads(pc, 0), [wide] + [add, put], Empty(c), inp);
    RunSplit([wide], [add, put], f, inp);
    RunFew(wide, wide, f, inp);
    RunFew(add, put, RunInstr(wide, f, inp).value, inp);
    assert Lowered(pc, op) == Loads(pc, 0) + ([wide] + [add, put]);
  }

  /** The words lowered to one or two instructions without names. */
  lemma {:induction false} Direct(pc: nat, op: word, c: Core, inp: Input)
    requires pc < 0x1000 && c.pc == pc && Supported(op) && Top(op) !in {3, 4, 5, 6, 7, 9, 0xB}
    ensures Yields(Lowered(pc, op), Empty(c), inp, Expected(op, c, inp), Sends(op, c))
  {
    hide X, Y, N, KK, NNN, Top, RunCode, SkipIf, Supported, Expected, RunHelper;
    NotSystem(op);
    var code := Lowered(pc, op);
    RunFew(code[0], if |code| == 2 then code[1] else code[0], Empty(c), inp);
    DirectCore(pc, op, c, inp);
  }

  lemma {:induction false} DirectCore(pc: nat, op: word, c: Core, inp: Input)
    requires pc < 0x1000 && c.pc == pc && Supported(op) && Top(op) !in {3, 4, 5, 6, 7, 9, 0xB}
    ensures op == 0x00E0 ==> Expected(op, c, inp) == RunHelper(Clear, c, inp).(pc := pc + 2)
    ensures op == 0x00EE ==> Expected(op, c, inp) == RunHelper(Return, c, inp)
    ensures Top(op) == 2 ==> Expected(op, c, inp) == RunHelper(CallTo(NNN(op), pc + 2), c, inp)
    ensures Top(op) == 8 ==> Expected(op, c, inp) == RunHelper(Alu(X(op), Y(op), N(op)), c, inp).(pc := pc + 2)
    ensures Top(op) == 0xA ==> Expected(op, c, inp) == c.(i := NNN(op), pc := pc + 2)
    ensures Top(op) == 0xC ==> Expected(op, c, inp) == RunHelper(Random(X(op), KK(op)), c, inp).(pc := pc + 2)
    ensures Top(op) == 0xD ==> Expected(op, c, inp) == RunHelper(Draw(X(op), Y(op), N(op)), c, inp).(pc := pc + 2)
    ensures Top(op) == 0xE ==> Expected(op, c, inp) == RunHelper(Key(X(op), KK(op) == 0xA1), c, inp)
    ensures Top(op) == 0xF ==> Expected(op, c, inp) == RunHelper(Misc(X(op), KK(op)), c, inp).(pc := pc + 2)
    ensures Top(op) <= 1 && op != 0x00E0 && op != 0x00EE ==> Expected(op, c, inp) == c.(pc := NNN(op))
  {
    NotSystem(op);
    if Top(op) == 8 { AluCore(pc, op, c, inp); }
    else if Top(op) == 0xF { MiscCore(pc, op, c, inp); }
    hide X, Y, N, KK, NNN, Bits, SpritePixels, Load, Store, ExecArith, ExecMisc, AluOp, MiscOp;
  }

  lemma {:induction false} AluCore(pc: nat, op: word, c: Core, inp: Input)
    requires pc < 0x1000 && c.pc == pc && Supported(op) && Top(op) == 8
    ensures Expected(op, c, inp) == RunHelper(Alu(X(op), Y(op), N(op)), c, inp).(pc := pc + 2)
  {
    NotSystem(op);
    hide X, Y, N, KK, NNN, Bits, Top;
  }

  lemma {:induction false} MiscCore(pc: nat, op: word, c: Core, inp: Input)
    requires pc < 0x1000 && c.pc == pc && Supported(op) && Top(op) == 0xF
    ensures Expected(op, c, inp) == RunHelper(Misc(X(op), KK(op)), c, inp).(pc := pc + 2)
  {
    NotSystem(op);
    hide X, Y, N, KK, NNN, Load, Store, Top;
  }

  /** 6xkk. */
  lemma {:induction false} LoadConst(pc: nat, op: word, c: Core, inp: Input)
    requires pc < 0x1000 && c.pc == pc && Top(op) == 6
    ensures Yields(Lowered(pc, op), Empty(c), inp, Expected(op, c, inp), [])
  {
    hide X, Y, N, KK, NNN, Top, RunCode;
    NotSystem(op);
    var x := X(op);
    var ptr, put, next := ElementPtr(RegPtr(pc, x), x), StoreConst(KK(op), RegPtr(pc, x)), StorePc(pc + 2);
    RunSplit([ptr], [put, next], Empty(c), inp);
    RunFew(ptr, ptr, Empty(c), inp);
    RunFew(put, next, RunInstr(ptr, Empty(c), inp).value, inp);
    assert Lowered(pc, op) == [ptr] + [put, next];
  }

  lemma QuietGroups(op: word, c: Core)
    ensures Top(op) != 0xF ==> Sends(op, c) == []
  {}

  /** Every block is well formed, does what the interpreter does and sends the
      same timer settings. */
  lemma {:induction false} BlockCorrect(pc: nat, op: word, c: Core, inp: Input)
    requires pc < 0x1000 && c.pc == pc && Supported(op)
    ensures Yields(Lowered(pc, op), Empty(c), inp, Expected(op, c, inp), Sends(op, c))
  {
    hide Lowered, Expected, Yields, Supported, Top, Sends;
    QuietGroups(op, c);
    if Top(op) in {3, 4} { SkipConst(pc, op, c, inp); }
    else if Top(op) in {5, 9} { SkipRegs(pc, op, c, inp); }
    else if Top(op) == 6 { LoadConst(pc, op, c, inp); }
    else if Top(op) == 7 { AddConst(pc, op, c, inp); }
    else if Top(op) == 0xB { Computed(pc, op, c, inp); }
    else { Direct(pc, op, c, inp); }
  }

  /** The words covered are those the interpreter accepts on some machine, but for
      the wait for a key. */
  lemma {:induction false} SupportedExact(op: word)
    ensures Supported(op) <==> !V.Rejected(op) && !Waits(op)
  {
    hide ExecCore, Top, KK, N;
    var c := V.Able(V.Blank(), 0, V.Zeros());
    Accepted(op, c);
    if !V.Rejected(op) && !Waits(op) {
      var d: Core, inp: Input :| ExecCore(op, d, inp).Some?;
      Refused(op, d, inp);
    }
  }

  lemma {:induction false} Accepted(op: word, c: Core)
    requires 0 < |c.stack| < 0x10
    ensures Supported(op) ==> ExecCore(op, c, NO_INPUT).Some? && !Waits(op)
  {
    NotSystem(op);
    hide X, Y, N, KK, NNN, Top, Store, Load, Bits, SpritePixels, SkipIf;
  }

  lemma {:induction false} Refused(op: word, c: Core, inp: Input)
    requires ExecCore(op, c, inp).Some? && !Waits(op)
    ensures Supported(op)
  {
    NotSystem(op);
    hide X, Y, N, KK, NNN, Top, Store, Load, Bits, SpritePixels, SkipIf;
  }

  /** Where the interpreter stops at a word it rejects, the compiled program goes on:
      8xyn and Fxkk do nothing, since the store behind the helper overwrites its exit
      address, and Exkk skips as Ex9E does. */
  lemma {:induction false} RejectedGoesOn(pc: nat, op: word, c: Core, inp: Input)
    requires pc < 0x1000 && c.pc == pc && V.Rejected(op)
    ensures Top(op) in {8, 0xE, 0xF}
    ensures Yields(Lowered(pc, op), Empty(c), inp, if Top(op) == 0xE then SkipIf(c, inp.hit) else c.(pc := pc + 2), [])
  {
    hide X, Y, N, KK, NNN, Top, RunCode, SkipIf, RunHelper, ExecCore;
    NotSystem(op);
    SupportedExact(op);
    RejectedKinds(op, c, inp);
    var code := Lowered(pc, op);
    RunFew(code[0], if |code| == 2 then code[1] else code[0], Empty(c), inp);
  }

  lemma {:induction false} RejectedKinds(op: word, c: Core, inp: Input)
    requires V.Rejected(op)
    ensures Top(op) in {8, 0xE, 0xF}
    ensures Top(op) == 8 ==> RunHelper(Alu(X(op), Y(op), N(op)), c, inp) == c.(pc := LOST_PC)
    ensures Top(op) == 0xF ==> RunHelper(Misc(X(op), KK(op)), c, inp) == c.(pc := LOST_PC) && KK(op) !in {0x15, 0x18}
    ensures Top(op) == 0xE ==> KK(op) != 0xA1 && RunHelper(Key(X(op), false), c, inp) == SkipIf(c, inp.hit)
  {
    hide ExecCore, X, Y, N, KK, NNN, Top, SkipIf;
    SupportedExact(op);
    if Waits(op) { WaitsAccepted(op); }
  }

  lemma WaitsAccepted(op: word)
    requires Waits(op)
    ensures !V.Rejected(op)
  {
    NotSystem(op);
    assert ExecCore(op, V.Able(V.Blank(), 0, V.Zeros()), NO_INPUT).Some?;
    hide X, KK, Top;
  }

  // ------------------------------------------------------------ the dispatcher

  /** One turn of the dispatcher; None is the exit. */
  function Dispatch(rom: Rom, s: Side, inp: Input): Option<Side>
  {
    if HasBlock(rom, s.core.pc)
    then match RunCode(Lowered(s.core.pc, RomWord(rom, s.core.pc)), Empty(s.core), inp)
      case Some(f) => Some(Side(f.core, s.sent + f.sent))
      case None => None
    else None
  }

  function Dispatches(rom: Rom, s: Side, inps: seq<Input>): Option<Side>
  {
    if inps == [] then Some(s)
    else match Dispatches(rom, s, inps[..|inps| - 1])
      case Some(t) => Dispatch(rom, t, inps[|inps| - 1])
      case None => None
  }

  /** The next word is one the dispatcher has a block for, still as in the ROM,
      and one both engines implement. */
  predicate Compiled(rom: Rom, c: Core)
  {
    HasBlock(rom, c.pc) && OpAt(c.mem, c.pc) == RomWord(rom, c.pc) && Supported(OpAt(c.mem, c.pc))
  }

  ghost predicate RunsCompiled(rom: Rom, s: Side, inps: seq<Input>)
    decreases |inps|
  {
    inps == [] || (
      var before := inps[..|inps| - 1];
      && RunsCompiled(rom, s, before)
      && (RunWith(before, s).Some? ==> Compiled(rom, RunWith(before, s).value.core)))
  }

  /** k dispatches are k instructions: as long as the program stays on compiled
      words, the compiled program is in the interpreter's state after each, having
      sent the same timer settings. */
  lemma {:induction false} AotRuns(rom: Rom, s: Side, inps: seq<Input>)
    requires RunsCompiled(rom, s, inps) && RunWith(inps, s).Some?
    ensures Dispatches(rom, s, inps) == RunWith(inps, s)
    decreases |inps|
  {
    hide Lowered, ExecCore, OpAt, RunCode, Supported, Sends;
    if inps != [] {
      var before := inps[..|inps| - 1];
      AotRuns(rom, s, before);
      var c := RunWith(before, s).value.core;
      assert Compiled(rom, c);
      BlockCorrect(c.pc, OpAt(c.mem, c.pc), c, inps[|inps| - 1]);
    }
  }

  /** Where the interpreter fails, the compiled program sends itself to an
      address without a block, and the dispatcher returns. */
  lemma {:induction false} AotErrors(rom: Rom, s: Side, inps: seq<Input>, inp: Input)
    requires RunsCompiled(rom, s, inps + [inp]) && RunWith(inps, s).Some? && RunWith(inps + [inp], s).None?
    ensures Dispatches(rom, s, inps + [inp]).Some?
    ensures Dispatches(rom, s, inps + [inp]).value.core == RunWith(inps, s).value.core.(pc := LOST_PC)
    ensures forall more :: Dispatch(rom, Dispatches(rom, s, inps + [inp]).value, more).None?
  {
    hide Lowered, ExecCore, OpAt, RunCode, Supported, RunWith, Sends;
    assert (inps + [inp])[..|inps|] == inps;
    AotRuns(rom, s, inps);
    RunMore(inps, inp, s);
    var c := RunWith(inps, s).value.core;
    assert Compiled(rom, c);
    BlockCorrect(c.pc, OpAt(c.mem, c.pc), c, inp);
  }
}
