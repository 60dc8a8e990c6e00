/** The code emitted for one opcode does what the interpreter does with it. */
module Lowering {
  import opened Chip8
  import opened Bench
  import opened Interp
  import opened Trace

  // ------------------------------------------------------- running sequences

  lemma {:induction false} RunAppend(cfg: Config, code: seq<bool>, a: seq<Piece>, b: seq<Piece>, f: Flow)
    requires |code| == 0x1000
    ensures RunPieces(cfg, code, a + b, f) == RunPieces(cfg, code, b, RunPieces(cfg, code, a, f))
    decreases |a|
  {
    if a == [] {
      assert a + b == b;
    } else if f.Going? {
      assert (a + b)[1..] == a[1..] + b;
      RunAppend(cfg, code, a[1..], b, RunPiece(cfg, code, a[0], f.j));
    }
  }

  lemma {:induction false} RunPlain(cfg: Config, code: seq<bool>, ops: seq<Op>, f: Flow)
    requires |code| == 0x1000
    ensures RunPieces(cfg, code, Plain(ops), f) == RunOps(cfg, code, ops, f)
    decreases |ops|
  {
    if ops != [] && f.Going? {
      assert Plain(ops)[1..] == Plain(ops[1..]);
      RunPlain(cfg, code, ops[1..], RunOp(cfg, code, ops[0], f.j));
    }
  }

  function Then(cfg: Config, code: seq<bool>, f: Flow, op: Op): Flow
    requires |code| == 0x1000
  {
    if f.Going? then RunOp(cfg, code, op, f.j) else f
  }

  lemma {:induction false} RunOne(cfg: Config, code: seq<bool>, a: Op, f: Flow)
    requires |code| == 0x1000
    ensures RunOps(cfg, code, [a], f) == Then(cfg, code, f, a)
  {}

  lemma {:induction false} RunTwo(cfg: Config, code: seq<bool>, a: Op, b: Op, f: Flow)
    requires |code| == 0x1000
    ensures RunOps(cfg, code, [a, b], f) == Then(cfg, code, Then(cfg, code, f, a), b)
  {
    assert [a, b][1..] == [b];
    RunOne(cfg, code, b, Then(cfg, code, f, a));
  }

  lemma {:induction false} RunThree(cfg: Config, code: seq<bool>, a: Op, b: Op, c: Op, f: Flow)
    requires |code| == 0x1000
    ensures RunOps(cfg, code, [a, b, c], f) == Then(cfg, code, Then(cfg, code, Then(cfg, code, f, a), b), c)
  {
    assert [a, b, c][1..] == [b, c];
    RunTwo(cfg, code, b, c, Then(cfg, code, f, a));
  }

  lemma {:induction false} RunFour(cfg: Config, code: seq<bool>, a: Op, b: Op, c: Op, d: Op, f: Flow)
    requires |code| == 0x1000
    ensures RunOps(cfg, code, [a, b, c, d], f)
         == Then(cfg, code, Then(cfg, code, Then(cfg, code, Then(cfg, code, f, a), b), c), d)
  {
    assert [a, b, c, d][1..] == [b, c, d];
    RunThree(cfg, code, b, c, d, Then(cfg, code, f, a));
  }

  // -------------------------------------------------------------- bit tricks

  lemma {:induction false} BitsZero(a: nat, k: nat)
    ensures Bits(AND, a, 0, k) == 0
  {
    if k > 0 { BitsZero(a / 2, k - 1); }
  }

  /** One more low bit of an all-ones mask. */
  lemma {:induction false} MaskMore(v: nat, m: nat, k: nat)
    ensures Bits(AND, v, 2 * m + 1, k + 1) == 2 * Bits(AND, v / 2, m, k) + v % 2
  {}

  lemma {:induction false} MaskOne(v: nat, k: nat)
    requires k >= 1
    ensures Bits(AND, v, 1, k) == v % 2
  {
    MaskMore(v, 0, k - 1);
    BitsZero(v / 2, k - 1);
  }

  lemma {:induction false} MaskTwo(v: nat, k: nat)
    requires k >= 2
    ensures Bits(AND, v, 3, k) == v % 4
  {
    hide Bits;
    MaskMore(v, 1, k - 1);
    MaskOne(v / 2, k - 1);
  }

  lemma {:induction false} MaskThree(v: nat, k: nat)
    requires k >= 3
    ensures Bits(AND, v, 7, k) == v % 8
  {
    hide Bits;
    MaskMore(v, 3, k - 1);
    MaskTwo(v / 2, k - 1);
  }

  lemma {:induction false} MaskFour(v: nat, k: nat)
    requires k >= 4
    ensures Bits(AND, v, 0xF, k) == v % 0x10
  {
    hide Bits;
    MaskMore(v, 7, k - 1);
    MaskThree(v / 2, k - 1);
  }

  lemma {:induction false} TopBit(v: nat, m: nat)
    ensures Bits(AND, v, Pow2(m), m + 1) == if ShiftDown(v, m) % 2 == 1 then Pow2(m) else 0
  {
    if m == 0 {
      BitsZero(v / 2, 0);
    } else {
      TopBit(v / 2, m - 1);
    }
  }

  lemma {:induction false} ShiftStep(v: nat, k: nat)
    ensures ShiftDown(v, k + 1) == ShiftDown(v / 2, k)
  {}

  lemma {:induction false} ShiftSeven(v: nat)
    ensures ShiftDown(v, 7) == v / 128
  {
    hide ShiftDown;
    ShiftTwice(v, 3, 4);
    ShiftThree(v);
    ShiftStep(v / 8, 3);
    ShiftThree(v / 8 / 2);
  }

  lemma {:induction false} ShiftThree(v: nat)
    ensures ShiftDown(v, 3) == v / 8
  {
    assert ShiftDown(v / 2 / 2, 1) == v / 2 / 2 / 2;
  }

  lemma {:induction false} ShiftTwice(v: nat, a: nat, b: nat)
    ensures ShiftDown(v, a + b) == ShiftDown(ShiftDown(v, a), b)
  {
    if a > 0 { ShiftTwice(v / 2, a - 1, b); }
  }

  lemma {:induction false} HighBit(v: byte)
    ensures ShiftDown(Bits(AND, v, 0x80, 8), 7) == if v >= 0x80 then 1 else 0
  {
    hide Bits, ShiftDown;
    assert Pow2(3) == 8 && Pow2(5) == 32 && Pow2(7) == 0x80;
    TopBit(v, 7);
    ShiftSeven(v);
    ShiftSeven(0x80);
    ShiftSeven(0);
  }

  // ---------------------------------------------------- one opcode at a time

  /** The interpreter at address `pc` in the machine of `j`. */
  function Here(j: Native, pc: int): Vm
  {
    Vm(At(j.core, pc), j.env)
  }

  /** `f` is `j` with a new core, and possibly new locals. */
  ghost predicate OnlyCore(f: Flow, j: Native, core: Core)
  {
    f.Going? && f.j == j.(core := core, locals := f.j.locals)
  }

  lemma {:induction false} PutDoes(cfg: Config, code: seq<bool>, x: nibble, e: Expr, j: Native)
    requires |code| == 0x1000
    ensures OnlyCore(RunOps(cfg, code, [PutReg(x, e)], Going(j)), j, SetReg(j.core, x, Eval(e, j)))
  {
    hide RunOps, Eval;
    RunOne(cfg, code, PutReg(x, e), Going(j));
  }

  /** Snapshot both operands, store the result, then the flag. */
  lemma {:induction false} PutFlagDoes(cfg: Config, code: seq<bool>, x: nibble, y: nibble, k: nat, e: Expr, flag: Expr, v: int, on: bool, j: Native)
    requires |code| == 0x1000
    requires
      var snapped := j.(locals := j.locals[k := j.core.regs[x]][k + 1 := j.core.regs[y]]);
      var stored := snapped.(core := SetReg(j.core, x, v));
      Eval(e, snapped) % 0x100 == v % 0x100 && Eval(flag, stored) == Bit(on)
    ensures OnlyCore(RunOps(cfg, code, [Snap(k, x), Snap(k + 1, y), PutReg(x, e), PutReg(0xF, flag)], Going(j)),
                     j, SetRegFlag(j.core, x, v, on))
  {
    hide RunOps, Eval;
    RunFour(cfg, code, Snap(k, x), Snap(k + 1, y), PutReg(x, e), PutReg(0xF, flag), Going(j));
  }

  lemma {:induction false} PutShiftDoes(cfg: Config, code: seq<bool>, x: nibble, k: nat, e: Expr, flag: Expr, v: int, on: bool, j: Native)
    requires |code| == 0x1000
    requires
      var snapped := j.(locals := j.locals[k := j.core.regs[x]]);
      var stored := snapped.(core := SetReg(j.core, x, v));
      Eval(e, snapped) % 0x100 == v % 0x100 && Eval(flag, stored) == Bit(on)
    ensures OnlyCore(RunOps(cfg, code, [Snap(k, x), PutReg(x, e), PutReg(0xF, flag)], Going(j)),
                     j, SetRegFlag(j.core, x, v, on))
  {
    hide RunOps, Eval;
    RunThree(cfg, code, Snap(k, x), PutReg(x, e), PutReg(0xF, flag), Going(j));
  }

  lemma {:induction false} EvalSum(k: nat, j: Native)
    requires k in j.locals && k + 1 in j.locals && j.locals[k] < 0x100 && j.locals[k + 1] < 0x100
    ensures Eval(Bin(U16, Plus, Local(k), Local(k + 1)), j) == j.locals[k] + j.locals[k + 1]
  {}

  lemma {:induction false} EvalShift(k: nat, j: Native)
    requires k in j.locals && j.locals[k] < 0x100
    ensures Eval(Bin(U8, ShiftRight, Local(k), Const(1)), j) == j.locals[k] / 2
    ensures Eval(Bin(U8, ShiftLeft, Local(k), Const(1)), j) == j.locals[k] * 2 % 0x100
    ensures Eval(Bin(U8, BitAnd, Local(k), Const(1)), j) == j.locals[k] % 2
    ensures Eval(Bin(U8, ShiftRight, Bin(U8, BitAnd, Local(k), Const(0x80)), Const(7)), j) == Bit(j.locals[k] >= 0x80)
  {
    var v := j.locals[k];
    assert ShiftDown(v, 1) == ShiftDown(v / 2, 0);
    assert Eval(Bin(U8, BitAnd, Local(k), Const(0x80)), j) == Bits(AND, v, 0x80, 8);
    MaskOne(v, 8);
    HighBit(v);
  }

  lemma {:induction false} MoveDoes(cfg: Config, code: seq<bool>, op: word, k: nat, j: Native)
    requires |code| == 0x1000
    requires Top(op) == 8 && N(op) <= 3
    ensures ExecArith(op, j.core).Some?
    ensures OnlyCore(RunOps(cfg, code, LowerArith(op, k).ops, Going(j)), j, ExecArith(op, j.core).value)
  {
    hide RunOps, Top, X, Y, N, OnlyCore, SetReg, Bits;
    var x, y := X(op), Y(op);
    if N(op) == 0 {
      PutDoes(cfg, code, x, Reg(y), j);
    } else if N(op) == 1 {
      PutDoes(cfg, code, x, Bin(U8, BitOr, Reg(x), Reg(y)), j);
    } else if N(op) == 2 {
      PutDoes(cfg, code, x, Bin(U8, BitAnd, Reg(x), Reg(y)), j);
    } else {
      PutDoes(cfg, code, x, Bin(U8, BitXor, Reg(x), Reg(y)), j);
    }
  }

  lemma {:induction false} AddDoes(cfg: Config, code: seq<bool>, op: word, k: nat, j: Native)
    requires |code| == 0x1000
    requires Top(op) == 8 && N(op) == 4
    ensures ExecArith(op, j.core).Some?
    ensures OnlyCore(RunOps(cfg, code, LowerArith(op, k).ops, Going(j)), j, ExecArith(op, j.core).value)
  {
    hide RunOps, Top, X, Y, N, OnlyCore, SetReg, SetRegFlag;
    var x, y, sum := X(op), Y(op), Bin(U16, Plus, Local(k), Local(k + 1));
    var vx: int, vy: int := j.core.regs[x], j.core.regs[y];
    var j2 := j.(locals := j.locals[k := vx][k + 1 := vy]);
    EvalSum(k, j2);
    EvalSum(k, j2.(core := SetReg(j.core, x, vx + vy)));
    PutFlagDoes(cfg, code, x, y, k, Low8(sum), Bin(U16, Greater, sum, Const(0xFF)), vx + vy, vx + vy > 0xFF, j);
  }

  lemma {:induction false} SubtractDoes(cfg: Config, code: seq<bool>, op: word, k: nat, j: Native)
    requires |code| == 0x1000
    requires Top(op) == 8 && (N(op) == 5 || N(op) == 7)
    ensures ExecArith(op, j.core).Some?
    ensures OnlyCore(RunOps(cfg, code, LowerArith(op, k).ops, Going(j)), j, ExecArith(op, j.core).value)
  {
    hide RunOps, Top, X, Y, N, OnlyCore, SetReg, SetRegFlag;
    var x, y := X(op), Y(op);
    var vx: int, vy: int := j.core.regs[x], j.core.regs[y];
    if N(op) == 5 {
      PutFlagDoes(cfg, code, x, y, k, Bin(U8, Minus, Local(k), Local(k + 1)), Bin(U8, AtLeast, Local(k), Local(k + 1)),
                  vx - vy, vx >= vy, j);
    } else {
      PutFlagDoes(cfg, code, x, y, k, Bin(U8, Minus, Local(k + 1), Local(k)), Bin(U8, AtLeast, Local(k + 1), Local(k)),
                  vy - vx, vy >= vx, j);
    }
  }

  lemma {:induction false} ShiftDoes(cfg: Config, code: seq<bool>, op: word, k: nat, j: Native)
    requires |code| == 0x1000
    requires Top(op) == 8 && (N(op) == 6 || N(op) == 0xE)
    ensures ExecArith(op, j.core).Some?
    ensures OnlyCore(RunOps(cfg, code, LowerArith(op, k).ops, Going(j)), j, ExecArith(op, j.core).value)
  {
    hide RunOps, Top, X, Y, N, OnlyCore, SetReg, SetRegFlag, Eval;
    var x := X(op);
    var vx: int := j.core.regs[x];
    var j1 := j.(locals := j.locals[k := vx]);
    EvalShift(k, j1);
    if N(op) == 6 {
      EvalShift(k, j1.(core := SetReg(j.core, x, vx / 2)));
      PutShiftDoes(cfg, code, x, k, Bin(U8, ShiftRight, Local(k), Const(1)), Bin(U8, BitAnd, Local(k), Const(1)),
                   vx / 2, vx % 2 == 1, j);
    } else {
      EvalShift(k, j1.(core := SetReg(j.core, x, vx * 2)));
      PutShiftDoes(cfg, code, x, k, Bin(U8, ShiftLeft, Local(k), Const(1)),
                   Bin(U8, ShiftRight, Bin(U8, BitAnd, Local(k), Const(0x80)), Const(7)), vx * 2, vx >= 0x80, j);
    }
  }

  lemma {:induction false} ArithDoes(cfg: Config, code: seq<bool>, op: word, k: nat, j: Native)
    requires |code| == 0x1000
    requires Top(op) == 8 && LowerArith(op, k).Inline?
    ensures ExecArith(op, j.core).Some?
    ensures OnlyCore(RunOps(cfg, code, LowerArith(op, k).ops, Going(j)), j, ExecArith(op, j.core).value)
  {
    hide RunOps, Top, X, Y, N, OnlyCore, ExecArith;
    if N(op) <= 3 {
      MoveDoes(cfg, code, op, k, j);
    } else if N(op) == 4 {
      AddDoes(cfg, code, op, k, j);
    } else if N(op) == 5 || N(op) == 7 {
      SubtractDoes(cfg, code, op, k, j);
    } else {
      ShiftDoes(cfg, code, op, k, j);
    }
  }

  // --------------------------------------------------------- every opcode

  /** What straight-line code may do to the bookkeeping of the run: the end of
      the run is only ever announced when it has come, and a test of the stop
      condition that passes means the budget was not yet spent. */
  ghost predicate Tracks(cfg: Config, j: Native, k: Native)
  {
    && k.next == j.next
    && k.env.retired == j.env.retired && k.env.polled >= j.env.polled
    && (j.over ==> k.over)
    && (k.over ==> j.over || Done(cfg, k.env))
    && ((k.tested, k.widest) == (j.tested, j.widest)
        || ((k.tested, k.widest) == (Test(j).tested, Test(j).widest) && (!k.over ==> k.tested < cfg.budget)))
  }

  /** No store goes unnoticed: while no flush is pending, every byte code
      generation read is as it was. */
  ghost predicate Notes(code: seq<bool>, j: Native, k: Native)
    requires |code| == 0x1000
  {
    && (j.smc ==> k.smc)
    && (!k.smc ==> forall b :: 0 <= b < 0x1000 && code[b] ==> k.core.mem[b] == j.core.mem[b])
  }

  /** Code for an instruction the trace runs through: the machine is as the
      interpreter leaves it, the program counter being the code generator's. */
  ghost predicate InlineDoes(cfg: Config, op: word, pc: address, f: Flow, j: Native)
  {
    var out := BasicBlock(cfg, Here(j, pc));
    && f.Going? && out.Ok?
    && Here(f.j, pc + 2) == out.vm
    && Tracks(cfg, j, f.j)
    && f.j.smc == j.smc && f.j.core.mem == j.core.mem
  }

  /** Code for an instruction that ends the trace: the machine is as the
      interpreter leaves it, or both stop with an error. */
  ghost predicate EndDoes(cfg: Config, code: seq<bool>, op: word, pc: address, f: Flow, j: Native)
    requires |code| == 0x1000
  {
    var out := BasicBlock(cfg, Here(j, pc));
    && !f.Leaving?
    && (f.Going? <==> out.Ok?)
    && f.j.env == out.vm.env
    && (f.Going? ==> f.j.core == out.vm.core)
    && (f.Crashed? ==> At(f.j.core, pc) == out.vm.core)
    && Tracks(cfg, j, f.j)
    && Notes(code, j, f.j)
    && (Waits(op) ==> f.Going? && (Done(cfg, f.j.env) ==> f.j.over))
  }

  /** `f` is `j` after the straight-line instruction `op`, up to the stored
      program counter, the locals and the bookkeeping of the run. */
  ghost predicate StraightDoes(cfg: Config, op: word, f: Flow, j: Native)
  {
    var (inp, env) := EnvStep(cfg, op, j.core, j.env);
    var core := ExecStraight(op, j.core, inp);
    && f.Going? && core.Some?
    && f.j.core == core.value.(pc := f.j.core.pc)
    && f.j.env == env
    && Tracks(cfg, j, f.j)
    && f.j.smc == j.smc && f.j.core.mem == j.core.mem
  }

  /** Fx07, Fx15 and Fx18 as the interpreter executes them. */
  lemma {:induction false} TimerRef(cfg: Config, op: word, c: Core, e: Env, inp: Input)
    requires Top(op) == 0xF && KK(op) in {0x07, 0x15, 0x18}
    ensures
      var vx, s := c.regs[X(op)], Sync(e);
      EnvStep(cfg, op, c, e) == (
        if KK(op) == 0x07 then (NO_INPUT.(delay := s.delay), s)
        else if KK(op) == 0x15 then (NO_INPUT, s.(delay := vx)) else (NO_INPUT, s.(sound := vx)))
    ensures ExecStraight(op, c, inp) == Some(if KK(op) == 0x07 then SetReg(c, X(op), inp.delay) else c)
  {
    NotSystem(op);
    hide Top, X, Y, KK, N, NNN, Sync, Store, Load, KeyStep, WaitStep, ExecArith, ExecDraw, SetReg;
  }

  lemma {:induction false} TimerDoes(cfg: Config, code: seq<bool>, op: word, pc: address, j: Native)
    requires |code| == 0x1000
    requires Top(op) == 0xF && KK(op) in {0x07, 0x15, 0x18}
    ensures StraightDoes(cfg, op, RunOps(cfg, code, LowerMisc(op, pc).ops, Going(j)), j)
  {
    hide RunOps, Top, X, KK, N, EnvStep, ExecStraight, StoreAndNote, HostSkipKey, HostLoadOnKey, HostDraw;
    TimerRef(cfg, op, j.core, j.env, EnvStep(cfg, op, j.core, j.env).0);
    var put := if KK(op) == 0x07 then PutReg(X(op), Delay) else if KK(op) == 0x15 then PutDelay(Reg(X(op))) else PutSound(Reg(X(op)));
    RunTwo(cfg, code, Call(SyncTimers), put, Going(j));
  }

  lemma {:induction false} EvalAddress(x: nibble, j: Native)
    ensures Eval(Bin(U16, Plus, Addr, Reg(x)), j) == (j.core.i + j.core.regs[x]) % 0x10000
    ensures Eval(Bin(U16, Times, Bin(U16, BitAnd, Reg(x), Const(0xF)), Const(5)), j) == j.core.regs[x] % 0x10 * 5
  {
    hide Bits;
    MaskFour(j.core.regs[x], 16);
    assert Eval(Bin(U16, BitAnd, Reg(x), Const(0xF)), j) == j.core.regs[x] % 0x10;
  }

  /** Most instructions neither read nor change the environment. */
  lemma {:induction false} QuietEnv(cfg: Config, op: word, c: Core, e: Env)
    requires op == 0x00E0 || Top(op) in {3, 4, 5, 6, 7, 8, 9, 0xA, 0xB} || (Top(op) == 0xF && KK(op) in {0x1E, 0x29, 0x33, 0x55, 0x65})
    ensures EnvStep(cfg, op, c, e) == (NO_INPUT, e)
  {
    hide X, N, KK, Sync, KeyStep, WaitStep;
  }

  lemma {:induction false} MiscRef(op: word, c: Core, inp: Input)
    requires Top(op) == 0xF
    ensures ExecStraight(op, c, inp) == ExecMisc(op, c, inp)
  {
    NotSystem(op);
    hide Top, X, Y, KK, NNN, N, ExecMisc, ExecArith, ExecDraw;
  }

  lemma {:induction false} AddressRef(cfg: Config, op: word, j: Native)
    requires Top(op) == 0xF && KK(op) in {0x1E, 0x29}
    ensures
      var vx: int := j.core.regs[X(op)];
      var i := if KK(op) == 0x1E then (j.core.i + vx) % 0x10000 else vx % 0x10 * 5;
      StraightDoes(cfg, op, Going(j.(core := j.core.(i := i))), j)
  {
    MiscRef(op, j.core, NO_INPUT);
    QuietEnv(cfg, op, j.core, j.env);
    hide Top, X, KK, N, Store, Load, EnvStep, ExecStraight, Done;
  }

  lemma {:induction false} AddressCode(cfg: Config, code: seq<bool>, x: nibble, j: Native)
    requires |code| == 0x1000
    ensures RunOps(cfg, code, [PutAddr(Bin(U16, Plus, Addr, Reg(x)))], Going(j))
         == Going(j.(core := j.core.(i := (j.core.i + j.core.regs[x]) % 0x10000)))
    ensures RunOps(cfg, code, [PutAddr(Bin(U16, Times, Bin(U16, BitAnd, Reg(x), Const(0xF)), Const(5)))], Going(j))
         == Going(j.(core := j.core.(i := j.core.regs[x] % 0x10 * 5)))
  {
    EvalAddress(x, j);
    hide RunOps, Eval, RunHost;
    RunOne(cfg, code, PutAddr(Bin(U16, Plus, Addr, Reg(x))), Going(j));
    RunOne(cfg, code, PutAddr(Bin(U16, Times, Bin(U16, BitAnd, Reg(x), Const(0xF)), Const(5))), Going(j));
  }

  lemma {:induction false} AddressDoes(cfg: Config, code: seq<bool>, op: word, pc: address, j: Native)
    requires |code| == 0x1000
    requires Top(op) == 0xF && KK(op) in {0x1E, 0x29}
    ensures StraightDoes(cfg, op, RunOps(cfg, code, LowerMisc(op, pc).ops, Going(j)), j)
  {
    AddressRef(cfg, op, j);
    AddressCode(cfg, code, X(op), j);
    hide RunOps, StraightDoes, Top, X, KK;
  }

  lemma {:induction false} EvalLeaf(j: Native, n: nat, x: nibble)
    ensures Eval(Const(n), j) == n
    ensures Eval(Reg(x), j) == j.core.regs[x]
    ensures Eval(Bin(U8, Plus, Reg(x), Const(n)), j) == (j.core.regs[x] + n) % 0x100
  {}

  /** Storing the known program counter, then a host call that decodes there. */
  lemma {:induction false} RunAt(cfg: Config, code: seq<bool>, pc: address, h: Host, j: Native)
    requires |code| == 0x1000
    ensures RunOps(cfg, code, [SetPc(Const(pc)), Call(h)], Going(j)) == RunHost(cfg, code, h, j.(core := At(j.core, pc)))
  {
    hide RunOps, RunHost;
    EvalLeaf(j, pc, 0);
    RunTwo(cfg, code, SetPc(Const(pc)), Call(h), Going(j));
  }

  lemma {:induction false} RestoreDoes(cfg: Config, code: seq<bool>, op: word, pc: address, j: Native)
    requires |code| == 0x1000
    requires Top(op) == 0xF && op == OpAt(j.core.mem, pc) && KK(op) == 0x65
    ensures StraightDoes(cfg, op, RunOps(cfg, code, LowerMisc(op, pc).ops, Going(j)), j)
  {
    RunAt(cfg, code, pc, RestoreRegisters, j);
    HostRef(cfg, code, op, pc, RestoreRegisters, j);
    hide RunOps, RunHost, StraightDoes, Top, X, KK, OpAt;
  }

  lemma {:induction false} RandomDoes(cfg: Config, code: seq<bool>, op: word, pc: address, j: Native)
    requires |code| == 0x1000
    requires Top(op) == 0xC && op == OpAt(j.core.mem, pc)
    ensures StraightDoes(cfg, op, RunOps(cfg, code, [SetPc(Const(pc)), Call(RandomByte)], Going(j)), j)
  {
    RunAt(cfg, code, pc, RandomByte, j);
    HostRef(cfg, code, op, pc, RandomByte, j);
    hide RunOps, RunHost, StraightDoes, Top, X, KK, OpAt;
  }

  lemma {:induction false} DrawDoes(cfg: Config, code: seq<bool>, op: word, pc: address, j: Native)
    requires |code| == 0x1000
    requires Top(op) == 0xD && op == OpAt(j.core.mem, pc)
    ensures StraightDoes(cfg, op, RunOps(cfg, code, [SetPc(Const(pc)), Call(DrawSprite)], Going(j)), j)
  {
    RunAt(cfg, code, pc, DrawSprite, j);
    HostRef(cfg, code, op, pc, DrawSprite, j);
    hide RunOps, RunHost, StraightDoes, Top, X, KK, OpAt;
  }

  lemma {:induction false} DrawRef(cfg: Config, op: word, c: Core, inp: Input, e: Env)
    requires Top(op) == 0xD
    ensures ExecStraight(op, c, inp) == Some(ExecDraw(op, c))
    ensures EnvStep(cfg, op, c, e) == (NO_INPUT, Sync(e))
  {
    NotSystem(op);
    hide Top, X, Y, KK, NNN, N, ExecMisc, ExecArith, ExecDraw, KeyStep, WaitStep, Sync;
  }

  lemma {:induction false} RandomRef(cfg: Config, op: word, c: Core, e: Env)
    requires Top(op) == 0xC
    ensures EnvStep(cfg, op, c, e) == (NO_INPUT.(rnd := cfg.rand(e.rng)), e.(rng := e.rng + 1))
    ensures ExecStraight(op, c, NO_INPUT.(rnd := cfg.rand(e.rng))) == Some(SetReg(c, X(op), Bits8(AND, cfg.rand(e.rng), KK(op))))
  {
    NotSystem(op);
    hide Top, X, Y, KK, NNN, N, ExecMisc, ExecArith, ExecDraw, KeyStep, WaitStep, Sync, SetReg, Bits;
  }

  /** The three straight-line instructions compiled to host calls. */
  lemma {:induction false} HostRef(cfg: Config, code: seq<bool>, op: word, pc: address, h: Host, j: Native)
    requires |code| == 0x1000 && op == OpAt(j.core.mem, pc)
    requires h == (if Top(op) == 0xD then DrawSprite else if Top(op) == 0xC then RandomByte else RestoreRegisters)
    requires Top(op) in {0xC, 0xD} || (Top(op) == 0xF && KK(op) == 0x65)
    ensures StraightDoes(cfg, op, RunHost(cfg, code, h, j.(core := At(j.core, pc))), j)
  {
    var at := j.(core := At(j.core, pc));
    HostAt(cfg, code, op, at);
    if h == DrawSprite {
      DrawRef(cfg, op, j.core, NO_INPUT, j.env);
      hide RunHost, EnvStep, ExecStraight, Top, X, Y, KK, N, OpAt, Load, SpritePixels, Sync;
    } else if h == RandomByte {
      RandomRef(cfg, op, j.core, j.env);
      hide RunHost, EnvStep, ExecStraight, Top, X, Y, KK, N, OpAt, Bits, Sync, HostDraw, Done;
    } else {
      MiscRef(op, j.core, NO_INPUT);
      QuietEnv(cfg, op, j.core, j.env);
      hide RunHost, EnvStep, ExecStraight, Top, X, Y, KK, N, OpAt, Load, Store, Sync, HostDraw, Done;
    }
  }

  lemma {:induction false} HostAt(cfg: Config, code: seq<bool>, op: word, j: Native)
    requires |code| == 0x1000 && op == OpAt(j.core.mem, j.core.pc)
    ensures RunHost(cfg, code, DrawSprite, j) == Going(HostDraw(cfg, op, j))
    ensures RunHost(cfg, code, RandomByte, j) ==
      Going(j.(core := SetReg(j.core, X(op), Bits8(AND, cfg.rand(j.env.rng), KK(op))), env := j.env.(rng := j.env.rng + 1)))
    ensures RunHost(cfg, code, RestoreRegisters, j) ==
      Going(j.(core := j.core.(regs := Load(j.core.mem, j.core.i, X(op) + 1) + j.core.regs[X(op) + 1..])))
  {
    hide OpAt, X, KK, HostDraw, Load, SetReg, Bits;
  }

  lemma {:induction false} ClearDoes(cfg: Config, code: seq<bool>, pc: address, k: nat, j: Native)
    requires |code| == 0x1000
    ensures StraightDoes(cfg, 0x00E0, RunOps(cfg, code, Lower(0x00E0, pc, k).ops, Going(j)), j)
  {
    hide RunOps;
    RunOne(cfg, code, Call(ClearScreen), Going(j));
  }

  lemma {:induction false} LoadRef(cfg: Config, op: word, j: Native)
    requires Top(op) in {6, 7, 0xA}
    ensures
      var x, kk := X(op), KK(op);
      StraightDoes(cfg, op, Going(j.(core :=
        if Top(op) == 6 then SetReg(j.core, x, kk)
        else if Top(op) == 7 then SetReg(j.core, x, j.core.regs[x] + kk)
        else j.core.(i := NNN(op)))), j)
  {
    NotSystem(op);
    QuietEnv(cfg, op, j.core, j.env);
    hide Top, X, Y, KK, N, NNN, ExecArith, ExecMisc, ExecDraw, EnvStep, Done;
  }

  lemma {:induction false} LoadCode(cfg: Config, code: seq<bool>, x: nibble, n: nat, j: Native)
    requires |code| == 0x1000 && n < 0x10000
    ensures RunOps(cfg, code, [PutReg(x, Const(n))], Going(j)) == Going(j.(core := SetReg(j.core, x, n)))
    ensures RunOps(cfg, code, [PutReg(x, Bin(U8, Plus, Reg(x), Const(n)))], Going(j))
         == Going(j.(core := SetReg(j.core, x, j.core.regs[x] + n)))
    ensures RunOps(cfg, code, [PutAddr(Const(n))], Going(j)) == Going(j.(core := j.core.(i := n)))
  {
    EvalLeaf(j, n, x);
    hide RunOps, RunHost, Eval;
    RunOne(cfg, code, PutReg(x, Const(n)), Going(j));
    RunOne(cfg, code, PutReg(x, Bin(U8, Plus, Reg(x), Const(n))), Going(j));
    RunOne(cfg, code, PutAddr(Const(n)), Going(j));
  }

  lemma {:induction false} LoadDoes(cfg: Config, code: seq<bool>, op: word, pc: address, k: nat, j: Native)
    requires |code| == 0x1000
    requires Top(op) in {6, 7, 0xA}
    ensures Lower(op, pc, k).Inline?
    ensures StraightDoes(cfg, op, RunOps(cfg, code, Lower(op, pc, k).ops, Going(j)), j)
  {
    NotSystem(op);
    LoadRef(cfg, op, j);
    LoadCode(cfg, code, X(op), if Top(op) == 0xA then NNN(op) else KK(op), j);
    hide RunOps, StraightDoes, Top, X, Y, KK, N, NNN, LowerArith, LowerMisc;
  }

  lemma {:induction false} ArithInline(cfg: Config, code: seq<bool>, op: word, pc: address, k: nat, j: Native)
    requires |code| == 0x1000
    requires Top(op) == 8 && LowerArith(op, k).Inline?
    ensures StraightDoes(cfg, op, RunOps(cfg, code, LowerArith(op, k).ops, Going(j)), j)
  {
    NotSystem(op);
    ArithDoes(cfg, code, op, k, j);
    QuietEnv(cfg, op, j.core, j.env);
    hide RunOps, Top, X, Y, KK, N, ExecMisc, ExecDraw, LowerArith, EnvStep, Bits;
  }

  lemma {:induction false} LoweredStraight(cfg: Config, code: seq<bool>, op: word, pc: address, k: nat, j: Native)
    requires |code| == 0x1000
    requires Lower(op, pc, k).Inline? && op == OpAt(j.core.mem, pc)
    ensures StraightDoes(cfg, op, RunOps(cfg, code, Lower(op, pc, k).ops, Going(j)), j)
  {
    hide RunOps, StraightDoes, OpAt;
    if op == 0x00E0 {
      ClearDoes(cfg, code, pc, k, j);
    } else if Top(op) in {6, 7, 0xA} {
      LoadDoes(cfg, code, op, pc, k, j);
    } else if Top(op) == 0xC {
      RandomDoes(cfg, code, op, pc, j);
    } else if Top(op) == 0xD {
      DrawDoes(cfg, code, op, pc, j);
    } else if Top(op) == 8 {
      ArithInline(cfg, code, op, pc, k, j);
    } else if KK(op) in {0x07, 0x15, 0x18} {
      TimerDoes(cfg, code, op, pc, j);
    } else if KK(op) in {0x1E, 0x29} {
      AddressDoes(cfg, code, op, pc, j);
    } else {
      RestoreDoes(cfg, code, op, pc, j);
    }
  }

  /** The environment is not asked where the instruction is. */
  lemma {:induction false} EnvFrame(cfg: Config, op: word, c: Core, pc: int, e: Env)
    ensures EnvStep(cfg, op, At(c, pc), e) == EnvStep(cfg, op, c, e)
  {}

  /** An instruction the trace compiles inline and runs through. */
  lemma {:induction false} InlineCorrect(cfg: Config, code: seq<bool>, op: word, pc: address, k: nat, j: Native)
    requires |code| == 0x1000
    requires Lower(op, pc, k).Inline? && op == OpAt(j.core.mem, pc)
    ensures InlineDoes(cfg, op, pc, RunOps(cfg, code, Lower(op, pc, k).ops, Going(j)), j)
  {
    hide RunOps, OpAt, EnvStep, ExecCore, ExecStraight, Lower, StraightDoes, InlineDoes;
    var f, inp := RunOps(cfg, code, Lower(op, pc, k).ops, Going(j)), EnvStep(cfg, op, j.core, j.env).0;
    LoweredStraight(cfg, code, op, pc, k, j);
    EnvFrame(cfg, op, j.core, pc, j.env);
    StraightHas(cfg, op, f, j);
    StraightFrame(op, j.core, pc, inp);
    FallsThrough(op, pc, k, At(j.core, pc), inp);
    StraightInline(cfg, op, pc, f, j);
  }

  lemma StraightHas(cfg: Config, op: word, f: Flow, j: Native)
    requires StraightDoes(cfg, op, f, j)
    ensures ExecStraight(op, j.core, EnvStep(cfg, op, j.core, j.env).0).Some?
  {
    hide EnvStep, ExecStraight;
  }

  /** Straight-line code is inline code: the interpreter's step, less the
      program counter. */
  lemma {:induction false} StraightInline(cfg: Config, op: word, pc: address, f: Flow, j: Native)
    requires StraightDoes(cfg, op, f, j) && op == OpAt(j.core.mem, pc)
    requires EnvStep(cfg, op, At(j.core, pc), j.env) == EnvStep(cfg, op, j.core, j.env)
    requires
      var inp := EnvStep(cfg, op, j.core, j.env).0;
      && ExecStraight(op, At(j.core, pc), inp).Some?
      && ExecStraight(op, At(j.core, pc), inp).value == At(ExecStraight(op, j.core, inp).value, pc)
      && ExecCore(op, At(j.core, pc), inp) == Some(SkipIf(ExecStraight(op, At(j.core, pc), inp).value, false))
    ensures InlineDoes(cfg, op, pc, f, j)
  {
    hide OpAt, EnvStep, ExecCore, ExecStraight, Tracks;
  }

  lemma {:induction false} FallsThrough(op: word, pc: address, k: nat, c: Core, inp: Input)
    requires Lower(op, pc, k).Inline? && ExecStraight(op, c, inp).Some?
    ensures ExecCore(op, c, inp) == Some(SkipIf(ExecStraight(op, c, inp).value, false))
  {
    hide LowerMisc, LowerArith, X, Y, N, KK, NNN, ExecStraight, SkipIf;
  }

  // ------------------------------------------- instructions that end a trace

  lemma {:induction false} ReturnDoes(cfg: Config, code: seq<bool>, pc: address, j: Native)
    requires |code| == 0x1000 && OpAt(j.core.mem, pc) == 0x00EE
    ensures EndDoes(cfg, code, 0x00EE, pc, RunOps(cfg, code, [Call(Retern)], Going(j)), j)
  {
    hide RunOps, OpAt, EnvStep, ExecCore, ExecReturn, EndDoes, StoreAndNote, HostSkipKey, HostLoadOnKey, HostDraw;
    RunOne(cfg, code, Call(Retern), Going(j));
    ReturnRef(cfg, At(j.core, pc), j.env);
    ReturnFrame(j.core, pc);
    LeavesOrFails(cfg, code, 0x00EE, pc, j, CheckInterrupt(cfg, j), ExecReturn(j.core));
  }

  lemma ReturnFrame(c: Core, pc: int)
    ensures ExecReturn(At(c, pc)) == ExecReturn(c)
    ensures ExecReturn(c).Some? ==> ExecReturn(c).value.mem == c.mem
  {}

  lemma {:induction false} ReturnRef(cfg: Config, c: Core, e: Env)
    ensures EnvStep(cfg, 0x00EE, c, e) == (NO_INPUT, Sync(e)) && ExecCore(0x00EE, c, NO_INPUT) == ExecReturn(c)
    ensures !Waits(0x00EE)
  {
    hide ExecReturn, ExecStraight, KeyStep, WaitStep, Sync;
  }

  /** Service the timers, then leave the trace with the result or fail. */
  lemma {:induction false} LeavesOrFails(cfg: Config, code: seq<bool>, op: word, pc: address, j: Native, s: Native, r: Option<Core>)
    requires |code| == 0x1000 && op == OpAt(j.core.mem, pc) && !Waits(op)
    requires s == CheckInterrupt(cfg, j) || s == CheckInterrupt(cfg, j).(core := At(j.core, pc))
    requires EnvStep(cfg, op, At(j.core, pc), j.env) == (NO_INPUT, Sync(j.env))
    requires ExecCore(op, At(j.core, pc), NO_INPUT) == r && (r.Some? ==> r.value.mem == j.core.mem)
    ensures EndDoes(cfg, code, op, pc, match r case Some(d) => Going(s.(core := d)) case None => Crashed(s), j)
  {
    hide OpAt, EnvStep, ExecCore;
  }

  lemma {:induction false} CallRef(cfg: Config, op: word, c: Core, e: Env)
    requires Top(op) == 2
    ensures EnvStep(cfg, op, c, e) == (NO_INPUT, Sync(e))
    ensures ExecCore(op, c, NO_INPUT) == ExecCall(c, NNN(op))
  {
    NotSystem(op);
    hide Top, X, Y, KK, NNN, N, ExecCall, ExecStraight, KeyStep, WaitStep, Sync;
  }

  lemma {:induction false} CallDoes(cfg: Config, code: seq<bool>, op: word, pc: address, j: Native)
    requires |code| == 0x1000 && op == OpAt(j.core.mem, pc) && Top(op) == 2
    ensures EndDoes(cfg, code, op, pc, RunHost(cfg, code, CallSub, j.(core := At(j.core, pc))), j)
  {
    hide Top, X, NNN, EnvStep, ExecCore, OpAt, ExecCall, EndDoes, StoreAndNote, HostSkipKey, HostLoadOnKey, HostDraw;
    CallRef(cfg, op, At(j.core, pc), j.env);
    CallFrame(At(j.core, pc), NNN(op));
    CallWaits(op);
    LeavesOrFails(cfg, code, op, pc, j, CheckInterrupt(cfg, j.(core := At(j.core, pc))), ExecCall(At(j.core, pc), NNN(op)));
  }

  lemma CallFrame(c: Core, target: address)
    ensures ExecCall(c, target).Some? ==> ExecCall(c, target).value.mem == c.mem
  {}

  lemma CallWaits(op: word)
    ensures Top(op) == 2 ==> !Waits(op)
  {}

  lemma {:induction false} SkipKeyRef(cfg: Config, op: word, c: Core, e: Env, inp: Input)
    requires Top(op) == 0xE && KK(op) in {0x9E, 0xA1}
    ensures EnvStep(cfg, op, c, e) == KeyStep(cfg, KK(op) == 0xA1, KeyOf(c.regs[X(op)]), e)
    ensures ExecCore(op, c, inp) == Some(SkipIf(c, inp.hit))
  {
    NotSystem(op);
    hide Top, X, Y, KK, NNN, N, ExecCall, ExecStraight, KeyStep, WaitStep, Sync;
  }

  /** The host routine and the interpreter agree on a key skip. */
  lemma {:induction false} SkipKeyHost(cfg: Config, up: bool, key: int, j: Native)
    ensures
      var (inp, env) := KeyStep(cfg, up, key, j.env);
      HostSkipKey(cfg, up, key, j) == j.(env := env, core := SkipIf(j.core, inp.hit))
    ensures HostSkipKey(cfg, up, key, j).env.retired == j.env.retired
  {
    hide Keys;
  }

  lemma {:induction false} SkipKeyDoes(cfg: Config, code: seq<bool>, op: word, pc: address, j: Native)
    requires |code| == 0x1000 && op == OpAt(j.core.mem, pc) && Top(op) == 0xE && KK(op) in {0x9E, 0xA1}
    ensures EndDoes(cfg, code, op, pc, RunHost(cfg, code, SkipKey(KK(op) == 0xA1), j.(core := At(j.core, pc))), j)
  {
    hide Top, X, KK, NNN, N, EnvStep, ExecCore, OpAt, HostSkipKey, KeyStep, KeyOf, StoreAndNote, HostLoadOnKey, HostDraw, EndDoes;
    var c, up := At(j.core, pc), KK(op) == 0xA1;
    var key := KeyOf(c.regs[X(op)]);
    var (inp, env) := KeyStep(cfg, up, key, j.env);
    SkipKeyRef(cfg, op, c, j.env, inp);
    SkipKeyHost(cfg, up, key, j.(core := c));
    KeyStepClock(cfg, up, key, j.env);
    EndByEnv(cfg, code, op, pc, j, HostSkipKey(cfg, up, key, j.(core := c)), inp);
  }

  lemma {:induction false} KeyStepClock(cfg: Config, up: bool, key: int, e: Env)
    ensures KeyStep(cfg, up, key, e).1.retired == e.retired && KeyStep(cfg, up, key, e).1.polled == e.polled
  {
    hide Keys;
  }

  lemma {:induction false} MiscCoreRef(op: word, c: Core, inp: Input)
    requires Top(op) == 0xF
    ensures ExecCore(op, c, inp) ==
      match ExecMisc(op, c, inp) case Some(d) => Some(SkipIf(d, false)) case None => None
  {
    NotSystem(op);
    MiscRef(op, c, inp);
    hide Top, X, Y, KK, NNN, N, ExecMisc, ExecStraight;
  }

  lemma {:induction false} WaitRef(cfg: Config, op: word, c: Core, e: Env)
    requires Top(op) == 0xF && KK(op) == 0x0A
    ensures EnvStep(cfg, op, c, e) == WaitStep(cfg, e)
  {
    NotSystem(op);
    hide Top, X, Y, KK, NNN, N, KeyStep, WaitStep, Sync;
  }

  lemma {:induction false} WaitHost(cfg: Config, x: nibble, j: Native)
    ensures
      var (inp, env) := WaitStep(cfg, j.env);
      var h := HostLoadOnKey(cfg, x, j);
      && h.env == env
      && h.core == SkipIf(if inp.key.Some? then SetReg(j.core, x, inp.key.value) else j.core, false)
    ensures forall c :: Tracks(cfg, j.(core := c), HostLoadOnKey(cfg, x, j))
    ensures Done(cfg, HostLoadOnKey(cfg, x, j).env) ==> HostLoadOnKey(cfg, x, j).over
    ensures HostLoadOnKey(cfg, x, j).smc == j.smc && HostLoadOnKey(cfg, x, j).core.mem == j.core.mem
  {
    hide PollKeys, Highest;
  }

  lemma {:induction false} WaitDoes(cfg: Config, code: seq<bool>, op: word, pc: address, j: Native)
    requires |code| == 0x1000 && op == OpAt(j.core.mem, pc) && Top(op) == 0xF && KK(op) == 0x0A
    ensures EndDoes(cfg, code, op, pc, RunHost(cfg, code, LoadOnKey, j.(core := At(j.core, pc))), j)
  {
    hide Tracks, Top, X, KK, N, NNN, EnvStep, ExecCore, OpAt, WaitStep, HostLoadOnKey, StoreAndNote, HostSkipKey, HostDraw,
      Store, Load, Digits;
    var at := j.(core := At(j.core, pc));
    WaitHost(cfg, X(op), at);
    WaitRef(cfg, op, at.core, j.env);
    MiscCoreRef(op, at.core, WaitStep(cfg, j.env).0);
    assert RunHost(cfg, code, LoadOnKey, at) == Going(HostLoadOnKey(cfg, X(op), at));
  }

  lemma {:induction false} StoreNotes(code: seq<bool>, j: Native, pc: int, vs: seq<byte>)
    requires |code| == 0x1000
    ensures Notes(code, j, StoreAndNote(code, j.(core := At(j.core, pc)), vs))
  {}

  function Stored(op: word, c: Core): seq<byte>
  {
    if KK(op) == 0x33 then Digits(c.regs[X(op)]) else c.regs[..X(op) + 1]
  }

  lemma {:induction false} StoreRef(op: word, c: Core)
    requires Top(op) == 0xF && KK(op) in {0x33, 0x55}
    ensures ExecCore(op, c, NO_INPUT) == Some(SkipIf(c.(mem := Store(c.mem, c.i, Stored(op, c))), false))
  {
    MiscCoreRef(op, c, NO_INPUT);
    hide Top, X, KK, N, NNN, ExecCore, Load, Digits, Store, SkipIf;
  }

  lemma {:induction false} StoreHost(cfg: Config, code: seq<bool>, op: word, j: Native)
    requires |code| == 0x1000 && op == OpAt(j.core.mem, j.core.pc) && KK(op) in {0x33, 0x55}
    ensures RunHost(cfg, code, if KK(op) == 0x33 then StoreBcd else SaveRegisters, j)
         == Going(StoreAndNote(code, j, Stored(op, j.core)))
  {
    hide OpAt, X, KK, N, NNN, StoreAndNote, HostSkipKey, HostLoadOnKey, HostDraw, Load, Digits;
  }

  lemma {:induction false} StoreDoes(cfg: Config, code: seq<bool>, op: word, pc: address, j: Native)
    requires |code| == 0x1000 && op == OpAt(j.core.mem, pc) && Top(op) == 0xF && KK(op) in {0x33, 0x55}
    ensures EndDoes(cfg, code, op, pc,
      RunHost(cfg, code, if KK(op) == 0x33 then StoreBcd else SaveRegisters, j.(core := At(j.core, pc))), j)
  {
    var at := j.(core := At(j.core, pc));
    var vs := Stored(op, at.core);
    StoreHost(cfg, code, op, at);
    StoreRef(op, at.core);
    StoreEffect(cfg, code, at, vs);
    StoreNotes(code, j, pc, vs);
    QuietEnv(cfg, op, at.core, j.env);
    EndByEnv(cfg, code, op, pc, j, StoreAndNote(code, at, vs), NO_INPUT);
    hide EndDoes, Notes, Tracks, StoreAndNote, Stored, RunHost, Top, X, KK, N, NNN, EnvStep, ExecCore, OpAt, Store;
  }

  lemma {:induction false} StoreEffect(cfg: Config, code: seq<bool>, j: Native, vs: seq<byte>)
    requires |code| == 0x1000
    ensures StoreAndNote(code, j, vs).core == SkipIf(j.core.(mem := Store(j.core.mem, j.core.i, vs)), false)
    ensures StoreAndNote(code, j, vs).env == j.env
    ensures forall c :: Tracks(cfg, j.(core := c), StoreAndNote(code, j, vs))
  {
    hide Overlaps, Store;
  }

  /** The environment step and the core step, put together. */
  lemma {:induction false} EndByEnv(cfg: Config, code: seq<bool>, op: word, pc: address, j: Native, k: Native, inp: Input)
    requires |code| == 0x1000 && op == OpAt(j.core.mem, pc) && !Waits(op)
    requires EnvStep(cfg, op, At(j.core, pc), j.env) == (inp, k.env)
    requires ExecCore(op, At(j.core, pc), inp) == Some(k.core)
    requires Tracks(cfg, j, k) && Notes(code, j, k)
    ensures EndDoes(cfg, code, op, pc, Going(k), j)
  {
    hide Tracks, Notes, OpAt, EnvStep, ExecCore;
  }

  lemma {:induction false} ComputedDoes(cfg: Config, code: seq<bool>, op: word, pc: address, j: Native)
    requires |code| == 0x1000 && op == OpAt(j.core.mem, pc) && Top(op) == 0xB
    ensures EndDoes(cfg, code, op, pc, RunOps(cfg, code, [SetPc(Bin(U16, Plus, Const(NNN(op)), Reg(0)))], Going(j)), j)
  {
    hide RunOps, RunHost, Eval, Top, X, Y, KK, N, NNN, OpAt, EnvStep, ExecCore, Done, EndDoes;
    ComputedRef(cfg, op, At(j.core, pc), j.env);
    EvalComputed(NNN(op), j);
    RunOne(cfg, code, SetPc(Bin(U16, Plus, Const(NNN(op)), Reg(0))), Going(j));
    EndByEnv(cfg, code, op, pc, j, j.(core := j.core.(pc := NNN(op) + j.core.regs[0])), NO_INPUT);
  }

  lemma {:induction false} ComputedRef(cfg: Config, op: word, c: Core, e: Env)
    requires Top(op) == 0xB
    ensures EnvStep(cfg, op, c, e) == (NO_INPUT, e) && !Waits(op)
    ensures ExecCore(op, c, NO_INPUT) == Some(c.(pc := NNN(op) + c.regs[0]))
  {
    NotSystem(op);
    QuietEnv(cfg, op, c, e);
    hide Top, X, Y, KK, N, NNN, EnvStep, ExecStraight, ExecCall;
  }

  lemma {:induction false} EvalComputed(n: address, j: Native)
    ensures Eval(Bin(U16, Plus, Const(n), Reg(0)), j) == n as int + j.core.regs[0] as int
  {}

  /** An instruction after which the trace returns to the dispatcher. */
  lemma {:induction false} EndCorrect(cfg: Config, code: seq<bool>, op: word, pc: address, k: nat, j: Native)
    requires |code| == 0x1000 && op == OpAt(j.core.mem, pc)
    requires Lower(op, pc, k).End?
    ensures EndDoes(cfg, code, op, pc, RunOps(cfg, code, Lower(op, pc, k).ops, Going(j)), j)
  {
    if op == 0x00EE {
      ReturnDoes(cfg, code, pc, j);
    } else if Top(op) == 2 {
      CallDoes(cfg, code, op, pc, j);
      RunAt(cfg, code, pc, CallSub, j);
    } else if Top(op) == 0xB {
      ComputedDoes(cfg, code, op, pc, j);
    } else if Top(op) == 0xE {
      SkipKeyDoes(cfg, code, op, pc, j);
      RunAt(cfg, code, pc, SkipKey(KK(op) == 0xA1), j);
    } else if KK(op) == 0x0A {
      WaitDoes(cfg, code, op, pc, j);
      RunAt(cfg, code, pc, LoadOnKey, j);
    } else {
      StoreDoes(cfg, code, op, pc, j);
      RunAt(cfg, code, pc, if KK(op) == 0x33 then StoreBcd else SaveRegisters, j);
    }
    hide RunOps, RunHost, EndDoes, OpAt, Top, KK, X, Y, NNN, LowerArith;
  }
}
