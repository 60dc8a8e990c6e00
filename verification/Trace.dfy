/** The code a trace compiler emits, and what running it does.

    A trace is a sequence of blocks in emission order, one per CHIP-8 address. A
    block is straight-line code with side exits, and ends by falling into the
    next block, by closing a back edge onto a block already emitted, or by
    returning to the dispatcher. Both back ends emit this shape. */
module Trace {
  import opened Chip8
  import opened Bench

  // ------------------------------------------------------------ instructions

  datatype Width = U8 | U16

  datatype BinOp = Plus | Minus | Times | BitAnd | BitOr | BitXor | ShiftLeft | ShiftRight | Greater | AtLeast

  datatype Expr =
    | Const(n: nat)
    | Reg(x: nibble)
    | Local(k: nat)
    | Addr
    | Delay
    | Low8(e: Expr)
    | Bin(w: Width, op: BinOp, l: Expr, r: Expr)

  /** The C routines a trace calls. */
  datatype Host =
    | ClearScreen | Retern | CallSub | RandomByte | DrawSprite | SkipKey(up: bool) | LoadOnKey
    | StoreBcd | SaveRegisters | RestoreRegisters | SyncTimers

  datatype Op =
    | Count(n: nat)              // RETIRE
    | Safepoint                  // SAFEPOINT, slow path included
    | SetPc(e: Expr)
    | Snap(k: nat, x: nibble)    // snapshot of a register in a fresh local
    | PutReg(x: nibble, e: Expr)
    | PutAddr(e: Expr)
    | PutDelay(e: Expr)
    | PutSound(e: Expr)
    | Call(h: Host)

  datatype Cond = Same(a: Expr, b: Expr) | Differ(a: Expr, b: Expr)

  /** How a block ends: fall into the next one, branch to block `k` of the same
      trace unless the program is over, or return to the dispatcher. */
  datatype Term = Fall | Close(k: nat) | Return

  /** `Unless` is a conditional branch whose false edge runs `els` and leaves. */
  datatype Piece = Do(op: Op) | Unless(cond: Cond, els: seq<Op>, exit: Term)

  datatype Block = Block(pc: address, local: nat, code: seq<Piece>, term: Term)

  type Trace = seq<Block>

  // --------------------------------------------------------------- semantics

  /** The machine while native code runs. `next` is bench_next_safepoint,
      `smc` smc_pending and `over` program_over. Two history variables that no
      code reads: `tested` is the retired count at the latest test of the stop
      condition, `widest` the most instructions ever retired between two tests. */
  datatype Native = Native(core: Core, env: Env, locals: map<nat, nat>,
                           over: bool, next: nat, smc: bool, tested: nat, widest: int)

  datatype Flow = Going(j: Native) | Leaving(j: Native, exit: Term) | Crashed(j: Native)

  function Modulus(w: Width): (m: nat)
    ensures m > 0
  {
    if w == U8 then 0x100 else 0x10000
  }

  function Apply(w: Width, op: BinOp, l: nat, r: nat): nat
  {
    match op
    case Plus => (l + r) % Modulus(w)
    case Minus => (l - r) % Modulus(w)
    case Times => l * r % Modulus(w)
    case BitAnd => Bits(AND, l, r, if w == U8 then 8 else 16)
    case BitOr => Bits(OR, l, r, if w == U8 then 8 else 16)
    case BitXor => Bits(XOR, l, r, if w == U8 then 8 else 16)
    case ShiftLeft => l * Pow2(r) % Modulus(w)
    case ShiftRight => ShiftDown(l, r)
    case Greater => if l > r then 1 else 0
    case AtLeast => if l >= r then 1 else 0
  }

  function Eval(e: Expr, j: Native): nat
  {
    match e
    case Const(n) => n
    case Reg(x) => j.core.regs[x]
    case Local(k) => if k in j.locals then j.locals[k] else 0
    case Addr => j.core.i
    case Delay => j.env.delay
    case Low8(a) => Eval(a, j) % 0x100
    case Bin(w, op, l, r) => Apply(w, op, Eval(l, j), Eval(r, j))
  }

  predicate Holds(c: Cond, j: Native)
  {
    match c
    case Same(a, b) => Eval(a, j) == Eval(b, j)
    case Differ(a, b) => Eval(a, j) != Eval(b, j)
  }

  function Max(a: int, b: int): int { if a < b then b else a }

  /** Record a test of the stop condition. */
  function Test(j: Native): Native
  {
    j.(tested := j.env.retired, widest := Max(j.widest, j.env.retired - j.tested))
  }

  /** check_interrupt: service the timers and observe the end of the run. */
  function CheckInterrupt(cfg: Config, j: Native): Native
  {
    var e := Sync(j.env);
    Test(j).(env := e, over := j.over || Done(cfg, e))
  }

  /** bench_advance_safepoint: the next multiple step beyond `retired`. */
  function Advance(next: nat, retired: nat): (n: nat)
    ensures n > retired && n > next && (n <= next + SAFEPOINT_INTERVAL || n <= retired + SAFEPOINT_INTERVAL)
    decreases retired - next
  {
    if next + SAFEPOINT_INTERVAL > retired then next + SAFEPOINT_INTERVAL
    else Advance(next + SAFEPOINT_INTERVAL, retired)
  }

  function RunSafepoint(cfg: Config, j: Native): Native
  {
    if j.env.retired >= j.next
    then var c := CheckInterrupt(cfg, j); c.(next := Advance(c.next, c.env.retired))
    else Test(j)
  }

  /** note_store: does [a, a+n) overlap a byte that code generation read? */
  predicate Overlaps(code: seq<bool>, a: int, n: nat)
    requires |code| == 0x1000
  {
    exists b :: 0 <= b < 0x1000 && code[b] && Offset(b, a) < n
  }

  function StoreAndNote(code: seq<bool>, j: Native, vs: seq<byte>): Native
    requires |code| == 0x1000
  {
    var c := j.core;
    j.(smc := j.smc || Overlaps(code, c.i, |vs|),
       core := At(c.(mem := Store(c.mem, c.i, vs)), c.pc + 2))
  }

  function HostSkipKey(cfg: Config, up: bool, key: int, j: Native): Native
  {
    var e := Roll(j.env);
    if (key in Keys(cfg, e)) != up
    then j.(env := ClearKeys(e, {key}), core := At(j.core, j.core.pc + 4))
    else j.(env := e, core := At(j.core, j.core.pc + 2))
  }

  function HostLoadOnKey(cfg: Config, x: nibble, j: Native): Native
  {
    var (keys, e) := PollKeys(cfg, j.env);
    var c := match Highest(keys, 16) case Some(k) => SetReg(j.core, x, k) case None => j.core;
    j.(env := ClearKeys(e, ALL_KEYS), over := j.over || Done(cfg, e), core := At(c, c.pc + 2))
  }

  function HostDraw(cfg: Config, op: word, j: Native): Native
  {
    var s := CheckInterrupt(cfg, j);
    s.(core := ExecDraw(op, s.core))
  }

  /** The host routines. Those that decode an opcode read it at the stored
      program counter. */
  function RunHost(cfg: Config, code: seq<bool>, h: Host, j: Native): Flow
    requires |code| == 0x1000
  {
    var c := j.core;
    var op := OpAt(c.mem, c.pc);
    var x := X(op);
    match h
    case ClearScreen => Going(j.(core := c.(lit := {})))
    case Retern => (
      var s := CheckInterrupt(cfg, j);
      match ExecReturn(s.core) case Some(d) => Going(s.(core := d)) case None => Crashed(s))
    case CallSub => (
      var s := CheckInterrupt(cfg, j);
      match ExecCall(s.core, NNN(op)) case Some(d) => Going(s.(core := d)) case None => Crashed(s))
    case RandomByte =>
      Going(j.(core := SetReg(c, x, Bits8(AND, cfg.rand(j.env.rng), KK(op))), env := j.env.(rng := j.env.rng + 1)))
    case DrawSprite => Going(HostDraw(cfg, op, j))
    case SkipKey(up) => Going(HostSkipKey(cfg, up, KeyOf(c.regs[x]), j))
    case LoadOnKey => Going(HostLoadOnKey(cfg, x, j))
    case StoreBcd => Going(StoreAndNote(code, j, Digits(c.regs[x])))
    case SaveRegisters => Going(StoreAndNote(code, j, c.regs[..x + 1]))
    case RestoreRegisters => Going(j.(core := c.(regs := Load(c.mem, c.i, x + 1) + c.regs[x + 1..])))
    case SyncTimers => Going(j.(env := Sync(j.env)))
  }

  function RunOp(cfg: Config, code: seq<bool>, op: Op, j: Native): Flow
    requires |code| == 0x1000
  {
    match op
    case Count(n) => Going(j.(env := Retire(j.env, n)))
    case Safepoint => Going(RunSafepoint(cfg, j))
    case SetPc(e) => Going(j.(core := At(j.core, Eval(e, j))))
    case Snap(k, x) => Going(j.(locals := j.locals[k := j.core.regs[x]]))
    case PutReg(x, e) => Going(j.(core := SetReg(j.core, x, Eval(e, j))))
    case PutAddr(e) => Going(j.(core := j.core.(i := Eval(e, j) % 0x10000)))
    case PutDelay(e) => Going(j.(env := j.env.(delay := Eval(e, j) % 0x100)))
    case PutSound(e) => Going(j.(env := j.env.(sound := Eval(e, j) % 0x100)))
    case Call(h) => RunHost(cfg, code, h, j)
  }

  function RunOps(cfg: Config, code: seq<bool>, ops: seq<Op>, f: Flow): Flow
    requires |code| == 0x1000
  {
    if ops == [] || !f.Going? then f
    else RunOps(cfg, code, ops[1..], RunOp(cfg, code, ops[0], f.j))
  }

  function Leave(f: Flow, exit: Term): Flow
  {
    if f.Going? then Leaving(f.j, exit) else f
  }

  function RunPiece(cfg: Config, code: seq<bool>, p: Piece, j: Native): Flow
    requires |code| == 0x1000
  {
    match p
    case Do(op) => RunOp(cfg, code, op, j)
    case Unless(cond, els, exit) =>
      if Holds(cond, j) then Going(j) else Leave(RunOps(cfg, code, els, Going(j)), exit)
  }

  function RunPieces(cfg: Config, code: seq<bool>, ps: seq<Piece>, f: Flow): Flow
    requires |code| == 0x1000
  {
    if ps == [] || !f.Going? then f
    else RunPieces(cfg, code, ps[1..], RunPiece(cfg, code, ps[0], f.j))
  }

  /** Run one block from its first instruction to its exit. */
  function RunBlock(cfg: Config, code: seq<bool>, b: Block, j: Native): Flow
    requires |code| == 0x1000
  {
    Leave(RunPieces(cfg, code, b.code, Going(j)), b.term)
  }

  // --------------------------------------------------------------- emission

  /** The shapes the opcode switch of codegen produces. */
  datatype Lowered =
    | Inline(ops: seq<Op>)              // continue at the next instruction
    | End(ops: seq<Op>)                 // return to the dispatcher
    | Jump(target: address)
    | Branch(cond: Cond)
    | Unsupported

  function LowerArith(op: word, k: nat): Lowered
  {
    var x, y := X(op), Y(op);
    match N(op)
    case 0x0 => Inline([PutReg(x, Reg(y))])
    case 0x1 => Inline([PutReg(x, Bin(U8, BitOr, Reg(x), Reg(y)))])
    case 0x2 => Inline([PutReg(x, Bin(U8, BitAnd, Reg(x), Reg(y)))])
    case 0x3 => Inline([PutReg(x, Bin(U8, BitXor, Reg(x), Reg(y)))])
    case 0x4 => (
      var sum := Bin(U16, Plus, Local(k), Local(k + 1));
      Inline([Snap(k, x), Snap(k + 1, y), PutReg(x, Low8(sum)), PutReg(0xF, Bin(U16, Greater, sum, Const(0xFF)))]))
    case 0x5 =>
      Inline([Snap(k, x), Snap(k + 1, y), PutReg(x, Bin(U8, Minus, Local(k), Local(k + 1))),
              PutReg(0xF, Bin(U8, AtLeast, Local(k), Local(k + 1)))])
    case 0x6 =>
      Inline([Snap(k, x), PutReg(x, Bin(U8, ShiftRight, Local(k), Const(1))),
              PutReg(0xF, Bin(U8, BitAnd, Local(k), Const(1)))])
    case 0x7 =>
      Inline([Snap(k, x), Snap(k + 1, y), PutReg(x, Bin(U8, Minus, Local(k + 1), Local(k))),
              PutReg(0xF, Bin(U8, AtLeast, Local(k + 1), Local(k)))])
    case 0xE => (
      var high := Bin(U8, BitAnd, Local(k), Const(0x80));
      Inline([Snap(k, x), PutReg(x, Bin(U8, ShiftLeft, Local(k), Const(1))),
              PutReg(0xF, Bin(U8, ShiftRight, high, Const(7)))]))
    case _ => Unsupported
  }

  function LowerMisc(op: word, pc: address): Lowered
  {
    var x := X(op);
    match KK(op)
    case 0x07 => Inline([Call(SyncTimers), PutReg(x, Delay)])
    case 0x0A => End([SetPc(Const(pc)), Call(LoadOnKey)])
    case 0x15 => Inline([Call(SyncTimers), PutDelay(Reg(x))])
    case 0x18 => Inline([Call(SyncTimers), PutSound(Reg(x))])
    case 0x1E => Inline([PutAddr(Bin(U16, Plus, Addr, Reg(x)))])
    case 0x29 => Inline([PutAddr(Bin(U16, Times, Bin(U16, BitAnd, Reg(x), Const(0xF)), Const(5)))])
    case 0x33 => End([SetPc(Const(pc)), Call(StoreBcd)])
    case 0x55 => End([SetPc(Const(pc)), Call(SaveRegisters)])
    case 0x65 => Inline([SetPc(Const(pc)), Call(RestoreRegisters)])
    case _ => Unsupported
  }

  /** The opcode switch of codegen, for the instruction `op` at `pc` with `k`
      the next unused local. */
  function Lower(op: word, pc: address, k: nat): Lowered
  {
    var x, y := X(op), Y(op);
    if op == 0x00E0 then Inline([Call(ClearScreen)])
    else if op == 0x00EE then End([Call(Retern)])
    else match Top(op)
      case 0x0 => Jump(NNN(op))
      case 0x1 => Jump(NNN(op))
      case 0x2 => End([SetPc(Const(pc)), Call(CallSub)])
      case 0x3 => Branch(Same(Reg(x), Const(KK(op))))
      case 0x4 => Branch(Differ(Reg(x), Const(KK(op))))
      case 0x5 => Branch(Same(Reg(x), Reg(y)))
      case 0x6 => Inline([PutReg(x, Const(KK(op)))])
      case 0x7 => Inline([PutReg(x, Bin(U8, Plus, Reg(x), Const(KK(op))))])
      case 0x8 => LowerArith(op, k)
      case 0x9 => Branch(Differ(Reg(x), Reg(y)))
      case 0xA => Inline([PutAddr(Const(NNN(op)))])
      case 0xB => End([SetPc(Bin(U16, Plus, Const(NNN(op)), Reg(0)))])
      case 0xC => Inline([SetPc(Const(pc)), Call(RandomByte)])
      case 0xD => Inline([SetPc(Const(pc)), Call(DrawSprite)])
      case 0xE =>
        if KK(op) == 0x9E then End([SetPc(Const(pc)), Call(SkipKey(false))])
        else if KK(op) == 0xA1 then End([SetPc(Const(pc)), Call(SkipKey(true))])
        else Unsupported
      case 0xF => LowerMisc(op, pc)
  }

  function Plain(ops: seq<Op>): (ps: seq<Piece>)
    ensures |ps| == |ops| && forall k :: 0 <= k < |ops| ==> ps[k] == Do(ops[k])
  {
    seq(|ops|, k requires 0 <= k < |ops| => Do(ops[k]))
  }
}
