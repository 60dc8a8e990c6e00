/** The CHIP-8 machine shared by every engine: registers, memory, stack and
    framebuffer (`Core`), and the effect of one opcode on them (`ExecCore`).

    What an opcode learns from the outside world (a timer, a key, a random
    byte) arrives as an `Input`; where those inputs come from is the business of
    module Bench. */
module Chip8 {
  datatype Option<+T> = None | Some(value: T)

  const MEMORY_SIZE: int := 0x1000
  const STACK_SIZE: int := 0x10
  const ENTRYPOINT: int := 0x200
  const WIDTH: int := 64
  const HEIGHT: int := 32

  type byte = b: int | 0 <= b < 0x100
  type word = w: int | 0 <= w < 0x10000
  type nibble = n: int | 0 <= n < 0x10
  type address = a: int | 0 <= a < 0x1000

  type Regs = r: seq<byte> | |r| == 0x10 witness seq(0x10, _ => 0)
  type Memory = m: seq<byte> | |m| == 0x1000 witness seq(0x1000, _ => 0)
  /** The live part of the return stack, oldest frame first. */
  type Stack = s: seq<word> | |s| <= 0x10 witness []
  type Pixel = (int, int)

  datatype Core = Core(regs: Regs, i: word, pc: word, stack: Stack, mem: Memory, lit: set<Pixel>)

  /** What one instruction reads from the environment. */
  datatype Input = Input(delay: byte, hit: bool, key: Option<byte>, rnd: byte)

  // ---------------------------------------------------------------- decoding

  function Wrap(a: int): (w: address) { a % 0x1000 }

  function OpAt(mem: Memory, pc: int): (op: word)
  {
    var high: int, low: int := mem[Wrap(pc)], mem[Wrap(pc + 1)];
    high * 0x100 + low
  }

  function Top(op: word): nibble { op / 0x1000 }
  function X(op: word): nibble { op / 0x100 % 0x10 }
  function Y(op: word): nibble { op / 0x10 % 0x10 }
  function N(op: word): nibble { op % 0x10 }
  function KK(op: word): byte { op % 0x100 }
  function NNN(op: word): address { op % 0x1000 }

  /** Clearing the screen and returning are the opcodes of group 0. */
  lemma NotSystem(op: word)
    ensures Top(op) != 0 ==> op != 0x00E0 && op != 0x00EE
  {}

  // -------------------------------------------------------------- byte logic

  /** 2 to the power k, for the eight bit positions of a byte. */
  function Pow2(k: nat): (p: int)
    ensures p > 0
  {
    if k == 0 then 1 else 2 * Pow2(k - 1)
  }

  /** v shifted right by k. */
  function ShiftDown(v: nat, k: nat): (r: nat)
    ensures r <= v
  {
    if k == 0 then v else ShiftDown(v / 2, k - 1)
  }

  datatype BitOp = AND | OR | XOR

  function BitOf(o: BitOp, a: bool, b: bool): bool
  {
    match o
    case AND => a && b
    case OR => a || b
    case XOR => a != b
  }

  /** The low `k` bits of a bitwise operation. */
  function Bits(o: BitOp, a: nat, b: nat, k: nat): (r: nat)
    ensures r < Pow2(k)
  {
    if k == 0 then 0
    else 2 * Bits(o, a / 2, b / 2, k - 1) + if BitOf(o, a % 2 == 1, b % 2 == 1) then 1 else 0
  }

  lemma Pow2Eight()
    ensures Pow2(8) == 0x100
  {
    assert Pow2(4) == 0x10;
  }

  function Bits8(o: BitOp, a: byte, b: byte): byte
  {
    Pow2Eight();
    Bits(o, a, b, 8)
  }

  /** Column `i` of a sprite row: column 0 is the most significant bit. */
  predicate BitSet(b: byte, i: int)
    requires 0 <= i < 8
  {
    ShiftDown(b, 7 - i) % 2 == 1
  }

  // -------------------------------------------------------- memory and pixels

  /** How far address `b` lies above `a` in the wrapped 4 KiB space. */
  function Offset(b: int, a: int): address { (b - a) % 0x1000 }

  /** Memory after the bytes `vs` are stored upwards from `a`, wrapping. */
  function Store(mem: Memory, a: int, vs: seq<byte>): (r: Memory)
    ensures forall b :: 0 <= b < 0x1000 ==>
      r[b] == if Offset(b, a) < |vs| then vs[Offset(b, a)] else mem[b]
  {
    seq(0x1000, b requires 0 <= b < 0x1000 => if Offset(b, a) < |vs| then vs[Offset(b, a)] else mem[b])
  }

  /** The `n` bytes read upwards from `a`, wrapping. */
  function Load(mem: Memory, a: int, n: nat): (r: seq<byte>)
    ensures |r| == n
    ensures forall j :: 0 <= j < n ==> r[j] == mem[Wrap(a + j)]
  {
    seq(n, j requires 0 <= j < n => mem[Wrap(a + j)])
  }

  /** The pixels a sprite covers: wrapped origin, clipped at the right and
      bottom edges. */
  function SpritePixels(x: int, y: int, rows: seq<byte>): set<Pixel>
  {
    set i, j | 0 <= i < 8 && 0 <= j < |rows| && BitSet(rows[j], i)
               && x % WIDTH + i < WIDTH && y % HEIGHT + j < HEIGHT
      :: (x % WIDTH + i, y % HEIGHT + j)
  }

  /** Exclusive-or of two pixel sets. */
  function Toggle(lit: set<Pixel>, sprite: set<Pixel>): set<Pixel>
  {
    (lit - sprite) + (sprite - lit)
  }

  function Bit(b: bool): (r: byte)
  {
    if b then 1 else 0
  }

  function Digits(v: byte): (r: seq<byte>)
    ensures |r| == 3
  {
    [v / 100, v / 10 % 10, v % 10]
  }

  // --------------------------------------------------------------- execution

  function At(c: Core, pc: int): Core
  {
    c.(pc := pc % 0x10000)
  }

  function SkipIf(c: Core, taken: bool): Core
  {
    At(c, c.pc + if taken then 4 else 2)
  }

  function SetReg(c: Core, x: nibble, v: int): Core
  {
    c.(regs := c.regs[x := v % 0x100])
  }

  /** Result first, flag last, so that the flag wins when x is F. */
  function SetRegFlag(c: Core, x: nibble, v: int, flag: bool): Core
  {
    c.(regs := c.regs[x := v % 0x100][0xF := Bit(flag)])
  }

  function ExecReturn(c: Core): Option<Core>
  {
    if |c.stack| > 0
    then Some(c.(pc := c.stack[|c.stack| - 1], stack := c.stack[..|c.stack| - 1]))
    else None
  }

  function ExecCall(c: Core, target: address): Option<Core>
  {
    if |c.stack| < STACK_SIZE
    then Some(c.(stack := c.stack + [(c.pc + 2) % 0x10000], pc := target))
    else None
  }

  function ExecArith(op: word, c: Core): Option<Core>
    requires Top(op) == 8
  {
    var x := X(op);
    var vx: int, vy: int := c.regs[x], c.regs[Y(op)];
    match N(op)
    case 0x0 => Some(SetReg(c, x, vy))
    case 0x1 => Some(SetReg(c, x, Bits8(OR, vx, vy)))
    case 0x2 => Some(SetReg(c, x, Bits8(AND, vx, vy)))
    case 0x3 => Some(SetReg(c, x, Bits8(XOR, vx, vy)))
    case 0x4 => Some(SetRegFlag(c, x, vx + vy, vx + vy > 0xFF))
    case 0x5 => Some(SetRegFlag(c, x, vx - vy, vx >= vy))
    case 0x6 => Some(SetRegFlag(c, x, vx / 2, vx % 2 == 1))
    case 0x7 => Some(SetRegFlag(c, x, vy - vx, vy >= vx))
    case 0xE => Some(SetRegFlag(c, x, vx * 2, vx >= 0x80))
    case _ => None
  }

  function ExecDraw(op: word, c: Core): Core
  {
    var sprite := SpritePixels(c.regs[X(op)], c.regs[Y(op)], Load(c.mem, c.i, N(op)));
    c.(lit := Toggle(c.lit, sprite), regs := c.regs[0xF := Bit(c.lit * sprite != {})])
  }

  function ExecMisc(op: word, c: Core, inp: Input): Option<Core>
    requires Top(op) == 0xF
  {
    var x := X(op);
    match KK(op)
    case 0x07 => Some(SetReg(c, x, inp.delay))
    case 0x0A => Some(if inp.key.Some? then SetReg(c, x, inp.key.value) else c)
    case 0x15 => Some(c)
    case 0x18 => Some(c)
    case 0x1E => Some(c.(i := (c.i + c.regs[x]) % 0x10000))
    case 0x29 => Some(c.(i := c.regs[x] % 0x10 * 5))
    case 0x33 => Some(c.(mem := Store(c.mem, c.i, Digits(c.regs[x]))))
    case 0x55 => Some(c.(mem := Store(c.mem, c.i, c.regs[..x + 1])))
    case 0x65 => Some(c.(regs := Load(c.mem, c.i, x + 1) + c.regs[x + 1..]))
    case _ => None
  }

  /** The instructions that always fall through to the next one, without the
      advance of the program counter, which they neither read nor set. */
  function ExecStraight(op: word, c: Core, inp: Input): Option<Core>
  {
    var x, vx := X(op), c.regs[X(op)];
    if op == 0x00E0 then Some(c.(lit := {}))
    else match Top(op)
      case 0x6 => Some(SetReg(c, x, KK(op)))
      case 0x7 => Some(SetReg(c, x, vx + KK(op)))
      case 0x8 => ExecArith(op, c)
      case 0xA => Some(c.(i := NNN(op)))
      case 0xC => Some(SetReg(c, x, Bits8(AND, inp.rnd, KK(op))))
      case 0xD => Some(ExecDraw(op, c))
      case 0xF => ExecMisc(op, c, inp)
      case _ => None
  }

  /** The effect of opcode `op` on the machine; None is the error return. */
  function ExecCore(op: word, c: Core, inp: Input): Option<Core>
  {
    var vx := c.regs[X(op)];
    if op == 0x00EE then ExecReturn(c)
    else if op != 0x00E0 && Top(op) <= 1 then Some(c.(pc := NNN(op)))
    else match Top(op)
      case 0x2 => ExecCall(c, NNN(op))
      case 0x3 => Some(SkipIf(c, vx == KK(op)))
      case 0x4 => Some(SkipIf(c, vx != KK(op)))
      case 0x5 => Some(SkipIf(c, vx == c.regs[Y(op)]))
      case 0x9 => Some(SkipIf(c, vx != c.regs[Y(op)]))
      case 0xB => Some(c.(pc := NNN(op) + c.regs[0]))
      case 0xE => if KK(op) == 0x9E || KK(op) == 0xA1 then Some(SkipIf(c, inp.hit)) else None
      case _ =>
        match ExecStraight(op, c, inp)
        case Some(d) => Some(SkipIf(d, false))
        case None => None
  }

  /** Falling through does not depend on where the instruction is. */
  lemma StraightFrame(op: word, c: Core, pc: int, inp: Input)
    requires ExecStraight(op, c, inp).Some?
    ensures ExecStraight(op, At(c, pc), inp).Some?
    ensures ExecStraight(op, At(c, pc), inp).value == At(ExecStraight(op, c, inp).value, pc)
    ensures ExecStraight(op, c, inp).value.pc == c.pc
  {
    hide Top, X, Y, N, KK, NNN, Bits, Load, Store, SpritePixels;
  }
}
