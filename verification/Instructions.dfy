/** What the reference instructions compute, in arithmetic of their own: bits by
    place value, sums with their carry, digits, calls and returns. */
module Instructions {
  import opened Chip8
  import opened Bench

  /** The place values of a byte's bits. */
  const PLACES: seq<int> := [1, 2, 4, 8, 16, 32, 64, 128]

  /** Bit `k` of `v` by division. */
  predicate Place(v: int, k: int)
    requires 0 <= k < 8
  {
    v / PLACES[k] % 2 == 1
  }

  /** What the bits in the places `chosen` are worth. */
  function Worth(chosen: seq<bool>): (s: nat)
    requires |chosen| == 8
  {
    (if chosen[0] then 1 else 0) + (if chosen[1] then 2 else 0) + (if chosen[2] then 4 else 0) + (if chosen[3] then 8 else 0)
    + (if chosen[4] then 16 else 0) + (if chosen[5] then 32 else 0) + (if chosen[6] then 64 else 0) + (if chosen[7] then 128 else 0)
  }

  /** A byte is the sum of its places. */
  lemma {:induction false} ByteWorth(b: byte)
    ensures b == Worth([Place(b, 0), Place(b, 1), Place(b, 2), Place(b, 3), Place(b, 4), Place(b, 5), Place(b, 6), Place(b, 7)])
  {
    PlaceChain(b);
    hide Place;
  }

  lemma {:induction false} PlaceChain(v: nat)
    requires v < 0x100
    ensures v == 2 * (v / 2) + (if Place(v, 0) then 1 else 0) && v / 2 == 2 * (v / 4) + (if Place(v, 1) then 1 else 0)
    ensures v / 4 == 2 * (v / 8) + (if Place(v, 2) then 1 else 0) && v / 8 == 2 * (v / 16) + (if Place(v, 3) then 1 else 0)
    ensures v / 16 == 2 * (v / 32) + (if Place(v, 4) then 1 else 0) && v / 32 == 2 * (v / 64) + (if Place(v, 5) then 1 else 0)
    ensures v / 64 == 2 * (v / 128) + (if Place(v, 6) then 1 else 0) && v / 128 == if Place(v, 7) then 1 else 0
  {
    hide Place;
    PlaceRest(v, 0);
    PlaceRest(v, 1);
    PlaceRest(v, 2);
    PlaceRest(v, 3);
    PlaceRest(v, 4);
    PlaceRest(v, 5);
    PlaceRest(v, 6);
    LastPlace(v);
  }

  lemma LastPlace(v: nat)
    requires v < 0x100
    ensures v / 128 == if Place(v, 7) then 1 else 0
  {}

  lemma PlaceRest(v: nat, k: nat)
    requires k < 7
    ensures v / PLACES[k] == 2 * (v / PLACES[k + 1]) + if Place(v, k) then 1 else 0
  {
    assert PLACES[k + 1] == 2 * PLACES[k];
    Halves(v, PLACES[k]);
  }

  lemma Halves(v: nat, p: nat)
    requires p in {1, 2, 4, 8, 16, 32, 64}
    ensures v / (2 * p) == v / p / 2 == v / 2 / p
  {
    if p == 1 {} else if p == 2 {} else if p == 4 {} else if p == 8 {} else if p == 16 {} else if p == 32 {} else {}
  }

  // -------------------------------------------------------- bitwise opcodes

  /** One place further down. */
  lemma PlaceDown(v: nat, k: nat)
    requires 0 < k < 8
    ensures Place(v, k) == Place(v / 2, k - 1)
  {
    assert PLACES[k] == 2 * PLACES[k - 1];
    Halves(v, PLACES[k - 1]);
  }

  /** The places of a bitwise operation, as the operation is on single bits. */
  lemma {:induction false} BitsPlace(o: BitOp, a: nat, b: nat, n: nat, k: nat)
    requires k < n <= 8
    ensures Place(Bits(o, a, b, n), k) <==>
      (match o case AND => Place(a, k) && Place(b, k) case OR => Place(a, k) || Place(b, k) case XOR => Place(a, k) != Place(b, k))
  {
    var r := Bits(o, a, b, n);
    assert r / 2 == Bits(o, a / 2, b / 2, n - 1);
    if k > 0 {
      BitsPlace(o, a / 2, b / 2, n - 1, k - 1);
      PlaceDown(r, k);
      PlaceDown(a, k);
      PlaceDown(b, k);
    }
    hide Bits;
  }

  /** Together the three are arithmetic: what is in both and what is in either add
      up, and what differs is the rest. */
  lemma {:induction false} BitsAddUp(a: nat, b: nat, n: nat)
    requires a < Pow2(n) && b < Pow2(n)
    ensures Bits(AND, a, b, n) + Bits(OR, a, b, n) == a + b
    ensures Bits(XOR, a, b, n) == Bits(OR, a, b, n) - Bits(AND, a, b, n)
  {
    if n > 0 { BitsAddUp(a / 2, b / 2, n - 1); }
  }

  /** 8xy1, 8xy2 and 8xy3: inclusive or, and, exclusive or, place by place. */
  lemma {:induction false} LogicOpcodes(op: word, c: Core, inp: Input, k: nat)
    requires Top(op) == 8 && N(op) in {1, 2, 3} && k < 8
    ensures ExecCore(op, c, inp).Some?
    ensures
      var x, y, r := c.regs[X(op)], c.regs[Y(op)], ExecCore(op, c, inp).value;
      && r == c.(regs := c.regs[X(op) := r.regs[X(op)]], pc := (c.pc + 2) % 0x10000)
      && (N(op) == 1 ==> (Place(r.regs[X(op)], k) <==> Place(x, k) || Place(y, k)))
      && (N(op) == 2 ==> (Place(r.regs[X(op)], k) <==> Place(x, k) && Place(y, k)))
      && (N(op) == 3 ==> (Place(r.regs[X(op)], k) <==> Place(x, k) != Place(y, k)))
  {
    hide Top, X, Y, N, KK, NNN, Bits, Place, ExecCore;
    ArithCore(op, c, inp);
    var x, y := c.regs[X(op)], c.regs[Y(op)];
    BitsPlace(OR, x, y, 8, k);
    BitsPlace(AND, x, y, 8, k);
    BitsPlace(XOR, x, y, 8, k);
  }

  lemma {:induction false} ArithCore(op: word, c: Core, inp: Input)
    requires Top(op) == 8
    ensures ExecCore(op, c, inp) == match ExecArith(op, c) case Some(d) => Some(SkipIf(d, false)) case None => None
  {
    NotSystem(op);
    hide Top, X, Y, N, KK, NNN, ExecMisc, ExecArith, SkipIf;
  }

  /** Cxkk: the random byte, masked place by place. */
  lemma {:induction false} RandomOpcode(op: word, c: Core, inp: Input, k: nat)
    requires Top(op) == 0xC && k < 8
    ensures ExecCore(op, c, inp).Some?
    ensures
      var r := ExecCore(op, c, inp).value;
      && r == c.(regs := c.regs[X(op) := r.regs[X(op)]], pc := (c.pc + 2) % 0x10000)
      && (Place(r.regs[X(op)], k) <==> Place(inp.rnd, k) && Place(KK(op), k))
  {
    hide Top, X, Y, N, KK, NNN, Bits, Place, ExecCore;
    RandomCore(op, c, inp);
    BitsPlace(AND, inp.rnd, KK(op), 8, k);
  }

  lemma {:induction false} RandomCore(op: word, c: Core, inp: Input)
    requires Top(op) == 0xC
    ensures ExecCore(op, c, inp) == Some(SkipIf(SetReg(c, X(op), Bits8(AND, inp.rnd, KK(op))), false))
  {
    NotSystem(op);
    hide Top, X, Y, N, KK, NNN, Bits8, SkipIf, SetReg, ExecMisc, ExecArith;
  }

  // -------------------------------------------------------------- arithmetic

  /** 8xy4 to 8xyE: result and flag together are the sum, the difference or the
      shifted value in full, and the flag, stored last, is the carry, the missing
      borrow or the bit shifted out. */
  lemma {:induction false} SumOpcodes(op: word, c: Core, inp: Input)
    requires Top(op) == 8 && N(op) in {4, 5, 6, 7, 0xE}
    ensures ExecCore(op, c, inp).Some?
    ensures
      var x: int, y: int, r := c.regs[X(op)], c.regs[Y(op)], ExecCore(op, c, inp).value;
      var v: int, f: int := r.regs[X(op)], r.regs[0xF];
      && r == c.(regs := c.regs[X(op) := r.regs[X(op)]][0xF := r.regs[0xF]], pc := (c.pc + 2) % 0x10000)
      && (X(op) != 0xF ==> FullResult(N(op), x, y, v, f))
      && (X(op) == 0xF ==> exists w: byte :: FullResult(N(op), x, y, w, f))
  {
    hide Top, X, Y, N, KK, NNN, Bits, ExecCore, FullResult;
    ArithCore(op, c, inp);
    var x: int, y: int, r := c.regs[X(op)], c.regs[Y(op)], ExecCore(op, c, inp).value;
    ResultHolds(N(op), x, y);
    assert r.regs[0xF] == Bit(ResultOf(N(op), x, y).1);
    assert FullResult(N(op), x, y, ResultOf(N(op), x, y).0 % 0x100, r.regs[0xF]);
  }

  /** Result and flag of the five, before the result is cut to a byte. */
  function ResultOf(n: nibble, x: int, y: int): (int, bool)
  {
    match n
    case 4 => (x + y, x + y > 0xFF)
    case 5 => (x - y, x >= y)
    case 6 => (x / 2, x % 2 == 1)
    case 7 => (y - x, y >= x)
    case _ => (x * 2, x >= 0x80)
  }

  lemma ResultHolds(n: nibble, x: byte, y: byte)
    requires n in {4, 5, 6, 7, 0xE}
    ensures FullResult(n, x, y, ResultOf(n, x, y).0 % 0x100, Bit(ResultOf(n, x, y).1))
  {}

  predicate FullResult(n: nibble, x: int, y: int, v: int, f: int)
  {
    && 0 <= f <= 1 && 0 <= v < 0x100
    && (n == 4 ==> 0x100 * f + v == x + y)
    && (n == 5 ==> v - 0x100 * (1 - f) == x - y)
    && (n == 6 ==> 2 * v + f == x)
    && (n == 7 ==> v - 0x100 * (1 - f) == y - x)
    && (n == 0xE ==> 0x100 * f + v == 2 * x)
  }

  /** The result in full determines result and flag. */
  lemma FullResultOnce(n: nibble, x: byte, y: byte, v: int, f: int, w: int, g: int)
    requires n in {4, 5, 6, 7, 0xE} && FullResult(n, x, y, v, f) && FullResult(n, x, y, w, g)
    ensures v == w && f == g
  {}

  // ------------------------------------------------------- memory and stack

  /** Fx33: three decimal digits that make up the value. */
  lemma {:induction false} DigitsOpcode(op: word, c: Core, inp: Input)
    requires Top(op) == 0xF && KK(op) == 0x33
    ensures ExecCore(op, c, inp).Some?
    ensures
      var m := ExecCore(op, c, inp).value.mem;
      var hundreds: int, tens: int, ones: int := m[Wrap(c.i)], m[Wrap(c.i + 1)], m[Wrap(c.i + 2)];
      && 100 * hundreds + 10 * tens + ones == c.regs[X(op)] && tens < 10 && ones < 10
      && (forall a :: 0 <= a < 0x1000 && a !in {Wrap(c.i), Wrap(c.i + 1), Wrap(c.i + 2)} ==> m[a] == c.mem[a])
      && ExecCore(op, c, inp).value == c.(mem := m, pc := (c.pc + 2) % 0x10000)
  {
    hide Top, X, Y, N, KK, NNN, ExecCore, Digits, Offset, Wrap;
    MiscCore(op, c, inp);
    DigitsWorth(c.regs[X(op)]);
    Placed(c.i, 0);
    Placed(c.i, 1);
    Placed(c.i, 2);
    forall a | 0 <= a < 0x1000 && Offset(a, c.i) < 3 ensures a in {Wrap(c.i), Wrap(c.i + 1), Wrap(c.i + 2)} { Within(c.i, a); }
  }

  lemma {:induction false} MiscCore(op: word, c: Core, inp: Input)
    requires Top(op) == 0xF
    ensures ExecCore(op, c, inp) == match ExecMisc(op, c, inp) case Some(d) => Some(SkipIf(d, false)) case None => None
  {
    NotSystem(op);
    hide Top, X, Y, N, KK, NNN, ExecMisc, ExecArith, SkipIf;
  }

  lemma DigitsWorth(v: byte)
    ensures var d := Digits(v); 100 * d[0] + 10 * d[1] + d[2] == v && d[1] < 10 && d[2] < 10
  {}

  lemma Placed(i: int, j: int)
    requires 0 <= j < 0x1000
    ensures Offset(Wrap(i + j), i) == j
  {}

  lemma Within(i: int, a: int)
    requires 0 <= a < 0x1000
    ensures a == Wrap(i + Offset(a, i))
  {}

  /** Fx55 and then Fx65 with the same x and I: the registers are back, whatever
      happened to them in between. */
  lemma {:induction false} SaveRestore(save: word, load: word, c: Core, d: Core, inp: Input)
    requires Top(save) == 0xF == Top(load) && KK(save) == 0x55 && KK(load) == 0x65 && X(save) == X(load)
    requires d.i == c.i && ExecCore(save, c, inp).Some? && d.mem == ExecCore(save, c, inp).value.mem
    ensures ExecCore(load, d, inp).Some?
    ensures
      var r := ExecCore(load, d, inp).value;
      && r == d.(regs := r.regs, pc := (d.pc + 2) % 0x10000)
      && forall k :: 0 <= k < 0x10 ==> r.regs[k] == if k <= X(save) then c.regs[k] else d.regs[k]
  {
    hide Top, X, Y, N, KK, NNN, ExecCore, Offset, Wrap;
    MiscCore(save, c, inp);
    MiscCore(load, d, inp);
    var r := ExecCore(load, d, inp).value;
    forall k | 0 <= k < 0x10 ensures r.regs[k] == if k <= X(save) then c.regs[k] else d.regs[k] {
      if k <= X(save) { Placed(c.i, k); }
    }
  }

  /** A call, and a return with the stack the call left: back behind the call. */
  lemma {:induction false} CallReturn(op: word, c: Core, d: Core, inp: Input)
    requires Top(op) == 2 && ExecCore(op, c, inp).Some? && d.stack == ExecCore(op, c, inp).value.stack
    ensures ExecCore(op, c, inp).value == c.(pc := NNN(op), stack := d.stack) && |d.stack| == |c.stack| + 1
    ensures ExecCore(0x00EE, d, inp) == Some(d.(pc := (c.pc + 2) % 0x10000, stack := c.stack))
  {
    NotSystem(op);
    assert d.stack[..|d.stack| - 1] == c.stack;
    hide Top, X, Y, N, KK, NNN, ExecStraight;
  }

  // ----------------------------------------------------------------- sprites

  /** Row bytes by the places of their bits: column 0 is worth 128. */
  lemma {:induction false} ColumnPlace(b: byte, i: nat)
    requires i < 8
    ensures BitSet(b, i) <==> Place(b, 7 - i)
  {
    DownPlace(b, 7 - i);
  }

  lemma {:induction false} DownPlace(v: nat, k: nat)
    requires k < 8
    ensures ShiftDown(v, k) % 2 == 1 <==> Place(v, k)
  {
    if k > 0 {
      DownPlace(v / 2, k - 1);
      PlaceDown(v, k);
    }
  }

  /** The pixel at (px, py) is under a set bit of a sprite drawn at (x, y). */
  predicate Inked(x: int, y: int, rows: seq<byte>, px: int, py: int)
  {
    var i, j := px - x % 64, py - y % 32;
    0 <= i < 8 && 0 <= j < |rows| && Place(rows[j], 7 - i)
  }

  lemma {:induction false} SpriteInked(x: int, y: int, rows: seq<byte>, px: int, py: int)
    ensures (px, py) in SpritePixels(x, y, rows) <==> px < 64 && py < 32 && Inked(x, y, rows, px, py)
  {
    var i, j := px - x % 64, py - y % 32;
    if 0 <= i < 8 && 0 <= j < |rows| { ColumnPlace(rows[j], i); }
    hide Place, BitSet;
    if px < 64 && py < 32 && Inked(x, y, rows, px, py) {
      assert px == x % WIDTH + i && py == y % HEIGHT + j;
    }
  }

  /** Dxyn: exactly the inked pixels change, and VF says whether one of them was
      lit. */
  lemma {:induction false} DrawOpcode(op: word, c: Core, inp: Input)
    requires Top(op) == 0xD
    ensures ExecCore(op, c, inp).Some?
    ensures
      var r, x, y, rows := ExecCore(op, c, inp).value, c.regs[X(op)], c.regs[Y(op)], Load(c.mem, c.i, N(op));
      && r == c.(lit := r.lit, regs := c.regs[0xF := r.regs[0xF]], pc := (c.pc + 2) % 0x10000)
      && (forall px, py :: (((px, py) in r.lit) != ((px, py) in c.lit)) <==> px < 64 && py < 32 && Inked(x, y, rows, px, py))
      && (r.regs[0xF] == if exists px, py :: (px, py) in c.lit && px < 64 && py < 32 && Inked(x, y, rows, px, py) then 1 else 0)
  {
    NotSystem(op);
    var r, x, y, rows := ExecCore(op, c, inp).value, c.regs[X(op)], c.regs[Y(op)], Load(c.mem, c.i, N(op));
    hide Top, X, Y, N, KK, NNN, Load, SpritePixels, Inked;
    forall px, py ensures (px, py) in SpritePixels(x, y, rows) <==> px < 64 && py < 32 && Inked(x, y, rows, px, py) {
      SpriteInked(x, y, rows, px, py);
    }
    var sprite := SpritePixels(x, y, rows);
    if c.lit * sprite != {} {
      var p :| p in c.lit * sprite;
      assert (p.0, p.1) in c.lit && (p.0, p.1) in sprite;
    } else {
      forall px, py | (px, py) in c.lit ensures (px, py) !in sprite {
        assert (px, py) in sprite ==> (px, py) in c.lit * sprite;
      }
    }
  }

  /** What row `j` of a sprite lights on a blank screen spells the row. */
  lemma {:induction false} RowRecovered(x: int, y: int, rows: seq<byte>, j: nat)
    requires j < |rows| && x % 64 + 8 <= 64 && y % 32 + j < 32
    ensures
      var s, a, b := SpritePixels(x, y, rows), x % 64, y % 32 + j;
      rows[j] == Worth([(a + 7, b) in s, (a + 6, b) in s, (a + 5, b) in s, (a + 4, b) in s, (a + 3, b) in s, (a + 2, b) in s, (a + 1, b) in s, (a, b) in s])
  {
    hide Place, SpritePixels;
    ByteWorth(rows[j]);
    ColumnInked(x, y, rows, j, 0);
    ColumnInked(x, y, rows, j, 1);
    ColumnInked(x, y, rows, j, 2);
    ColumnInked(x, y, rows, j, 3);
    ColumnInked(x, y, rows, j, 4);
    ColumnInked(x, y, rows, j, 5);
    ColumnInked(x, y, rows, j, 6);
    ColumnInked(x, y, rows, j, 7);
  }

  lemma {:induction false} ColumnInked(x: int, y: int, rows: seq<byte>, j: nat, i: nat)
    requires j < |rows| && x % 64 + 8 <= 64 && y % 32 + j < 32 && i < 8
    ensures (x % 64 + i, y % 32 + j) in SpritePixels(x, y, rows) <==> Place(rows[j], 7 - i)
  {
    SpriteInked(x, y, rows, x % 64 + i, y % 32 + j);
    hide Place, SpritePixels;
  }
}
