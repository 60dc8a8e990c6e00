/** The round trip the other way: what the assembler accepts is disassembled to the
    same statement again. */
module Converse {
  import opened Chip8
  import opened Text
  import opened Asm
  import opened Disas
  import opened Encoding
  import S = Statements

  /** No labels: every address is printed as a number. */
  function Bare(): (r: seq<bool>)
    ensures |r| == 0x1000 && forall a :: 0 <= a < 0x1000 ==> !r[a]
  {
    seq(0x1000, _ => false)
  }

  /** The same words, or, in the last place, words of the same value. */
  ghost predicate SameWords(ws: seq<string>, ps: seq<string>, symbols: Symbols)
  {
    && |ws| == |ps| && ws != []
    && (forall k :: 0 <= k < |ws| - 1 ==> ws[k] == ps[k])
    && (ws[|ws| - 1] == ps[|ps| - 1]
        || (Value(ws[|ws| - 1], symbols, true).Ok? && Value(ps[|ps| - 1], symbols, true) == Value(ws[|ws| - 1], symbols, true)))
  }

  /** `op` is printed as the statement `ws`. */
  ghost predicate Back(ws: seq<string>, op: word, symbols: Symbols)
  {
    Statement(op, Bare()).Some? && SameWords(ws, UpperAll(Statement(op, Bare()).value), symbols)
  }

  /** SHR Vx and SHL Vx stand for the form with V0. */
  function Whole(ws: seq<string>): seq<string>
  {
    if |ws| == 2 && ws[0] in {"SHR", "SHL"} then ws + ["V0"] else ws
  }

  // --------------------------------------------------------------- fields

  lemma RegisterWord(w: string)
    requires Register(w).Ok?
    ensures w == V(Register(w).value)
  {
    var d := DigitValue(w[1]);
    assert w[1] == HexDigit(d);
  }

  lemma ByteFields(base: word, x: nibble, k: byte)
    requires base in {0x3000, 0x4000, 0x6000, 0x7000, 0xC000}
    ensures var op := Encode(base, x, k); Top(op) == base / 0x1000 && X(op) == x && KK(op) == k
  {
    var group: int, xi: int := base / 0x1000, x;
    var op := Encode(base, x, k);
    assert op == 0x1000 * group + 0x100 * xi + k;
    assert op / 0x100 == 0x10 * group + xi;
  }

  lemma PairFields(base: word, x: nibble, y: nibble)
    requires base in {0x5000, 0x9000} || 0x8000 <= base < 0x8010
    ensures
      var yi: int := y;
      var op := Encode(base, x, 0x10 * yi);
      Top(op) == base / 0x1000 && X(op) == x && Y(op) == y && N(op) == base % 0x10
  {
    var group: int, low: int, xi: int, yi: int := base / 0x1000, base % 0x10, x, y;
    var op := Encode(base, x, 0x10 * yi);
    assert op == 0x1000 * group + 0x100 * xi + 0x10 * yi + low;
    assert op / 0x100 == 0x10 * group + xi;
    assert op / 0x10 == 0x100 * group + 0x10 * xi + yi;
  }

  lemma DrawFields(x: nibble, y: nibble, z: nibble)
    ensures
      var yi: int := y;
      var op := Encode(0xD000, x, 0x10 * yi + z);
      Top(op) == 0xD && X(op) == x && Y(op) == y && N(op) == z
  {
    var xi: int, yi: int := x, y;
    var op := Encode(0xD000, x, 0x10 * yi + z);
    assert op == 0xD000 + 0x100 * xi + 0x10 * yi + z;
    assert op / 0x100 == 0xD0 + xi;
    assert op / 0x10 == 0xD00 + 0x10 * xi + yi;
  }

  /** A printed number has its value. */
  lemma {:induction false} LiteralValue(n: nibble, b: byte, a: address, symbols: Symbols)
    ensures Upper(Literal([HexDigit(n)])) == Capital([HexDigit(n)]) && Value(Capital([HexDigit(n)]), symbols, true) == Ok(n)
    ensures Upper(Literal(Hex2(b))) == Capital(Hex2(b)) && Value(Capital(Hex2(b)), symbols, true) == Ok(b)
    ensures Upper(Literal(Hex3(a))) == Capital(Hex3(a)) && Value(Capital(Hex3(a)), symbols, true) == Ok(a)
  {
    hide HexDigit, HexText, Number, Upper;
    HexTexts(n, b, a, 0);
    UpperOperand(0, [HexDigit(n)], 0);
    UpperOperand(0, Hex2(b), 0);
    UpperOperand(0, Hex3(a), 0);
    NumberBack(n, b, a, symbols, true);
  }

  lemma {:induction false} UpperRegister(x: nibble)
    ensures Upper(V(x)) == V(x)
  {
    UpperWord(x);
    UpperSame(V(x));
    hide Upper, V;
  }

  lemma RangedValue(w: string, max: nat, symbols: Symbols)
    requires Ranged(w, max, symbols, true).Ok?
    ensures Value(w, symbols, true) == Ok(Ranged(w, max, symbols, true).value)
  {
    hide Value;
  }

  // ---------------------------------------------------------- the statements

  /** A mnemonic with a register and a byte. */
  lemma {:induction false} ByteBack(m: string, base: word, a: string, b: string, symbols: Symbols)
    requires (m, base) in {("SE", 0x3000), ("SNE", 0x4000), ("LD", 0x6000), ("ADD", 0x7000), ("RND", 0xC000)}
    requires Register(a).Ok? && Ranged(b, 0xFF, symbols, true).Ok?
    ensures Back([m, a, b], Encode(base, Register(a).value, Ranged(b, 0xFF, symbols, true).value), symbols)
  {
    hide Top, X, Y, N, KK, NNN, Encode, Ranged, Register, V, Hex2, Literal, Capital, Upper, UpperAll, Value;
    var x, k := Register(a).value, Ranged(b, 0xFF, symbols, true).value;
    var op := Encode(base, x, k);
    ByteFields(base, x, k);
    assert 0x3000 / 0x1000 == 3 && 0x4000 / 0x1000 == 4 && 0x6000 / 0x1000 == 6 && 0x7000 / 0x1000 == 7 && 0xC000 / 0x1000 == 0xC;
    NotSystem(op);
    RegisterWord(a);
    RangedValue(b, 0xFF, symbols);
    LiteralValue(0, k, 0, symbols);
    UpperRegister(x);
    UpperMnemonic(m);
    Upper3(m, V(x), Literal(Hex2(k)));
    assert Statement(op, Bare()) == Some([m, V(x), Literal(Hex2(k))]);
  }

  /** A mnemonic with two registers. */
  lemma {:induction false} PairBack(m: string, base: word, a: string, b: string, symbols: Symbols)
    requires (m, base) in {("SE", 0x5000), ("SNE", 0x9000), ("LD", 0x8000), ("OR", 0x8001), ("AND", 0x8002), ("XOR", 0x8003), ("ADD", 0x8004),
      ("SUB", 0x8005), ("SHR", 0x8006), ("SUBN", 0x8007), ("SHL", 0x800E)}
    requires Register(a).Ok? && Register(b).Ok?
    ensures
      var y: int := Register(b).value;
      Back([m, a, b], Encode(base, Register(a).value, 0x10 * y), symbols)
  {
    hide Top, X, Y, N, KK, NNN, Encode, Register, V, Upper, UpperAll, Value;
    var x, y := Register(a).value, Register(b).value;
    var yi: int := y;
    var op := Encode(base, x, 0x10 * yi);
    PairFields(base, x, y);
    BaseParts(base);
    NotSystem(op);
    RegisterWord(a);
    RegisterWord(b);
    UpperRegister(x);
    UpperRegister(y);
    UpperPair(m);
    Upper3(m, V(x), V(y));
    assert Statement(op, Bare()) == Some([m, V(x), V(y)]);
  }

  lemma BaseParts(base: word)
    ensures base == 0x5000 ==> base / 0x1000 == 5 && base % 0x10 == 0
    ensures base == 0x9000 ==> base / 0x1000 == 9 && base % 0x10 == 0
    ensures 0x8000 <= base < 0x8010 ==> base / 0x1000 == 8 && base % 0x10 == base - 0x8000
  {}

  lemma UpperPair(m: string)
    requires m in {"SE", "SNE", "LD", "OR", "AND", "XOR", "ADD", "SUB", "SHR", "SUBN", "SHL"}
    ensures Upper(m) == m
  {
    UpperSame(m);
  }

  /** JP, CALL and LD I, and JP V0. */
  lemma {:induction false} AddressBack(ws: seq<string>, base: word, symbols: Symbols)
    requires |ws| > 1 && (ws[..|ws| - 1], base) in {(["JP"], 0x1000), (["CALL"], 0x2000), (["LD", "I"], 0xA000), (["JP", "V0"], 0xB000)}
    requires Ranged(ws[|ws| - 1], 0xFFF, symbols, true).Ok?
    ensures Back(ws, base + Ranged(ws[|ws| - 1], 0xFFF, symbols, true).value, symbols)
  {
    hide Top, X, Y, N, KK, NNN, Ranged, V, Hex3, Literal, Capital, Upper, UpperAll, Value;
    var front, w := ws[..|ws| - 1], ws[|ws| - 1];
    var z := Ranged(w, 0xFFF, symbols, true).value;
    var op := base + z;
    assert ws == front + [w];
    S.AddressKind(base, z);
    assert 0x1000 / 0x1000 == 1 && 0x2000 / 0x1000 == 2 && 0xA000 / 0x1000 == 0xA && 0xB000 / 0x1000 == 0xB;
    NotSystem(op);
    RangedValue(w, 0xFFF, symbols);
    LiteralValue(0, 0, z, symbols);
    UpperMnemonic(front[0]);
    if |front| == 2 {
      UpperMnemonic(front[1]);
      Upper3(front[0], front[1], Literal(Hex3(z)));
      assert Statement(op, Bare()) == Some([front[0], front[1], Literal(Hex3(z))]);
    } else {
      Upper2(front[0], Literal(Hex3(z)));
      assert Statement(op, Bare()) == Some([front[0], Literal(Hex3(z))]);
    }
  }

  lemma {:induction false} DrawBack(a: string, b: string, c: string, symbols: Symbols)
    requires Register(a).Ok? && Register(b).Ok? && Ranged(c, 0xF, symbols, true).Ok?
    ensures
      var y: int := Register(b).value;
      Back(["DRW", a, b, c], Encode(0xD000, Register(a).value, 0x10 * y + Ranged(c, 0xF, symbols, true).value), symbols)
  {
    hide Top, X, Y, N, KK, NNN, Encode, Ranged, Register, V, HexDigit, Literal, Capital, Upper, UpperAll, Value;
    var x, y, z := Register(a).value, Register(b).value, Ranged(c, 0xF, symbols, true).value;
    var yi: int := y;
    var op := Encode(0xD000, x, 0x10 * yi + z);
    DrawFields(x, y, z);
    NotSystem(op);
    RegisterWord(a);
    RegisterWord(b);
    RangedValue(c, 0xF, symbols);
    LiteralValue(z, 0, 0, symbols);
    UpperRegister(x);
    UpperRegister(y);
    UpperMnemonic("DRW");
    Upper4("DRW", V(x), V(y), Literal([HexDigit(z)]));
    assert Statement(op, Bare()) == Some(["DRW", V(x), V(y), Literal([HexDigit(z)])]);
  }

  /** SKP and SKNP. */
  lemma {:induction false} KeyBack(m: string, base: word, a: string, symbols: Symbols)
    requires (m, base) in {("SKP", 0xE09E), ("SKNP", 0xE0A1)} && Register(a).Ok?
    ensures Back([m, a], Encode(base, Register(a).value, 0), symbols)
  {
    hide Top, X, Y, N, KK, NNN, Encode, Register, V, Upper, UpperAll, Value;
    var x := Register(a).value;
    var op := Encode(base, x, 0);
    S.EncodedBare(base, x);
    assert 0xE09E / 0x1000 == 0xE && 0xE0A1 / 0x1000 == 0xE && 0xE09E % 0x100 == 0x9E && 0xE0A1 % 0x100 == 0xA1;
    NotSystem(op);
    RegisterWord(a);
    UpperRegister(x);
    UpperMnemonic(m);
    Upper2(m, V(x));
    assert Statement(op, Bare()) == Some([m, V(x)]);
  }

  /** The Fxkk statements, by their other operands. */
  function MiscBase(m: string, a: string, b: string): Option<word>
  {
    if m == "ADD" && a == "I" then Some(0xF01E)
    else if m != "LD" || a == "I" then None
    else if a == "DT" then Some(0xF015) else if a == "ST" then Some(0xF018) else if a == "F" then Some(0xF029)
    else if a == "B" then Some(0xF033) else if a == "[I]" then Some(0xF055)
    else if b == "DT" then Some(0xF007) else if b == "K" then Some(0xF00A) else if b == "[I]" then Some(0xF065) else None
  }

  predicate Front(a: string) { a in {"I", "DT", "ST", "F", "B", "[I]"} }

  lemma {:induction false} MiscBack(m: string, a: string, b: string, symbols: Symbols)
    requires MiscBase(m, a, b).Some? && (if Front(a) then Register(b).Ok? else Register(a).Ok?)
    ensures Back([m, a, b], Encode(MiscBase(m, a, b).value, Register(if Front(a) then b else a).value, 0), symbols)
  {
    hide Top, X, Y, N, KK, NNN, Encode, Register, V, Upper, UpperAll, Value;
    var base, w := MiscBase(m, a, b).value, if Front(a) then b else a;
    var x := Register(w).value;
    var op := Encode(base, x, 0);
    S.EncodedBare(base, x);
    assert base / 0x1000 == 0xF && base % 0x100 == base - 0xF000;
    NotSystem(op);
    RegisterWord(w);
    MiscStatementIs(op, m, a, b);
    MiscUpper(op);
    UpperAllSame(MiscStatement(op).value) by { hide AllUpper; }
    assert Statement(op, Bare()) == MiscStatement(op) == Some([m, a, b]);
  }

  lemma {:induction false} MiscStatementIs(op: word, m: string, a: string, b: string)
    requires MiscBase(m, a, b).Some? && KK(op) == MiscBase(m, a, b).value - 0xF000
    requires (if Front(a) then b else a) == V(X(op))
    ensures MiscStatement(op) == Some([m, a, b])
  {
    hide X, KK, V;
  }

  // ------------------------------------------------------------- the theorem

  /** Every accepted statement comes back from its opcode, its operand as a number,
      and the left-out register of SHR and SHL as V0. */
  lemma {:induction false} DisassembledBack(ws: seq<string>, symbols: Symbols)
    requires ws != [] && Instruction(ws, symbols, true).Ok?
    ensures ValidOpcode(Instruction(ws, symbols, true).value)
    ensures Back(Whole(ws), Instruction(ws, symbols, true).value, symbols)
  {
    hide Back, ValidOpcode, Jump, CallTo, Skip, LoadTo, Add, Logic, Shift, Random, Draw, SkipKey, Asm.Bare, Encode, Ranged, Register;
    match ws[0] {
    case "CLS" => OneBack(ws, symbols);
    case "RET" => OneBack(ws, symbols);
    case "JP" => JumpBack(ws, symbols);
    case "CALL" => CallBack(ws, symbols);
    case "SE" => SkipBack(ws, true, symbols);
    case "SNE" => SkipBack(ws, false, symbols);
    case "LD" => LoadBack(ws, symbols);
    case "ADD" => AddBack(ws, symbols);
    case "OR" => LogicBack(ws, 1, symbols);
    case "AND" => LogicBack(ws, 2, symbols);
    case "XOR" => LogicBack(ws, 3, symbols);
    case "SUB" => LogicBack(ws, 5, symbols);
    case "SUBN" => LogicBack(ws, 7, symbols);
    case "SHR" => ShiftBack(ws, 6, symbols);
    case "SHL" => ShiftBack(ws, 0xE, symbols);
    case "RND" => RandomBack(ws, symbols);
    case "DRW" => DrawsBack(ws, symbols);
    case "SKP" => KeysBack(ws, 0xE09E, symbols);
    case "SKNP" => KeysBack(ws, 0xE0A1, symbols);
    }
    BackValid(Whole(ws), Instruction(ws, symbols, true).value, symbols);
  }

  lemma {:induction false} BackValid(ws: seq<string>, op: word, symbols: Symbols)
    requires Back(ws, op, symbols)
    ensures ValidOpcode(op)
  {
    hide ValidOpcode, Statement, Encodes;
    StatementEncodes(op, Bare(), map[], true);
  }

  lemma {:induction false} OneBack(ws: seq<string>, symbols: Symbols)
    requires ws != [] && ws[0] in {"CLS", "RET"} && Instruction(ws, symbols, true).Ok?
    ensures Back(Whole(ws), Instruction(ws, symbols, true).value, symbols)
  {
    UpperMnemonic(ws[0]);
    assert UpperAll([ws[0]]) == [Upper(ws[0])];
    assert ws == [ws[0]];
    hide Upper, Top;
  }

  lemma {:induction false} JumpBack(ws: seq<string>, symbols: Symbols)
    requires ws != [] && ws[0] == "JP" && Jump(ws, symbols, true).Ok?
    ensures Back(Whole(ws), Jump(ws, symbols, true).value, symbols)
  {
    hide Back, Ranged;
    if |ws| == 2 {
      assert ws[..1] == ["JP"];
      AddressBack(ws, 0x1000, symbols);
    } else {
      assert ws[..2] == ["JP", "V0"];
      AddressBack(ws, 0xB000, symbols);
    }
  }

  lemma {:induction false} CallBack(ws: seq<string>, symbols: Symbols)
    requires ws != [] && ws[0] == "CALL" && CallTo(ws, symbols, true).Ok?
    ensures Back(Whole(ws), CallTo(ws, symbols, true).value, symbols)
  {
    hide Back, Ranged;
    assert ws[..1] == ["CALL"];
    AddressBack(ws, 0x2000, symbols);
  }

  lemma {:induction false} SkipBack(ws: seq<string>, equal: bool, symbols: Symbols)
    requires ws != [] && ws[0] == (if equal then "SE" else "SNE") && Skip(ws, equal, symbols, true).Ok?
    ensures Back(Whole(ws), Skip(ws, equal, symbols, true).value, symbols)
  {
    hide Back, Ranged, Register, Encode, LooksLikeRegister;
    assert ws == [ws[0], ws[1], ws[2]];
    if LooksLikeRegister(ws[2]) {
      PairBack(ws[0], if equal then 0x5000 else 0x9000, ws[1], ws[2], symbols);
    } else {
      ByteBack(ws[0], if equal then 0x3000 else 0x4000, ws[1], ws[2], symbols);
    }
  }

  lemma {:induction false} LogicBack(ws: seq<string>, low: nibble, symbols: Symbols)
    requires ws != [] && (ws[0], low) in {("OR", 1), ("AND", 2), ("XOR", 3), ("SUB", 5), ("SUBN", 7)} && Logic(ws, low).Ok?
    ensures Back(Whole(ws), Logic(ws, low).value, symbols)
  {
    hide Back, Register, Encode;
    assert ws == [ws[0], ws[1], ws[2]];
    PairBack(ws[0], 0x8000 + low, ws[1], ws[2], symbols);
  }

  lemma {:induction false} ShiftBack(ws: seq<string>, low: nibble, symbols: Symbols)
    requires ws != [] && (ws[0], low) in {("SHR", 6), ("SHL", 0xE)} && Shift(ws, low).Ok?
    ensures Back(Whole(ws), Shift(ws, low).value, symbols)
  {
    hide Back, Register, Encode;
    ZeroWord();
    if |ws| == 3 {
      assert ws == [ws[0], ws[1], ws[2]];
      PairBack(ws[0], 0x8000 + low, ws[1], ws[2], symbols);
    } else {
      assert Whole(ws) == [ws[0], ws[1], "V0"];
      PairBack(ws[0], 0x8000 + low, ws[1], "V0", symbols);
    }
  }

  lemma ZeroWord()
    ensures Register("V0") == Ok(0)
  {}

  lemma {:induction false} RandomBack(ws: seq<string>, symbols: Symbols)
    requires ws != [] && ws[0] == "RND" && Random(ws, symbols, true).Ok?
    ensures Back(Whole(ws), Random(ws, symbols, true).value, symbols)
  {
    hide Back, Register, Encode, Ranged;
    assert ws == [ws[0], ws[1], ws[2]];
    ByteBack("RND", 0xC000, ws[1], ws[2], symbols);
  }

  lemma {:induction false} DrawsBack(ws: seq<string>, symbols: Symbols)
    requires ws != [] && ws[0] == "DRW" && Draw(ws, symbols, true).Ok?
    ensures Back(Whole(ws), Draw(ws, symbols, true).value, symbols)
  {
    hide Back, Register, Encode, Ranged;
    assert ws == [ws[0], ws[1], ws[2], ws[3]];
    DrawBack(ws[1], ws[2], ws[3], symbols);
  }

  lemma {:induction false} KeysBack(ws: seq<string>, base: word, symbols: Symbols)
    requires ws != [] && (ws[0], base) in {("SKP", 0xE09E), ("SKNP", 0xE0A1)} && SkipKey(ws, base).Ok?
    ensures Back(Whole(ws), SkipKey(ws, base).value, symbols)
  {
    hide Back, Register, Encode;
    assert ws == [ws[0], ws[1]];
    KeyBack(ws[0], base, ws[1], symbols);
  }

  lemma {:induction false} AddBack(ws: seq<string>, symbols: Symbols)
    requires ws != [] && ws[0] == "ADD" && Add(ws, symbols, true).Ok?
    ensures Back(Whole(ws), Add(ws, symbols, true).value, symbols)
  {
    hide Back, Register, Encode, Ranged, LooksLikeRegister;
    assert ws == [ws[0], ws[1], ws[2]];
    if ws[1] == "I" { MiscBack("ADD", "I", ws[2], symbols); }
    else if LooksLikeRegister(ws[2]) { PairBack("ADD", 0x8004, ws[1], ws[2], symbols); }
    else { ByteBack("ADD", 0x7000, ws[1], ws[2], symbols); }
  }

  lemma {:induction false} LoadBack(ws: seq<string>, symbols: Symbols)
    requires ws != [] && ws[0] == "LD" && LoadTo(ws, symbols, true).Ok?
    ensures Back(Whole(ws), LoadTo(ws, symbols, true).value, symbols)
  {
    hide Back, Register, Encode, Ranged, LooksLikeRegister;
    assert ws == [ws[0], ws[1], ws[2]];
    if ws[1] == "I" {
      assert ws[..2] == ["LD", "I"];
      AddressBack(ws, 0xA000, symbols);
    } else if Front(ws[1]) || ws[2] in {"DT", "K", "[I]"} {
      MiscBack("LD", ws[1], ws[2], symbols);
    } else if LooksLikeRegister(ws[2]) {
      PairBack("LD", 0x8000, ws[1], ws[2], symbols);
    } else {
      ByteBack("LD", 0x6000, ws[1], ws[2], symbols);
    }
  }
}
