/** Whether the constants the analysis carries are those of the machine: statement
    by statement, with the ways in which they can go wrong, and along whole runs. */
module Constants {
  import opened Chip8
  import opened Bench
  import opened Tape
  import opened TailCall
  import opened Numbers
  import P = Peephole
  import O = Optimizer
  import L = Relocate
  import R = Rules
  import D = Disas
  import E = Reached
  import U = Supported
  import opened Statements
  import opened Analysis
  import Asm

  // --------------------------------------------------------- what is claimed

  /** The machine has the constants that `k` claims: registers and I where they are
      known, and I in the font where it is said to be there. Of an offset from a
      base nothing is claimed. */
  ghost predicate Agrees(k: Known, c: Core)
  {
    && k.Valid() && IAgrees(k.i, c.i)
    && forall r :: 0 <= r < 16 ==> RegAgrees(k.regs[r], c.regs[r])
  }

  predicate RegAgrees(v: Option<int>, b: byte) { v.Some? ==> v.value == b }

  predicate IAgrees(v: Option<int>, i: word)
  {
    && (v.Some? && v.value >= 0 ==> i == v.value % 0x10000)
    && (v == Some(EXTERNAL_I) ==> i < 80)
  }

  /** Less is claimed of the same machine. */
  lemma {:induction false} AgreesBelow(a: Known, b: Known, c: Core)
    requires Below(a, b) && Agrees(b, c)
    ensures Agrees(a, c)
  {
    assert a.Part(16) == a.i && b.Part(16) == b.i;
    forall r | 0 <= r < 16 ensures RegAgrees(a.regs[r], c.regs[r]) { assert a.Part(r) == None || a.Part(r) == b.Part(r); }
  }

  /** A join claims all that both claim. */
  lemma {:induction false} JoinGreatest(a: Known, b: Known, c: Known)
    requires Below(c, a) && Below(c, b)
    ensures Below(c, Join(a, b))
  {
    forall p | 0 <= p < 17 ensures c.Part(p) == None || c.Part(p) == Join(a, b).Part(p) { JoinPart17(a, b, p); }
    hide Join;
  }

  // ------------------------------------------------- statements and opcodes

  /** The statement is of the kind `op` is, and its operands are those of `op` as far
      as it has any. */
  predicate Speaks(s: Stmt, op: word)
  {
    match s
    case LdI(v) => Top(op) == 0xA && (v.Some? ==> v.value == NNN(op))
    case LdConst(x, v) => X(op) == x && (Top(op) == 6 || (Top(op) == 0xF && KK(op) in {0x07, 0x0A, 0x65})) && (v.Some? ==> Top(op) == 6 && v.value == KK(op))
    case LdReg(x, y) => Top(op) == 8 && N(op) == 0 && X(op) == x && Y(op) == y
    case LdF => Top(op) == 0xF && KK(op) == 0x29
    case StoreDigits => Top(op) == 0xF && KK(op) == 0x33
    case StoreRegs(_) => Top(op) == 0xF && KK(op) == 0x55
    case LoadRegs(_) => false
    case AddI(reg) => Top(op) == 0xF && KK(op) == 0x1E && (reg.Some? ==> reg.value == X(op))
    case AddConst(x, v) => Top(op) == 7 && X(op) == x && (v.Some? ==> v.value == KK(op))
    case AddReg(x, y) => Top(op) == 8 && N(op) == 4 && X(op) == x && Y(op) == y
    case Unknown(x) => X(op) == x && ((Top(op) == 8 && N(op) !in {0, 4}) || Top(op) == 0xC)
    case Sprite(_) => Top(op) == 0xD
    case Skip => Top(op) in {3, 4, 5, 9, 0xE}
    case Jump(_) => Top(op) == 1
    case JumpV0 => Top(op) == 0xB
    case CallTo(_) => Top(op) == 2
    case Ret => op == 0x00EE
    case Other => op == 0x00E0 || (Top(op) == 0xF && KK(op) in {0x15, 0x18})
  }

  /** The instructions that set VF beside their result. */
  predicate SetsFlag(op: word)
  {
    (Top(op) == 8 && N(op) in {4, 5, 6, 7, 0xE}) || Top(op) == 0xD
  }

  /** The claims a statement leaves standing though its instruction may break them:
      on VF, on the registers below Vx of LD Vx, [I], and on I in the font. */
  ghost predicate Missed(s: Stmt, op: word, k: Known, d: Core)
    requires k.Valid()
  {
    var m := Transfer(s, k);
    || (SetsFlag(op) && !RegAgrees(m.regs[0xF], d.regs[0xF]))
    || (P.LoadsMemory(op) && exists r :: 0 <= r < X(op) && !RegAgrees(k.regs[r], d.regs[r]))
    || (s.AddI? && k.i == Some(EXTERNAL_I) && !IAgrees(m.i, d.i))
  }

  /** What the analysis reads an accepted statement as speaks of what it assembles to,
      if its last operand is a label or a plain number, and not a label K or DT where
      the keyboard or the timer is meant. */
  lemma {:induction false} ClassifiedSpeaks(ws: seq<string>, symbols: Asm.Symbols)
    requires WellNamed(symbols) && ws != [] && Asm.Instruction(ws, symbols, true).Ok?
    requires (ws[|ws| - 1] in symbols || PlainNumber(ws[|ws| - 1])) && !Mistaken(ws, symbols)
    ensures Classify(ws[0], ws[1..], symbols).Some?
    ensures Speaks(Classify(ws[0], ws[1..], symbols).value, Asm.Instruction(ws, symbols, true).value)
  {
    hide Asm.Instruction, Speaks, Classify, PlainNumber, Asm.IsName;
    Classifies(ws, symbols) by { hide ReadRightly, UsesValue; }
    L.Mnemonics(ws, symbols);
    if ws[0] == "LD" { LoadSpeaks(ws, symbols); }
    else if ws[0] == "ADD" { AddSpeaks(ws, symbols); }
    else if ws[0] in {"CLS", "RET", "JP", "CALL", "DRW", "SE", "SNE", "SKP", "SKNP"} { OtherSpeaks(ws, symbols); }
    else { ResultSpeaks(ws, symbols); }
  }

  /** LD Vx, K or LD Vx, DT in a source with such a label. */
  predicate Mistaken(ws: seq<string>, symbols: Asm.Symbols)
  {
    |ws| == 3 && ws[0] == "LD" && ws[1] != "I" && ws[2] in {"K", "DT"} && ws[2] in symbols
  }

  /** Then the analysis takes the register for the label's address. */
  lemma {:induction false} LabelMistaken(x: string, symbols: Asm.Symbols)
    requires IsRegister(x) && "K" in symbols
    ensures Classify("LD", [x, "K"], symbols) == Some(LdConst(Digit(x[1]).value, Some(symbols["K"])))
    ensures Asm.Instruction(["LD", x, "K"], symbols, true).Ok?
    ensures !Speaks(LdConst(Digit(x[1]).value, Some(symbols["K"])), Asm.Instruction(["LD", x, "K"], symbols, true).value)
  {
    O.RegisterFront(x);
    EncodedBare(0xF00A, Asm.Register(x).value);
    assert 0xF00A / 0x1000 == 0xF;
    hide Asm.Encode, Top, X, KK, N, Y, NNN;
  }

  lemma {:induction false} OtherSpeaks(ws: seq<string>, symbols: Asm.Symbols)
    requires ws != [] && ws[0] in {"CLS", "RET", "JP", "CALL", "DRW", "SE", "SNE", "SKP", "SKNP"} && Asm.Instruction(ws, symbols, true).Ok?
    ensures Classify(ws[0], ws[1..], symbols).Some?
    ensures Speaks(Classify(ws[0], ws[1..], symbols).value, Asm.Instruction(ws, symbols, true).value)
  {
    hide Top, N, KK, X, Y, NNN, Resolve, Asm.Instruction, LoadTo, Add, Numbered, StartsV;
    if ws[0] in {"CLS", "RET"} { R.BareShaped(ws, symbols); }
    else if ws[0] in {"JP", "CALL"} { R.JumpShaped(ws, symbols); JumpWords(ws, symbols); }
    else if ws[0] == "DRW" { L.DrawOp(ws, symbols); DrawWords(ws, symbols); }
    else { R.SkipShaped(ws, symbols); }
  }

  lemma DrawWords(ws: seq<string>, symbols: Asm.Symbols)
    requires ws != [] && ws[0] == "DRW" && Asm.Instruction(ws, symbols, true).Ok?
    ensures |ws| == 4
  {
    hide Asm.Ranged, Asm.Register;
  }

  lemma {:induction false} JumpWords(ws: seq<string>, symbols: Asm.Symbols)
    requires ws != [] && ws[0] in {"JP", "CALL"} && Asm.Instruction(ws, symbols, true).Ok?
    ensures |ws| == 2 || (|ws| == 3 && ws[0] == "JP")
    ensures ws[0] == "JP" ==> Top(Asm.Instruction(ws, symbols, true).value) == if |ws| == 2 then 1 else 0xB
  {
    hide Asm.Value, Top, NNN;
    var z := Asm.Ranged(ws[|ws| - 1], 0xFFF, symbols, true).value;
    AddressKind(if |ws| == 3 then 0xB000 else if ws[0] == "JP" then 0x1000 else 0x2000, z);
    assert 0x1000 / 0x1000 == 1 && 0xB000 / 0x1000 == 0xB;
  }

  lemma {:induction false} ResultSpeaks(ws: seq<string>, symbols: Asm.Symbols)
    requires ws != [] && ws[0] in {"RND", "OR", "AND", "XOR", "SUB", "SUBN", "SHR", "SHL"} && Asm.Instruction(ws, symbols, true).Ok?
    ensures Classify(ws[0], ws[1..], symbols).Some?
    ensures Speaks(Classify(ws[0], ws[1..], symbols).value, Asm.Instruction(ws, symbols, true).value)
  {
    hide Top, N, KK, X, Y, NNN, Resolve, Asm.Value, Asm.Register, Asm.Encode, Numbered, StartsV;
    ResultRead(ws, symbols);
    R.ArithShaped(ws, symbols);
    ResultX(ws, symbols);
  }

  lemma {:induction false} ResultX(ws: seq<string>, symbols: Asm.Symbols)
    requires ws != [] && ws[0] in {"RND", "OR", "AND", "XOR", "SUB", "SUBN", "SHR", "SHL"} && Asm.Instruction(ws, symbols, true).Ok?
    ensures |ws| > 1 && Numbered(ws[1]) == Some(X(Asm.Instruction(ws, symbols, true).value))
  {
    hide Asm.Register, Asm.Encode, Asm.Ranged, Numbered, StartsV, X;
    RegisterRead(ws[1]);
    var x := Asm.Register(ws[1]).value;
    if ws[0] == "RND" {
      ByteX(0xC000, x, Asm.Ranged(ws[2], 0xFF, symbols, true).value);
    } else {
      var low: nibble := match ws[0] case "OR" => 1 case "AND" => 2 case "XOR" => 3 case "SUB" => 5 case "SHR" => 6 case "SUBN" => 7 case _ => 0xE;
      var y: nibble := if |ws| == 3 then Asm.Register(ws[2]).value else 0;
      PairX(0x8000 + low, x, y);
      assert Asm.Instruction(ws, symbols, true).value == Asm.Encode(0x8000 + low, x, 0x10 * y);
    }
  }

  lemma ByteX(base: word, x: nibble, k: byte)
    requires base % 0x1000 == 0 && base <= 0xF000
    ensures X(Asm.Encode(base, x, k)) == x
  {}

  lemma PairX(base: word, x: nibble, y: nibble)
    requires 0x8000 <= base < 0x8010
    ensures
      var yi: int := y;
      var op := Asm.Encode(base, x, 0x10 * yi);
      X(op) == x && Y(op) == y
  {
    var low: int, xi: int, yi: int := base - 0x8000, x, y;
    var op := Asm.Encode(base, x, 0x10 * yi);
    assert op == 0x8000 + 0x100 * xi + 0x10 * yi + low;
    assert op / 0x100 == 0x80 + xi;
    assert op / 0x10 == 0x800 + 0x10 * xi + yi;
  }

  lemma {:induction false} AddSpeaks(ws: seq<string>, symbols: Asm.Symbols)
    requires WellNamed(symbols) && ws != [] && ws[0] == "ADD" && Asm.Instruction(ws, symbols, true).Ok?
    requires ws[|ws| - 1] in symbols || PlainNumber(ws[|ws| - 1])
    ensures Classify(ws[0], ws[1..], symbols).Some?
    ensures Speaks(Classify(ws[0], ws[1..], symbols).value, Asm.Instruction(ws, symbols, true).value)
  {
    hide Top, N, KK, X, Y, NNN, Asm.Value, Asm.Register, Asm.Encode, Numbered, StartsV, PlainNumber, Asm.LooksLikeRegister, Asm.IsName, Resolve;
    ThreeWords(ws, symbols);
    var a, b := ws[1], ws[2];
    assert ws[1..] == [a, b];
    LooksV(b);
    if a == "I" {
      RegisterRead(b);
      EncodedBare(0xF01E, Asm.Register(b).value);
      assert 0xF01E / 0x1000 == 0xF && 0xF01E % 0x100 == 0x1E;
    } else {
      RegisterRead(a);
      var x := Asm.Register(a).value;
      if Asm.LooksLikeRegister(b) {
        RegisterRead(b);
        R.FourKind(0x8004, x, Asm.Register(b).value);
        PairX(0x8004, x, Asm.Register(b).value);
      } else {
        O.ByteKind(0x7000, x, Asm.Ranged(b, 0xFF, symbols, true).value);
        R.RangedIs(b, 0xFF, symbols);
        AlikeExact(b, symbols);
      }
    }
  }

  lemma {:induction false} LoadSpeaks(ws: seq<string>, symbols: Asm.Symbols)
    requires WellNamed(symbols) && ws != [] && ws[0] == "LD" && Asm.Instruction(ws, symbols, true).Ok?
    requires (ws[|ws| - 1] in symbols || PlainNumber(ws[|ws| - 1])) && !Mistaken(ws, symbols)
    ensures Classify(ws[0], ws[1..], symbols).Some?
    ensures Speaks(Classify(ws[0], ws[1..], symbols).value, Asm.Instruction(ws, symbols, true).value)
  {
    hide Asm.Instruction, PlainNumber, Asm.IsName, LoadTo, Speaks;
    L.LoadWords(ws, symbols);
    assert ws[1..] == [ws[1], ws[2]];
    O.LoadOp(ws, symbols);
    if ws[1] in {"I", "DT", "ST", "F", "B", "[I]"} { SpecialSpeaks(ws, symbols); } else { PlainSpeaks(ws, symbols); }
  }

  lemma {:induction false} SpecialSpeaks(ws: seq<string>, symbols: Asm.Symbols)
    requires WellNamed(symbols) && O.LoadText(ws) && ws[1] in {"I", "DT", "ST", "F", "B", "[I]"} && Asm.LoadTo(ws, symbols, true).Ok?
    requires ws[2] in symbols || PlainNumber(ws[2])
    ensures LoadTo(ws[1], ws[2], symbols).Some?
    ensures Speaks(LoadTo(ws[1], ws[2], symbols).value, Asm.LoadTo(ws, symbols, true).value)
  {
    hide Top, N, KK, X, Y, NNN, Asm.Value, Asm.Register, Asm.Encode, Numbered, StartsV, PlainNumber, IsRegister, Asm.IsName, Resolve;
    var a, b := ws[1], ws[2];
    if a == "I" {
      AddressKind(0xA000, Asm.Ranged(b, 0xFFF, symbols, true).value);
      assert 0xA000 / 0x1000 == 0xA;
      R.RangedIs(b, 0xFFF, symbols);
      AlikeExact(b, symbols);
    } else {
      RegisterRead(b);
      var x := Asm.Register(b).value;
      EncodedBare(if a == "DT" then 0xF015 else if a == "ST" then 0xF018 else if a == "F" then 0xF029 else if a == "B" then 0xF033 else 0xF055, x);
      assert 0xF015 / 0x1000 == 0xF018 / 0x1000 == 0xF029 / 0x1000 == 0xF033 / 0x1000 == 0xF055 / 0x1000 == 0xF;
      assert 0xF015 % 0x100 == 0x15 && 0xF018 % 0x100 == 0x18 && 0xF029 % 0x100 == 0x29 && 0xF033 % 0x100 == 0x33 && 0xF055 % 0x100 == 0x55;
      NoRegister(a);
    }
  }

  lemma {:induction false} PlainSpeaks(ws: seq<string>, symbols: Asm.Symbols)
    requires WellNamed(symbols) && O.LoadText(ws) && ws[1] !in {"I", "DT", "ST", "F", "B", "[I]"} && Asm.LoadTo(ws, symbols, true).Ok?
    requires (ws[2] in symbols || PlainNumber(ws[2])) && !Mistaken(ws, symbols)
    ensures LoadTo(ws[1], ws[2], symbols).Some?
    ensures Speaks(LoadTo(ws[1], ws[2], symbols).value, Asm.LoadTo(ws, symbols, true).value)
  {
    hide Top, N, KK, X, Y, NNN, Asm.Value, Asm.Register, Asm.Encode, Numbered, StartsV, PlainNumber, IsRegister, Asm.IsName, Asm.LooksLikeRegister, Resolve;
    var a, b := ws[1], ws[2];
    RegisterRead(a);
    RegisterDigit(a);
    var x := Asm.Register(a).value;
    LooksV(b);
    if b in {"DT", "K", "[I]"} {
      NoV(b);
      EncodedBare(if b == "DT" then 0xF007 else if b == "K" then 0xF00A else 0xF065, x);
      assert 0xF007 / 0x1000 == 0xF00A / 0x1000 == 0xF065 / 0x1000 == 0xF && 0xF007 % 0x100 == 7 && 0xF00A % 0x100 == 0xA && 0xF065 % 0x100 == 0x65;
      NoValue(b, symbols);
    } else if Asm.LooksLikeRegister(b) {
      RegisterRead(b);
      O.PairKind(x, Asm.Register(b).value);
    } else {
      O.ByteKind(0x6000, x, Asm.Ranged(b, 0xFF, symbols, true).value);
      R.RangedIs(b, 0xFF, symbols);
      AlikeExact(b, symbols);
    }
  }

  lemma {:induction false} NoValue(b: string, symbols: Asm.Symbols)
    requires WellNamed(symbols) && b in {"DT", "K", "[I]"} && (b in {"DT", "K"} ==> b !in symbols)
    ensures Resolve(b, symbols) == None
  {
    O.NotNumbers();
    assert !Asm.IsName("[I]");
    hide ParseNumber, Asm.IsName;
  }

  // ------------------------------------------------------ what a step changes

  /** The registers an instruction may change. */
  predicate Alters(op: word, r: int)
  {
    || (Top(op) in {6, 7, 8, 0xC} && r == X(op))
    || (Top(op) == 0xF && KK(op) in {0x07, 0x0A} && r == X(op))
    || (P.LoadsMemory(op) && r <= X(op))
    || (SetsFlag(op) && r == 0xF)
  }

  lemma SkipRegs(c: Core)
    ensures forall taken :: SkipIf(c, taken).regs == c.regs && SkipIf(c, taken).i == c.i
  {}

  /** A step is that of a straight instruction, or one that leaves registers and I
      alone. */
  lemma {:induction false} StepSplit(op: word, c: Core, inp: Input)
    requires ExecCore(op, c, inp).Some?
    ensures
      var d := ExecCore(op, c, inp).value;
      if op == 0x00E0 || Top(op) in {6, 7, 8, 0xA, 0xC, 0xD, 0xF}
      then ExecStraight(op, c, inp).Some? && d.regs == ExecStraight(op, c, inp).value.regs && d.i == ExecStraight(op, c, inp).value.i
      else d.regs == c.regs && d.i == c.i
  {
    NotSystem(op);
    hide Top, X, Y, N, KK, NNN, ExecStraight, SkipIf;
    SkipRegs(c);
    if ExecStraight(op, c, inp).Some? { SkipRegs(ExecStraight(op, c, inp).value); }
  }

  lemma {:induction false} StepKeeps(op: word, c: Core, inp: Input, r: int)
    requires ExecCore(op, c, inp).Some? && 0 <= r < 16 && !Alters(op, r)
    ensures ExecCore(op, c, inp).value.regs[r] == c.regs[r]
  {
    NotSystem(op);
    hide Top, X, Y, N, KK, NNN, Store, Load, Bits, SpritePixels, SkipIf, ExecCore;
    StepSplit(op, c, inp);
  }

  lemma {:induction false} StepI(op: word, c: Core, inp: Input)
    requires ExecCore(op, c, inp).Some?
    ensures
      ExecCore(op, c, inp).value.i ==
        if Top(op) == 0xA then NNN(op)
        else if Top(op) == 0xF && KK(op) == 0x1E then (c.i + c.regs[X(op)]) % 0x10000
        else if Top(op) == 0xF && KK(op) == 0x29 then c.regs[X(op)] % 0x10 * 5
        else c.i
  {
    NotSystem(op);
    hide Top, X, Y, N, KK, NNN, Store, Load, Bits, SpritePixels, SkipIf, ExecCore;
    StepSplit(op, c, inp);
  }

  /** The results that the analysis computes. */
  lemma {:induction false} StepResult(op: word, c: Core, inp: Input)
    requires ExecCore(op, c, inp).Some?
    ensures
      var d, x := ExecCore(op, c, inp).value, c.regs[X(op)];
      var v: int := x;
      && (Top(op) == 6 ==> d.regs[X(op)] == KK(op))
      && (Top(op) == 7 ==> d.regs[X(op)] == (v + KK(op)) % 0x100)
      && (Top(op) == 8 && N(op) == 0 ==> d.regs[X(op)] == c.regs[Y(op)])
      && (Top(op) == 8 && N(op) == 4 && X(op) != 0xF ==> d.regs[X(op)] == (v + c.regs[Y(op)]) % 0x100)
  {
    NotSystem(op);
    hide Top, X, Y, N, KK, NNN, Bits, SkipIf, ExecMisc, ExecDraw, ExecCore;
    StepSplit(op, c, inp);
  }

  // --------------------------------------------------------- one statement

  /** After a statement the claims hold exactly unless one of those was broken. */
  lemma {:induction false} TransferExact(s: Stmt, op: word, k: Known, c: Core, inp: Input)
    requires Agrees(k, c) && Speaks(s, op) && ExecCore(op, c, inp).Some?
    ensures Agrees(Transfer(s, k), ExecCore(op, c, inp).value) <==> !Missed(s, op, k, ExecCore(op, c, inp).value)
  {
    var d, m := ExecCore(op, c, inp).value, Transfer(s, k);
    hide ExecCore, Top, X, Y, N, KK, NNN;
    StepI(op, c, inp);
    Kinds(op);
    IClaim(s, op, k, c, d);
    forall r: nat | r < 16
      ensures RegAgrees(m.regs[r], d.regs[r]) || (SetsFlag(op) && r == 0xF) || (P.LoadsMemory(op) && r < X(op))
    {
      RegClaim(s, op, k, c, inp, r);
    }
    if P.LoadsMemory(op) { LoadClaim(s, op, k); }
    hide Transfer, Speaks;
  }

  lemma Kinds(op: word)
    ensures P.LoadsMemory(op) ==> !SetsFlag(op)
  {
    hide X, N;
  }

  lemma LoadClaim(s: Stmt, op: word, k: Known)
    requires k.Valid() && Speaks(s, op) && P.LoadsMemory(op)
    ensures forall r :: 0 <= r < X(op) ==> Transfer(s, k).regs[r] == k.regs[r]
  {
    hide X, N, Y, NNN;
  }

  /** The claim on I. */
  lemma {:induction false} IClaim(s: Stmt, op: word, k: Known, c: Core, d: Core)
    requires Agrees(k, c) && Speaks(s, op)
    requires d.i ==
      if Top(op) == 0xA then NNN(op)
      else if Top(op) == 0xF && KK(op) == 0x1E then (c.i + c.regs[X(op)]) % 0x10000
      else if Top(op) == 0xF && KK(op) == 0x29 then c.regs[X(op)] % 0x10 * 5
      else c.i
    ensures IAgrees(Transfer(s, k).i, d.i) || (s.AddI? && k.i == Some(EXTERNAL_I))
  {
    hide Top, X, Y, N, KK, NNN, P.LoadsMemory, IAgrees, Added;
    NotSystem(op);
    match s
    case LdI(v) => IKept(v, d.i);
    case LdF => InFont(d.i);
    case AddI(reg) =>
      if k.i != Some(EXTERNAL_I) {
        assert RegAgrees(k.regs[X(op)], c.regs[X(op)]);
        AddedAgrees(k.i, if reg.Some? then k.regs[X(op)] else None, c.i, c.regs[X(op)]);
      }
    case _ =>
  }

  lemma IKept(v: Option<int>, i: word)
    requires v.Some? ==> v.value == i
    ensures IAgrees(v, i)
  {}

  lemma InFont(i: word)
    requires i < 80
    ensures IAgrees(Some(EXTERNAL_I), i)
  {}

  lemma AddedAgrees(v: Option<int>, w: Option<int>, i: word, b: byte)
    requires IAgrees(v, i) && v != Some(EXTERNAL_I) && RegAgrees(w, b)
    ensures IAgrees(Added(v, w), (i + b) % 0x10000)
  {}

  /** The claim on a register. */
  lemma {:induction false} RegClaim(s: Stmt, op: word, k: Known, c: Core, inp: Input, r: nat)
    requires Agrees(k, c) && Speaks(s, op) && ExecCore(op, c, inp).Some? && r < 16
    ensures
      var m, d := Transfer(s, k), ExecCore(op, c, inp).value;
      RegAgrees(m.regs[r], d.regs[r]) || (SetsFlag(op) && r == 0xF) || (P.LoadsMemory(op) && r < X(op))
  {
    hide ExecCore, Top, X, Y, N, KK, NNN, IAgrees;
    StepResult(op, c, inp);
    if !Alters(op, r) {
      StepKeeps(op, c, inp, r);
      assert RegAgrees(k.regs[r], c.regs[r]);
      Unaltered(s, op, k, r);
    } else if !(SetsFlag(op) && r == 0xF) && !(P.LoadsMemory(op) && r < X(op)) {
      AlteredX(op, r);
      ResultClaim(s, op, k, c, ExecCore(op, c, inp).value);
    }
  }

  lemma AlteredX(op: word, r: nat)
    requires Alters(op, r) && !(SetsFlag(op) && r == 0xF) && !(P.LoadsMemory(op) && r < X(op))
    ensures r == X(op) && (SetsFlag(op) ==> X(op) != 0xF)
    ensures Top(op) in {6, 7, 8, 0xC} || (Top(op) == 0xF && KK(op) in {0x07, 0x0A, 0x65})
  {
    hide Top, X, Y, N, KK;
  }

  /** The claim on the register that holds the result. */
  lemma {:induction false} ResultClaim(s: Stmt, op: word, k: Known, c: Core, d: Core)
    requires Agrees(k, c) && Speaks(s, op) && (SetsFlag(op) ==> X(op) != 0xF)
    requires Top(op) in {6, 7, 8, 0xC} || (Top(op) == 0xF && KK(op) in {0x07, 0x0A, 0x65})
    requires
      var v: int := c.regs[X(op)];
      && (Top(op) == 6 ==> d.regs[X(op)] == KK(op))
      && (Top(op) == 7 ==> d.regs[X(op)] == (v + KK(op)) % 0x100)
      && (Top(op) == 8 && N(op) == 0 ==> d.regs[X(op)] == c.regs[Y(op)])
      && (Top(op) == 8 && N(op) == 4 && X(op) != 0xF ==> d.regs[X(op)] == (v + c.regs[Y(op)]) % 0x100)
    ensures RegAgrees(Transfer(s, k).regs[X(op)], d.regs[X(op)])
  {
    hide Top, X, Y, N, KK, NNN, IAgrees;
    NotSystem(op);
    assert RegAgrees(k.regs[X(op)], c.regs[X(op)]) && RegAgrees(k.regs[Y(op)], c.regs[Y(op)]);
  }

  lemma {:induction false} Unaltered(s: Stmt, op: word, k: Known, r: nat)
    requires k.Valid() && Speaks(s, op) && r < 16 && !Alters(op, r)
    ensures Transfer(s, k).regs[r] == k.regs[r]
  {
    NotSystem(op);
    hide Top, X, Y, N, KK, NNN;
  }

  // ------------------------------------------------------------- whole runs

  /** The statement leaves nothing standing that its instruction may break. */
  ghost predicate Careful(s: Stmt, op: word, k: Known)
    requires k.Valid()
  {
    && Speaks(s, op)
    && (SetsFlag(op) ==> Transfer(s, k).regs[0xF] == None)
    && (P.LoadsMemory(op) ==> forall r :: 0 <= r < X(op) ==> k.regs[r] == None)
    && (s.AddI? && k.i == Some(EXTERNAL_I) ==> s.reg.Some? && k.regs[s.reg.value] == Some(0))
  }

  lemma {:induction false} CarefulHolds(s: Stmt, op: word, k: Known, c: Core, inp: Input)
    requires Agrees(k, c) && Careful(s, op, k) && ExecCore(op, c, inp).Some?
    ensures Agrees(Transfer(s, k), ExecCore(op, c, inp).value)
  {
    var d := ExecCore(op, c, inp).value;
    hide ExecCore, Top, X, Y, N, KK, NNN;
    TransferExact(s, op, k, c, inp);
    if s.AddI? && k.i == Some(EXTERNAL_I) {
      assert RegAgrees(k.regs[s.reg.value], c.regs[s.reg.value]);
      StepI(op, c, inp);
      MiscKind(op);
    }
  }

  lemma MiscKind(op: word)
    ensures Top(op) == 0xF ==> Top(op) != 0xA && !(KK(op) == 0x1E && KK(op) == 0x29)
  {
    hide X;
  }

  /** Step `i` of the run is careful with what the table claims there. */
  ghost predicate CarefulAt(tape: nat -> Input, insns: map<int, Stmt>, inc: Incoming, c: Core, i: nat)
  {
    TapeRun(tape, Start(c), i).Some? &&
    var m := TapeRun(tape, Start(c), i).value;
    m.core.pc in insns && (Where(m) in inc && inc[Where(m)].Valid() ==> Careful(insns[m.core.pc], Fetch(m), inc[Where(m)]))
  }

  /** What the table claims of a context holds of every machine that comes there, on
      runs along the statements that are careful with it. */
  lemma {:induction false} ConstantsHold(tape: nat -> Input, insns: map<int, Stmt>, inc: Incoming, c: Core, n: nat)
    requires Insns(insns) && TableOk(insns, inc) && forall d :: d in inc ==> ClosedAt(insns, inc, d)
    requires c.pc == ENTRY && c.stack == [] && Follows(tape, insns, c, n)
    requires forall i :: 0 <= i < n ==> CarefulAt(tape, insns, inc, c, i)
    ensures
      var m := TapeRun(tape, Start(c), n).value;
      InMemory(Where(m)) ==> Where(m) in inc && Agrees(inc[Where(m)], m.core)
  {
    hide Transitions, Transfer, Listed, TapeStep, Below, ClosedAt, InMemory, Insns, TapeRun, ListedAt, Agrees, Careful, ContextOk;
    if n == 0 {
      EntryCovered(tape, insns, inc, c);
      EntryAgrees(inc[Context(ENTRY, [])], c);
    } else {
      FollowsLess(tape, insns, c, n);
      ConstantsHold(tape, insns, inc, c, n - 1);
      assert CarefulAt(tape, insns, inc, c, n - 1);
      var m := TapeRun(tape, Start(c), n - 1).value;
      ListedInside(insns, m);
      StepTransition(tape, insns, m);
      assert inc[Where(m)].Valid();
      ClaimMoves(tape, insns, inc, m);
    }
  }

  lemma {:induction false} EntryAgrees(k: Known, c: Core)
    requires Below(k, NothingKnown())
    ensures Agrees(k, c)
  {
    assert k.Part(16) == k.i;
    forall r | 0 <= r < 16 ensures k.regs[r] == None { assert k.Part(r) == k.regs[r]; }
  }

  lemma {:induction false} ClaimMoves(tape: nat -> Input, insns: map<int, Stmt>, inc: Incoming, m: Mach)
    requires Where(m) in inc && m.core.pc in insns && ClosedAt(insns, inc, Where(m)) && TapeStep(tape, m).Some?
    requires inc[Where(m)].Valid() && Careful(insns[m.core.pc], Fetch(m), inc[Where(m)]) && Agrees(inc[Where(m)], m.core)
    requires Where(TapeStep(tape, m).value) in Transitions(insns[m.core.pc], Where(m))
    ensures
      var t := TapeStep(tape, m).value;
      InMemory(Where(t)) ==> Where(t) in inc && Agrees(inc[Where(t)], t.core)
  {
    hide Transitions, Transfer, Below, Agrees, Careful, InMemory, OpAt, ExecCore;
    var t, s, k := TapeStep(tape, m).value, insns[m.core.pc], inc[Where(m)];
    CarefulHolds(s, Fetch(m), k, m.core, Given(tape, m));
    assert Absorbs(inc, Where(t), Transfer(s, k));
    if InMemory(Where(t)) { AgreesBelow(inc[Where(t)], Transfer(s, k), t.core); }
  }

  /** So a record with a known start names the bytes the machine touches: I is where
      the access is said to start. */
  lemma {:induction false} RecordRight(tape: nat -> Input, insns: map<int, Stmt>, inc: Incoming, c: Core, n: nat, a: Access)
    requires Insns(insns) && TableOk(insns, inc) && forall d :: d in inc ==> ClosedAt(insns, inc, d)
    requires c.pc == ENTRY && c.stack == [] && Follows(tape, insns, c, n)
    requires forall i :: 0 <= i < n ==> CarefulAt(tape, insns, inc, c, i)
    requires
      var m := TapeRun(tape, Start(c), n).value;
      InMemory(Where(m)) && m.core.pc in insns && Where(m) in inc && a in AccessesOf(insns[m.core.pc], m.core.pc, inc[Where(m)])
    ensures
      var m := TapeRun(tape, Start(c), n).value;
      a.pc == m.core.pc && (a.kind in {Read, Write} && a.start.Some? && a.start.value >= 0 ==> m.core.i == a.start.value % 0x10000)
  {
    ConstantsHold(tape, insns, inc, c, n);
    hide Follows, ClosedAt, CarefulAt, TapeRun, TableOk, Insns, Transfer;
  }

  /** What a record is asked for is what the machine reads or writes. */
  lemma {:induction false} TouchesData(op: word)
    ensures match Touches(op)
      case None => DataRead(op) == 0 == DataWritten(op)
      case Some((kind, n)) => kind in {Read, Write} && DataRead(op) == (if kind == Read then n else 0) && DataWritten(op) == (if kind == Write then n else 0)
  {
    hide X, N;
  }

  /** A record has the length and the direction of the access its statement makes; it
      has a start or none just as I is known or not, and for an offset from a base it
      has the base. */
  lemma {:induction false} RecordShape(s: Stmt, pc: int, k: Known, a: Access)
    requires a in AccessesOf(s, pc, k)
    ensures a.pc == pc && Touch(s).Some? && a.length == Touch(s).value.1
    ensures IsDynamic(k.i) ==> a.kind == (if Touch(s).value.0 == Read then DynamicRead else DynamicWrite) && a.start.Some? && a.start.value == -k.i.value - 2
    ensures !IsDynamic(k.i) ==> a.kind == Touch(s).value.0 && a.start == k.i
  {
    TouchKind(s);
    hide Touch;
  }

  lemma TouchKind(s: Stmt)
    ensures Touch(s).Some? ==> Touch(s).value.0 in {Read, Write}
  {}

  /** All the operands a statement puts into a constant are known. */
  predicate OperandsKnown(s: Stmt, k: Known)
    requires k.Valid()
  {
    match s
    case LdI(v) => v.Some?
    case LdConst(_, v) => v.Some?
    case LdReg(_, y) => k.regs[y].Some?
    case LdF => true
    case AddI(reg) => k.i.Some?
    case AddConst(x, v) => k.regs[x].Some? && v.Some?
    case AddReg(x, y) => k.regs[x].Some? && k.regs[y].Some?
    case _ => false
  }

  /** Where its operands are known the analysis knows the result, and what an
      instruction has no result for it goes on knowing. I is then the sum, or, of an
      unknown register, an offset from the base it was. */
  lemma {:induction false} TransferKnows(s: Stmt, op: word, k: Known)
    requires k.Valid() && Speaks(s, op)
    ensures OperandsKnown(s, k) ==>
      var m := Transfer(s, k);
      && (s.LdI? || s.LdF? || s.AddI? ==> m.i.Some?)
      && (s.LdConst? || s.LdReg? || s.AddConst? || s.AddReg? ==> m.regs[X(op)].Some?)
      && (s.AddI? && s.reg.Some? && k.i.value >= 0 && k.regs[X(op)].Some? && k.regs[X(op)].value >= 0 ==> m.i.value >= 0)
      && (s.AddI? && k.i.value >= 0 && (s.reg.None? || k.regs[X(op)].None?) ==> m.i.value == -k.i.value - 2)
      && (s.AddI? && IsDynamic(k.i) ==> m.i == k.i)
    ensures !(s.LdI? || s.LdF? || s.AddI?) ==> Transfer(s, k).i == k.i
    ensures forall r :: 0 <= r < 16 && !(Top(op) in {6, 7, 8, 0xC, 0xF} && r == X(op)) ==> Transfer(s, k).regs[r] == k.regs[r]
  {
    NotSystem(op);
    hide Top, X, Y, N, KK, NNN;
  }

  /** A context the machine can be in. */
  predicate Possible(c: Context)
  {
    ENTRY <= c.pc < LIMIT && |c.stack| <= 16 && forall k :: 0 <= k < |c.stack| ==> 0 <= c.stack[k] < 0x10000
  }

  /** From `c` the machine gets to `d` by `op`, with some registers and input. */
  ghost predicate GetsTo(op: word, c: Context, d: Context)
  {
    exists m: Core, inp: Input :: m.pc == c.pc && m.stack == c.stack && Lands(op, m, inp, d)
  }

  predicate Lands(op: word, m: Core, inp: Input, d: Context)
  {
    var r := ExecCore(op, m, inp);
    r.Some? && r.value.pc == d.pc && r.value.stack == d.stack
  }

  /** Only calls and returns look at the stack. */
  lemma {:induction false} StackFree(op: word, c: Core, t: Stack, inp: Input)
    requires op != 0x00EE && Top(op) != 2
    ensures ExecCore(op, c.(stack := t), inp) == match ExecCore(op, c, inp) case Some(d) => Some(d.(stack := t)) case None => None
    ensures ExecCore(op, c, inp).Some? ==> ExecCore(op, c, inp).value.stack == c.stack
  {
    NotSystem(op);
    StackStraight(op, c, t, inp);
    hide Top, X, Y, N, KK, NNN, ExecStraight;
  }

  lemma {:induction false} StackStraight(op: word, c: Core, t: Stack, inp: Input)
    ensures ExecStraight(op, c.(stack := t), inp) == match ExecStraight(op, c, inp) case Some(d) => Some(d.(stack := t)) case None => None
    ensures ExecStraight(op, c, inp).Some? ==> ExecStraight(op, c, inp).value.stack == c.stack
  {
    hide Top, X, Y, N, KK, NNN, Store, Load, Bits, SpritePixels;
  }

  /** Every transition of the analysis is one of the machine, but for the dead side of
      a decided comparison. */
  lemma {:induction false} TransitionPossible(s: Stmt, op: word, c: Context, d: Context)
    requires Describes(s, op) && D.ValidOpcode(op) && !s.JumpV0? && !E.Decided(op) && Possible(c) && d in Transitions(s, c)
    ensures GetsTo(op, c, d)
  {
    hide ExecCore, Top, X, Y, N, KK, NNN, D.ValidOpcode, E.Decided, Describes, Lands;
    TransitionsOf(s, op, c);
    E.ReturnTop(op);
    var taken := s.Skip? && d.pc == c.pc + 4;
    var m := U.Able(U.Blank(), c.pc, E.Choosing(op, taken));
    var inp := NO_INPUT.(hit := taken);
    if op == 0x00EE {
      ReturnLands(m.(stack := c.stack), inp, c, d);
    } else if Top(op) == 2 {
      CallLands(op, m.(stack := c.stack), inp, c, d);
    } else {
      OtherKinds(op, s);
      E.ChooseStep(op, c.pc, taken);
      StackFree(op, m, c.stack, inp);
      OtherLands(s, op, c, d, m.(stack := c.stack), inp, taken);
    }
    assert Lands(op, m.(stack := c.stack), inp, d);
  }

  lemma OtherKinds(op: word, s: Stmt)
    requires Describes(s, op) && !s.JumpV0?
    ensures s.Skip? <==> op != 0x00EE && op != 0x00E0 && Top(op) in {3, 4, 5, 9, 0xE}
  {
    NotSystem(op);
    hide Top, NNN;
  }

  lemma {:induction false} OtherLands(s: Stmt, op: word, c: Context, d: Context, m: Core, inp: Input, taken: bool)
    requires Describes(s, op) && !s.JumpV0? && op != 0x00EE && Top(op) != 2 && d in Transitions(s, c) && Possible(c)
    requires m.stack == c.stack && taken == (s.Skip? && d.pc == c.pc + 4)
    requires var r := ExecCore(op, m, inp);
      r.Some? && r.value.stack == m.stack && r.value.pc == if Top(op) in {1, 2, 0xB} then NNN(op) else if taken then c.pc + 4 else c.pc + 2
    ensures Lands(op, m, inp, d)
  {
    hide ExecCore, Top, NNN;
    NotSystem(op);
    TransitionsOf(s, op, c);
    OtherKinds(op, s);
  }

  lemma {:induction false} ReturnLands(m: Core, inp: Input, c: Context, d: Context)
    requires m.stack == c.stack && d in Transitions(Ret, c)
    ensures Lands(0x00EE, m, inp, d)
  {}

  lemma {:induction false} CallLands(op: word, m: Core, inp: Input, c: Context, d: Context)
    requires m.stack == c.stack && m.pc == c.pc && Possible(c) && Top(op) == 2 && d in Transitions(CallTo(Some(NNN(op))), c)
    ensures Lands(op, m, inp, d)
  {
    NotSystem(op);
    hide Top, NNN, X, Y, KK, ExecStraight;
  }

  // ------------------------------------------------------ what goes wrong

  /** LD VF, 5; ADD V0, V1: the analysis still has 5 in VF, where the machine has the
      carry, whatever the machine. */
  lemma {:induction false} FlagKept(k: Known, c: Core, inp: Input)
    requires Agrees(k, c) && k.regs[0xF] == Some(5)
    ensures Speaks(AddReg(0, 1), 0x8014) && Transfer(AddReg(0, 1), k).regs[0xF] == Some(5)
    ensures ExecCore(0x8014, c, inp).Some? && ExecCore(0x8014, c, inp).value.regs[0xF] in {0, 1}
    ensures !Agrees(Transfer(AddReg(0, 1), k), ExecCore(0x8014, c, inp).value)
  {
    assert Top(0x8014) == 8 && N(0x8014) == 4 && X(0x8014) == 0 && Y(0x8014) == 1;
    var d := ExecCore(0x8014, c, inp).value;
    assert !RegAgrees(Transfer(AddReg(0, 1), k).regs[0xF], d.regs[0xF]);
    hide Agrees, Bits;
  }
}
