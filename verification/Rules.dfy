/** The optimizer's textual rules against the assembled words, in both directions,
    and its loop without recursion: what becomes of every statement. */
module Rules {
  import opened Chip8
  import opened Bench
  import opened Text
  import opened Numbers
  import opened Peephole
  import opened Optimizer
  import opened Relocate
  import Asm
  import S = Statements

  // --------------------------------------------- what a mnemonic assembles to

  /** The opcodes of LD. */
  predicate LoadShape(op: word)
  {
    LoadsRegister(op) || LoadsI(op) || (Top(op) == 0xF && KK(op) in {0x15, 0x18, 0x29, 0x33, 0x55})
  }

  predicate AddShape(op: word)
  {
    Top(op) == 7 || (Top(op) == 8 && N(op) == 4) || (Top(op) == 0xF && KK(op) == 0x1E)
  }

  /** LD, ADD, CALL and RET are known by their opcodes. */
  lemma {:induction false} Shapes(t: seq<string>, symbols: Asm.Symbols)
    requires t != [] && Asm.Instruction(t, symbols, true).Ok?
    ensures
      var op := Asm.Instruction(t, symbols, true).value;
      && (t[0] == "LD" <==> LoadShape(op)) && (t[0] == "ADD" <==> AddShape(op))
      && (t[0] == "CALL" <==> Top(op) == 2) && (t[0] == "RET" <==> op == 0x00EE)
  {
    hide Asm.Instruction, LoadShape, AddShape, Top;
    var op := Asm.Instruction(t, symbols, true).value;
    Mnemonics(t, symbols);
    Groups(op);
    if t[0] == "LD" { LoadShaped(t, symbols); }
    else if t[0] == "ADD" { AddShaped(t, symbols); }
    else if t[0] in {"CLS", "RET"} { BareShaped(t, symbols); }
    else if t[0] in {"JP", "CALL"} { JumpShaped(t, symbols); }
    else if t[0] == "DRW" { DrawOp(t, symbols); }
    else if t[0] in {"SE", "SNE", "SKP", "SKNP"} { SkipShaped(t, symbols); }
    else { ArithShaped(t, symbols); }
  }

  lemma Groups(op: word)
    ensures LoadShape(op) ==> !AddShape(op) && Top(op) in {6, 8, 0xA, 0xF}
    ensures AddShape(op) ==> Top(op) in {7, 8, 0xF}
    ensures op == 0x00EE || op == 0x00E0 ==> Top(op) == 0
    ensures Top(op) == 8 && N(op) !in {0, 4} ==> !LoadShape(op) && !AddShape(op)
  {
    assert Top(0x00EE) == 0 == Top(0x00E0);
    hide X, Y;
  }

  lemma {:induction false} LoadShaped(t: seq<string>, symbols: Asm.Symbols)
    requires t != [] && t[0] == "LD" && Asm.Instruction(t, symbols, true).Ok?
    ensures LoadShape(Asm.Instruction(t, symbols, true).value)
  {
    hide Asm.Register, Asm.RegisterOrByte, Asm.Encode, S.IsRegister, Top, X, KK, N, Y, LoadsRegister;
    LoadWords(t, symbols);
    LoadOp(t, symbols);
    if t[1] == "I" {
      IndexLoad(t, symbols);
    } else if t[1] in {"DT", "ST", "F", "B", "[I]"} {
      S.EncodedBare(if t[1] == "DT" then 0xF015 else if t[1] == "ST" then 0xF018 else if t[1] == "F" then 0xF029 else if t[1] == "B" then 0xF033
        else 0xF055, Asm.Register(t[2]).value);
      assert 0xF015 / 0x1000 == 0xF018 / 0x1000 == 0xF029 / 0x1000 == 0xF033 / 0x1000 == 0xF055 / 0x1000 == 0xF;
      assert 0xF015 % 0x100 == 0x15 && 0xF018 % 0x100 == 0x18 && 0xF029 % 0x100 == 0x29 && 0xF033 % 0x100 == 0x33 && 0xF055 % 0x100 == 0x55;
    } else {
      S.RegisterRead(t[1]);
      RegisterLoad(t, symbols);
    }
  }

  lemma {:induction false} AddShaped(t: seq<string>, symbols: Asm.Symbols)
    requires t != [] && t[0] == "ADD" && Asm.Instruction(t, symbols, true).Ok?
    ensures AddShape(Asm.Instruction(t, symbols, true).value)
  {
    hide Asm.Register, Asm.Encode, Asm.Ranged, Top, N, KK, X, Y;
    if t[1] == "I" {
      S.EncodedBare(0xF01E, Asm.Register(t[2]).value);
      assert 0xF01E / 0x1000 == 0xF && 0xF01E % 0x100 == 0x1E;
    } else if Asm.LooksLikeRegister(t[2]) {
      FourKind(0x8004, Asm.Register(t[1]).value, Asm.Register(t[2]).value);
    } else {
      ByteKind(0x7000, Asm.Register(t[1]).value, Asm.Ranged(t[2], 0xFF, symbols, true).value);
    }
  }

  lemma FourKind(base: word, x: nibble, y: nibble)
    requires 0x8000 <= base < 0x8010
    ensures
      var yi: int := y;
      var op := Asm.Encode(base, x, 0x10 * yi);
      Top(op) == 8 && N(op) == base - 0x8000
  {}

  lemma BareShaped(t: seq<string>, symbols: Asm.Symbols)
    requires t != [] && t[0] in {"CLS", "RET"} && Asm.Instruction(t, symbols, true).Ok?
    ensures Asm.Instruction(t, symbols, true).value == if t[0] == "CLS" then 0x00E0 else 0x00EE
  {}

  lemma {:induction false} JumpShaped(t: seq<string>, symbols: Asm.Symbols)
    requires t != [] && t[0] in {"JP", "CALL"} && Asm.Instruction(t, symbols, true).Ok?
    ensures var op := Asm.Instruction(t, symbols, true).value; if t[0] == "CALL" then Top(op) == 2 else Top(op) in {1, 0xB}
  {
    hide Asm.Value, Top, NNN;
    var z := Asm.Ranged(Last(t), 0xFFF, symbols, true).value;
    S.AddressKind(if |t| == 3 then 0xB000 else if t[0] == "JP" then 0x1000 else 0x2000, z);
    assert 0x1000 / 0x1000 == 1 && 0x2000 / 0x1000 == 2 && 0xB000 / 0x1000 == 0xB;
  }

  lemma {:induction false} SkipShaped(t: seq<string>, symbols: Asm.Symbols)
    requires t != [] && t[0] in {"SE", "SNE", "SKP", "SKNP"} && Asm.Instruction(t, symbols, true).Ok?
    ensures Top(Asm.Instruction(t, symbols, true).value) in {3, 4, 5, 9, 0xE}
  {
    S.SkipsRead(t, symbols);
    SkipKinds(Asm.Instruction(t, symbols, true).value);
    hide Asm.Instruction, S.ReadRightly, Top;
  }

  lemma {:induction false} SkipKinds(op: word)
    requires S.ReadRightly(Some(S.Skip), op)
    ensures Top(op) in {3, 4, 5, 9, 0xE}
  {
    hide Top, X, KK, N, NNN;
  }

  lemma {:induction false} ArithShaped(t: seq<string>, symbols: Asm.Symbols)
    requires t != [] && t[0] in {"RND", "OR", "AND", "XOR", "SUB", "SUBN", "SHR", "SHL"} && Asm.Instruction(t, symbols, true).Ok?
    ensures
      var op := Asm.Instruction(t, symbols, true).value;
      Top(op) == 0xC || (Top(op) == 8 && N(op) !in {0, 4})
  {
    hide Asm.Register, Asm.Encode, Asm.Ranged, Top, N;
    var x := Asm.Register(t[1]).value;
    if t[0] == "RND" {
      S.EncodedByte(0xC000, x, Asm.Ranged(t[2], 0xFF, symbols, true).value);
      assert 0xC000 / 0x1000 == 0xC;
    } else {
      var low: nibble := match t[0] case "OR" => 1 case "AND" => 2 case "XOR" => 3 case "SUB" => 5 case "SHR" => 6 case "SUBN" => 7 case _ => 0xE;
      var y: nibble := if |t| == 3 then Asm.Register(t[2]).value else 0;
      FourKind(0x8000 + low, x, y);
      assert Asm.Instruction(t, symbols, true).value == Asm.Encode(0x8000 + low, x, 0x10 * y);
    }
  }

  // -------------------------------------------------------------- the rules

  /** A register is its digit. */
  lemma {:induction false} SameRegister(v: string, w: string)
    requires S.IsRegister(v) && S.IsRegister(w)
    ensures v == w <==> S.Digit(v[1]) == S.Digit(w[1])
  {}

  /** LD of a register or of I, by its opcode. */
  lemma {:induction false} LoadPlace(t: seq<string>, symbols: Asm.Symbols)
    requires t != [] && Asm.Instruction(t, symbols, true).Ok?
    ensures
      var op := Asm.Instruction(t, symbols, true).value;
      && (LoadsRegister(op) <==> LoadText(t) && S.IsRegister(t[1]))
      && (LoadsI(op) <==> LoadText(t) && t[1] == "I")
      && (LoadsRegister(op) ==> X(op) == S.Digit(t[1][1]).value && (WaitsForKey(op) <==> t[2] == "K"))
  {
    hide Asm.Instruction, LoadsRegister, LoadsI, S.IsRegister, X, LoadShape, AddShape, WaitsForKey;
    var op := Asm.Instruction(t, symbols, true).value;
    Shapes(t, symbols);
    LoadShapes(op);
    if t[0] == "LD" {
      LoadWords(t, symbols);
      if t[1] == "I" {
        IndexLoad(t, symbols);
        NoIndex();
      } else if S.IsRegister(t[1]) {
        RegisterLoad(t, symbols);
      } else {
        SpecialLoad(t, symbols);
      }
    }
  }

  lemma NoIndex()
    ensures !S.IsRegister("I")
  {}

  lemma LoadShapes(op: word)
    ensures LoadsRegister(op) || LoadsI(op) ==> LoadShape(op)
    ensures !(LoadsRegister(op) && LoadsI(op))
  {
    hide X, N;
  }

  /** LD to a timer, to memory, or of a font address. */
  lemma {:induction false} SpecialLoad(t: seq<string>, symbols: Asm.Symbols)
    requires LoadText(t) && t[1] != "I" && !S.IsRegister(t[1]) && Asm.Instruction(t, symbols, true).Ok?
    ensures var op := Asm.Instruction(t, symbols, true).value; !LoadsRegister(op) && !LoadsI(op)
  {
    hide Asm.Register, Asm.RegisterOrByte, Asm.Encode, S.IsRegister, Top, X, KK, N, Y;
    LoadOp(t, symbols);
    if t[1] in {"DT", "ST", "F", "B", "[I]"} {
      S.EncodedBare(if t[1] == "DT" then 0xF015 else if t[1] == "ST" then 0xF018 else if t[1] == "F" then 0xF029 else if t[1] == "B" then 0xF033
        else 0xF055, Asm.Register(t[2]).value);
      assert 0xF015 / 0x1000 == 0xF018 / 0x1000 == 0xF029 / 0x1000 == 0xF033 / 0x1000 == 0xF055 / 0x1000 == 0xF;
      assert 0xF015 % 0x100 == 0x15 && 0xF018 % 0x100 == 0x18 && 0xF029 % 0x100 == 0x29 && 0xF033 % 0x100 == 0x33 && 0xF055 % 0x100 == 0x55;
    } else {
      S.RegisterRead(t[1]);
    }
  }

  /** The overwritten-load rule takes exactly the pairs of loads of one place whose
      first is not from K, whether that is the keyboard or a label. */
  lemma {:induction false} OverwriteRule(a: seq<string>, b: seq<string>, symbols: Asm.Symbols)
    requires a != [] && b != [] && Asm.Instruction(a, symbols, true).Ok? && Asm.Instruction(b, symbols, true).Ok?
    ensures OverwrittenText(a, b) <==>
      Overwritten(Asm.Instruction(a, symbols, true).value, Asm.Instruction(b, symbols, true).value) && a != ["LD", "I", "K"]
  {
    hide Asm.Instruction, S.IsRegister, LoadsRegister, LoadsI, WaitsForKey, X, S.Digit;
    LoadPlace(a, symbols);
    LoadPlace(b, symbols);
    NoIndex();
    BothLoads(Asm.Instruction(a, symbols, true).value);
    BothLoads(Asm.Instruction(b, symbols, true).value);
    if LoadText(a) && LoadText(b) && S.IsRegister(a[1]) && S.IsRegister(b[1]) { DigitsSame(a[1], b[1]); }
    assert LoadText(a) && a[1] == "I" && a[2] == "K" ==> a == ["LD", "I", "K"];
  }

  lemma DigitsSame(v: string, w: string)
    requires S.IsRegister(v) && S.IsRegister(w)
    ensures S.Digit(v[1]).Some? && S.Digit(w[1]).Some? && (v == w <==> S.Digit(v[1]).value == S.Digit(w[1]).value)
  {
    SameRegister(v, w);
  }

  lemma BothLoads(op: word)
    ensures !(LoadsRegister(op) && LoadsI(op))
  {
    hide X, N, KK;
  }

  /** ADD of a byte, by its opcode. */
  lemma {:induction false} AddPlace(t: seq<string>, symbols: Asm.Symbols)
    requires t != [] && Asm.Instruction(t, symbols, true).Ok?
    ensures
      var op := Asm.Instruction(t, symbols, true).value;
      && (Top(op) == 7 <==> AddText(t) && !Asm.LooksLikeRegister(t[2]))
      && (Top(op) == 7 ==> X(op) == S.Digit(t[1][1]).value && Asm.Value(t[2], symbols, true) == Asm.Ok(KK(op)))
  {
    hide Asm.Encode, Asm.Ranged, Top, X, KK, N, S.IsRegister, Asm.Register, LoadShape;
    var op := Asm.Instruction(t, symbols, true).value;
    Shapes(t, symbols) by { hide Asm.Instruction; }
    if t[0] == "ADD" {
      if t[1] == "I" {
        S.EncodedBare(0xF01E, Asm.Register(t[2]).value);
        assert 0xF01E / 0x1000 == 0xF;
        NoIndex();
      } else {
        S.RegisterRead(t[1]);
        RegisterFront(t[1]);
        if Asm.LooksLikeRegister(t[2]) {
          FourKind(0x8004, Asm.Register(t[1]).value, Asm.Register(t[2]).value);
        } else {
          ByteKind(0x7000, Asm.Register(t[1]).value, Asm.Ranged(t[2], 0xFF, symbols, true).value);
          RangedIs(t[2], 0xFF, symbols);
        }
      }
    }
  }

  lemma RangedIs(w: string, max: nat, symbols: Asm.Symbols)
    requires Asm.Ranged(w, max, symbols, true).Ok?
    ensures Asm.Value(w, symbols, true) == Asm.Ok(Asm.Ranged(w, max, symbols, true).value)
  {
    hide Asm.Value;
  }

  /** LD of a byte, by its opcode. */
  lemma {:induction false} BytePlace(t: seq<string>, symbols: Asm.Symbols)
    requires t != [] && Asm.Instruction(t, symbols, true).Ok?
    ensures
      var op := Asm.Instruction(t, symbols, true).value;
      Top(op) == 6 <==> LoadText(t) && S.IsRegister(t[1]) && t[2] !in {"DT", "K", "[I]"} && !Asm.LooksLikeRegister(t[2])
  {
    hide Asm.Instruction, S.IsRegister, X, Y, N, KK, Asm.LooksLikeRegister, Top;
    LoadPlace(t, symbols) by { hide LoadsRegister, LoadsI, WaitsForKey; }
    var op := Asm.Instruction(t, symbols, true).value;
    ByteLoads(op);
    if LoadText(t) && S.IsRegister(t[1]) {
      RegisterLoad(t, symbols) by { hide LoadsRegister; }
      if t[2] in {"DT", "K", "[I]"} { OtherByte(t, symbols); }
    }
  }

  lemma ByteLoads(op: word)
    ensures Top(op) == 6 ==> LoadsRegister(op)
  {}

  lemma {:induction false} OtherByte(t: seq<string>, symbols: Asm.Symbols)
    requires LoadText(t) && S.IsRegister(t[1]) && t[2] in {"DT", "K", "[I]"} && Asm.Instruction(t, symbols, true).Ok?
    ensures Top(Asm.Instruction(t, symbols, true).value) == 0xF
  {
    hide Asm.Encode, Top, Asm.RegisterOrByte, S.IsRegister;
    LoadOp(t, symbols);
    RegisterFront(t[1]);
    var base := if t[2] == "DT" then 0xF007 else if t[2] == "K" then 0xF00A else 0xF065;
    S.EncodedBare(base, Asm.Register(t[1]).value);
    assert 0xF007 / 0x1000 == 0xF00A / 0x1000 == 0xF065 / 0x1000 == 0xF;
  }

  /** The folding rule takes exactly a 6xkk and a 7xkk of one register whose bytes
      the optimizer both reads. */
  lemma {:induction false} FoldRule(a: seq<string>, b: seq<string>, symbols: Asm.Symbols)
    requires a != [] && b != [] && Asm.Instruction(a, symbols, true).Ok? && Asm.Instruction(b, symbols, true).Ok?
    ensures FoldsText(a, b) <==>
      && Folds(Asm.Instruction(a, symbols, true).value, Asm.Instruction(b, symbols, true).value)
      && ParseNumber(Last(a)).Some? && ParseNumber(Last(b)).Some?
  {
    hide Asm.Instruction, S.IsRegister, LoadsRegister, LoadsI, WaitsForKey, X, Top, ParseNumber, Asm.LooksLikeRegister, S.Digit, KK;
    var f, g := Asm.Instruction(a, symbols, true).value, Asm.Instruction(b, symbols, true).value;
    LoadPlace(a, symbols);
    BytePlace(a, symbols);
    AddPlace(b, symbols);
    ByteLoads(f) by { hide X, KK, N; }
    if ParseNumber(Last(a)).Some? { NumberNoRegister(Last(a)); }
    if ParseNumber(Last(b)).Some? { NumberNoRegister(Last(b)); }
    if LoadText(a) && AddText(b) && S.IsRegister(a[1]) { DigitsSame(a[1], b[1]); }
  }

  /** The no-op rule takes exactly LD I, I, 8xx0, and 7x00 whose zero the optimizer
      reads. */
  lemma {:induction false} NoOpRule(t: seq<string>, symbols: Asm.Symbols)
    requires t != [] && WellNamed(symbols) && Asm.Instruction(t, symbols, true).Ok?
    ensures
      var op := Asm.Instruction(t, symbols, true).value;
      NoOpText(t) <==> t == ["LD", "I", "I"] || (NoOp(op) && (Top(op) == 7 ==> ParseNumber(Last(t)) == Some(0)))
  {
    hide Asm.Instruction, S.IsRegister, LoadsRegister, LoadsI, WaitsForKey, X, Top, Y, N, KK, ParseNumber, Asm.LooksLikeRegister, S.Digit,
      Asm.IsName;
    var op := Asm.Instruction(t, symbols, true).value;
    AddPlace(t, symbols);
    if SameOperands(t) {
      SameOperandsOp(t, symbols);
      assert t[1] == "I" ==> t == ["LD", "I", "I"];
      Sevens(op);
      LoadPlace(t, symbols);
    } else if AddsZero(t) {
      AddsZeroOp(t, symbols);
      NumberNoRegister(t[2]);
    } else if NoOp(op) && Top(op) != 7 {
      EightsCopy(t, symbols);
    }
  }

  lemma Sevens(op: word)
    ensures Top(op) == 7 ==> !LoadsRegister(op) && !LoadsI(op)
  {}

  /** An accepted statement that assembles to 8xx0 is LD Vx, Vx. */
  lemma {:induction false} EightsCopy(t: seq<string>, symbols: Asm.Symbols)
    requires t != [] && Asm.Instruction(t, symbols, true).Ok?
    requires var op := Asm.Instruction(t, symbols, true).value; NoOp(op) && Top(op) != 7
    ensures SameOperands(t)
  {
    hide Asm.Instruction, S.IsRegister, WaitsForKey, X, Top, Y, N, KK, Asm.LooksLikeRegister, S.Digit, Asm.Register;
    LoadPlace(t, symbols);
    RegisterLoad(t, symbols);
    if t[2] in {"DT", "K", "[I]"} { OtherByte(t, symbols); }
    S.RegisterRead(t[2]);
    DigitsSame(t[1], t[2]);
    NumberedIs(t[2]);
  }

  lemma NumberedIs(w: string)
    requires S.IsRegister(w)
    ensures S.Numbered(w) == S.Digit(w[1])
  {}

  /** The tail-call rule takes exactly a 2nnn it can resolve with a 00EE behind it. */
  lemma {:induction false} TailRule(s: Stmt, next: Stmt, symbols: Asm.Symbols)
    requires s.Insn? && next.Insn? && EncodesAt(s, symbols) && EncodesAt(next, symbols)
    ensures TailText(s, next) <==> Top(s.op) == 2 && next.op == 0x00EE && (s.target.Some? || ParseNumber(Last(s.text)).Some?)
  {
    hide Asm.Instruction, Top, ParseNumber, LoadShape, AddShape;
    Shapes(s.text, symbols);
    Shapes(next.text, symbols);
    if s.text[0] == "CALL" { CallWords(s.text, symbols); }
  }

  lemma CallWords(t: seq<string>, symbols: Asm.Symbols)
    requires t != [] && t[0] == "CALL" && Asm.Instruction(t, symbols, true).Ok?
    ensures |t| == 2
  {
    hide Asm.Ranged;
  }

  // ---------------------------------------------------- the loop, at a glance

  /** Statement `i` has been taken into the load before it. */
  predicate Taken(e: Edit, i: nat) { i > 0 && i - 1 in e.total }

  /** What the loop does with statement `i`. */
  ghost predicate Treated(p: Source, pinned: set<nat>, e: Edit, i: nat)
    requires i < |p|
  {
    var folds := Adjacent(p, i) && Free(p, pinned, i + 1) && FoldsText(p[i].text, p[i + 1].text);
    if Taken(e, i) then i in e.drop && i !in e.total && i !in e.turn
    else if folds then i in e.total && e.total[i] == SumText(p[i].text, p[i + 1].text) && i !in e.drop && i !in e.turn
    else
      && i !in e.total
      && (i in e.turn <==> TailAt(p, i))
      && (i in e.drop <==> !TailAt(p, i) && p[i].Insn? && Free(p, pinned, i) && (NoOpText(p[i].text) || DeadText(p, i)))
  }

  /** The edit speaks of statements from `i` on only. */
  ghost predicate From(e: Edit, i: nat)
  {
    (forall k :: k in e.drop ==> k >= i) && (forall k :: k in e.total ==> k >= i) && forall k :: k in e.turn ==> k >= i
  }

  /** The loop folds where it can; what it folds away it does not look at again;
      else it turns a tail call; else it drops a free no-op or overwritten load; and
      it does nothing else. */
  lemma {:induction false} LoopTreats(p: Source, pinned: set<nat>)
    ensures forall i :: 0 <= i < |p| ==> Treated(p, pinned, Plan(p, pinned, 0), i)
  {
    PlanTreats(p, pinned, 0);
    hide Plan, Treated;
  }

  lemma {:induction false} PlanTreats(p: Source, pinned: set<nat>, i: nat)
    requires i <= |p|
    ensures From(Plan(p, pinned, i), i)
    ensures forall k :: i <= k < |p| ==> Treated(p, pinned, Plan(p, pinned, i), k)
    decreases |p| - i
  {
    hide Free, NoOpText, FoldsText, DeadText, TailAt, SumText;
    if i < |p| {
      if Adjacent(p, i) && Free(p, pinned, i + 1) && FoldsText(p[i].text, p[i + 1].text) {
        FoldTreats(p, pinned, i);
      } else {
        StepTreats(p, pinned, i);
      }
    }
  }

  lemma {:induction false} FoldTreats(p: Source, pinned: set<nat>, i: nat)
    requires Adjacent(p, i) && Free(p, pinned, i + 1) && FoldsText(p[i].text, p[i + 1].text)
    ensures From(Plan(p, pinned, i), i)
    ensures forall k :: i <= k < |p| ==> Treated(p, pinned, Plan(p, pinned, i), k)
    decreases |p| - i, 0
  {
    hide Free, NoOpText, FoldsText, DeadText, TailAt, SumText;
    PlanTreats(p, pinned, i + 2);
    var rest, e := Plan(p, pinned, i + 2), Plan(p, pinned, i);
    assert e == WithFold(rest, i, SumText(p[i].text, p[i + 1].text));
    forall k | i <= k < |p| ensures Treated(p, pinned, e, k) {
      if k > i + 1 { assert Treated(p, pinned, rest, k); }
    }
  }

  lemma {:induction false} StepTreats(p: Source, pinned: set<nat>, i: nat)
    requires i < |p| && !(Adjacent(p, i) && Free(p, pinned, i + 1) && FoldsText(p[i].text, p[i + 1].text))
    ensures From(Plan(p, pinned, i), i)
    ensures forall k :: i <= k < |p| ==> Treated(p, pinned, Plan(p, pinned, i), k)
    decreases |p| - i, 0
  {
    hide Free, NoOpText, FoldsText, DeadText, TailAt, SumText;
    PlanTreats(p, pinned, i + 1);
    var rest, e := Plan(p, pinned, i + 1), Plan(p, pinned, i);
    forall k | i <= k < |p| ensures Treated(p, pinned, e, k) {
      if k > i { assert Treated(p, pinned, rest, k); }
    }
  }
}
