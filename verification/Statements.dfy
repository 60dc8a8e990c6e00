/** What the optimizer's analysis reads a statement as, and what the assembler
    makes of the same words. */
module Statements {
  import opened Chip8
  import opened Numbers
  import Asm

  /** An instruction statement, as far as the analysis looks at it. */
  datatype Stmt =
    | LdI(v: Option<int>) | LdConst(x: nibble, v: Option<int>) | LdReg(x: nibble, y: nibble) | LdF
    | StoreDigits | StoreRegs(n: nat) | LoadRegs(n: nat)
    | AddI(reg: Option<nibble>) | AddConst(x: nibble, v: Option<int>) | AddReg(x: nibble, y: nibble)
    | Sprite(rows: Option<int>) | Unknown(x: nibble)
    | Skip | Jump(dest: Option<int>) | JumpV0 | CallTo(dest: Option<int>) | Ret | Other

  // ------------------------------------------------------------- operands

  /** A hexadecimal digit in upper case. */
  function Digit(c: char): Option<nibble>
  {
    if '0' <= c <= '9' then Some(c as int - '0' as int)
    else if 'A' <= c <= 'F' then Some(c as int - 'A' as int + 10)
    else None
  }

  predicate StartsV(s: string) { s != "" && s[0] == 'V' }

  predicate IsRegister(s: string) { |s| == 2 && s[0] == 'V' && Digit(s[1]).Some? }

  /** The digit behind a V; without one the analysis stops with an exception. */
  function Numbered(s: string): Option<nibble>
  {
    if |s| < 2 then None else Digit(s[1])
  }

  // ------------------------------------------------------ what a statement is

  function LoadTo(a: string, b: string, labels: map<string, int>): Option<Stmt>
  {
    if a == "I" then Some(LdI(Resolve(b, labels)))
    else if IsRegister(a) then (
      var x := Digit(a[1]).value;
      if !StartsV(b) then Some(LdConst(x, Resolve(b, labels)))
      else match Numbered(b) case Some(y) => Some(LdReg(x, y)) case None => None)
    else if a == "F" then Some(LdF)
    else if a == "B" && StartsV(b) then Some(StoreDigits)
    else if a == "[I]" && StartsV(b) then (match Numbered(b) case Some(n) => Some(StoreRegs(n + 1)) case None => None)
    else if b == "[I]" && StartsV(a) then (match Numbered(a) case Some(n) => Some(LoadRegs(n + 1)) case None => None)
    else Some(Other)
  }

  function Add(a: string, b: string, labels: map<string, int>): Option<Stmt>
  {
    if a == "I" then (
      if !StartsV(b) then Some(AddI(None))
      else match Numbered(b) case Some(y) => Some(AddI(Some(y))) case None => None)
    else if StartsV(a) then (
      match Numbered(a)
      case None => None
      case Some(x) =>
        if !StartsV(b) then Some(AddConst(x, Resolve(b, labels)))
        else match Numbered(b) case Some(y) => Some(AddReg(x, y)) case None => None)
    else Some(Other)
  }

  /** The address a jump or call names last. */
  function Dest(args: seq<string>, labels: map<string, int>): Option<int>
  {
    if args == [] then None else Resolve(args[|args| - 1], labels)
  }

  /** The branches of the analysis, in its order; None is a Python exception. */
  function Classify(op: string, args: seq<string>, labels: map<string, int>): Option<Stmt>
  {
    if op == "LD" && |args| == 2 then LoadTo(args[0], args[1], labels)
    else if op == "ADD" && |args| == 2 then Add(args[0], args[1], labels)
    else if op == "DRW" && |args| == 3 then Some(Sprite(Resolve(args[2], labels)))
    else if op in {"RND", "OR", "AND", "XOR", "SUB", "SUBN", "SHR", "SHL"} && args != [] && StartsV(args[0]) then
      match Numbered(args[0]) case Some(x) => Some(Unknown(x)) case None => None
    else if op == "CALL" then Some(CallTo(Dest(args, labels)))
    else if op == "RET" then Some(Ret)
    else if op == "JP" then Some(if |args| == 2 then JumpV0 else Jump(Dest(args, labels)))
    else if op in {"SE", "SNE", "SKP", "SKNP"} then Some(Skip)
    else Some(Other)
  }

  // ----------------------------------------------------------- the accesses

  datatype Kind = Read | Write | DynamicRead | DynamicWrite

  /** The record a statement asks for: reading or writing so many bytes at I. */
  function Touch(s: Stmt): Option<(Kind, Option<int>)>
  {
    match s
    case StoreDigits => Some((Write, Some(3)))
    case StoreRegs(n) => Some((Write, Some(n)))
    case LoadRegs(n) => Some((Read, Some(n)))
    case Sprite(n) => Some((Read, n))
    case _ => None
  }

  // ------------------------------------------------- the assembled statement

  predicate Straight(s: Stmt)
  {
    !(s.Skip? || s.Jump? || s.JumpV0? || s.CallTo? || s.Ret?)
  }

  /** The statement assembles to `op`, as far as control is concerned. */
  predicate Describes(s: Stmt, op: word)
  {
    if op == 0x00EE then s.Ret?
    else if op == 0x00E0 then Straight(s)
    else match Top(op)
      case 0x0 => false
      case 0x1 => s == Jump(Some(NNN(op)))
      case 0x2 => s == CallTo(Some(NNN(op)))
      case 0xB => s.JumpV0?
      case 0x3 => s.Skip?
      case 0x4 => s.Skip?
      case 0x5 => s.Skip?
      case 0x9 => s.Skip?
      case 0xE => s.Skip?
      case _ => Straight(s)
  }

  /** The bytes `op` reads or writes at I, as the machine does. */
  function Touches(op: word): Option<(Kind, nat)>
  {
    if Top(op) == 0xD then Some((Read, N(op)))
    else if Top(op) == 0xF && KK(op) == 0x33 then Some((Write, 3))
    else if Top(op) == 0xF && KK(op) == 0x55 then Some((Write, X(op) + 1))
    else if Top(op) == 0xF && KK(op) == 0x65 then Some((Read, X(op) + 1))
    else None
  }

  /** What the analysis makes of a statement that assembles to `op`: its control
      flow is right, and it asks for a record of the bytes `op` touches, except
      for LD Vx, [I], which it takes for a load of an unknown constant. */
  ghost predicate ReadRightly(s: Option<Stmt>, op: word)
  {
    && s.Some? && Describes(s.value, op)
    && (if Top(op) == 0xF && KK(op) == 0x65 then s.value.LdConst? && s.value.x == X(op) && Touch(s.value) == None
        else match Touches(op)
          case Some((kind, n)) => Touch(s.value) == Some((kind, Some(n as int)))
          case None => Touch(s.value) == None)
  }

  lemma {:induction false} RegisterRead(w: string)
    requires Asm.Register(w).Ok?
    ensures IsRegister(w) && Numbered(w) == Some(Asm.Register(w).value) && StartsV(w) && Asm.LooksLikeRegister(w)
    ensures w !in {"I", "DT", "ST", "F", "B", "[I]", "K"}
  {}

  /** An opcode with a register and no other operand. */
  lemma EncodedBare(base: word, x: nibble)
    requires base % 0x1000 < 0x100 && base < 0xF100
    ensures Top(Asm.Encode(base, x, 0)) == base / 0x1000 && X(Asm.Encode(base, x, 0)) == x
    ensures KK(Asm.Encode(base, x, 0)) == base % 0x100
  {
    var group: int, low: int, r: int := base / 0x1000, base % 0x1000, x;
    assert Asm.Encode(base, x, 0) == 0x1000 * group + 0x100 * r + low;
  }

  /** An opcode with a register and a byte. */
  lemma EncodedByte(base: word, x: nibble, low: byte)
    requires base % 0x1000 == 0 && base <= 0xF000
    ensures Top(Asm.Encode(base, x, low)) == base / 0x1000
  {}

  lemma AddressKind(base: word, z: nat)
    requires base in {0x1000, 0x2000, 0xA000, 0xB000} && z <= 0xFFF
    ensures base + z < 0x10000 && Top(base + z) == base / 0x1000 && NNN(base + z) == z
    ensures base + z != 0x00E0 && base + z != 0x00EE
  {}

  lemma GroupKinds()
    ensures 0x6000 / 0x1000 == 6 && 0x7000 / 0x1000 == 7 && 0x8000 / 0x1000 == 8 && 0x8004 / 0x1000 == 8 && 0xF01E / 0x1000 == 0xF
    ensures 0xA000 / 0x1000 == 0xA && 0xC000 / 0x1000 == 0xC && 0xD000 / 0x1000 == 0xD
    ensures 0x3000 / 0x1000 == 3 && 0x4000 / 0x1000 == 4 && 0x5000 / 0x1000 == 5 && 0x9000 / 0x1000 == 9
  {}

  /** The groups whose statements the analysis passes straight through, and in
      which nothing is touched. */
  lemma {:induction false} StraightRead(s: Stmt, op: word)
    requires Top(op) in {6, 7, 8, 0xA, 0xC} && Straight(s) && Touch(s) == None
    ensures ReadRightly(Some(s), op)
  {
    NotSystem(op);
    hide Top, KK, X, N;
  }

  lemma {:induction false} SkipRead(op: word)
    requires Top(op) in {3, 4, 5, 9, 0xE}
    ensures ReadRightly(Some(Skip), op)
  {
    NotSystem(op);
    hide Top, KK, X, N;
  }

  lemma {:induction false} MiscRead(s: Stmt, op: word)
    requires Top(op) == 0xF && Straight(s)
    requires
      if KK(op) == 0x65 then s.LdConst? && s.x == X(op)
      else if KK(op) == 0x33 then s == StoreDigits
      else if KK(op) == 0x55 then s == StoreRegs(X(op) + 1)
      else Touch(s) == None
    ensures ReadRightly(Some(s), op)
  {
    NotSystem(op);
    hide Top, KK, X, N;
  }

  /** The forms of LD whose first operand is no register. */
  lemma {:induction false} LoadSpecial(a: string, b: string, symbols: Asm.Symbols)
    requires a in {"I", "DT", "ST", "F", "B", "[I]"}
    requires Asm.LoadTo(["LD", a, b], symbols, true).Ok?
    ensures ReadRightly(LoadTo(a, b, symbols), Asm.LoadTo(["LD", a, b], symbols, true).value)
  {
    hide ReadRightly, Asm.Register, Asm.Encode, IsRegister, Numbered, StartsV, Touch, Straight;
    var out := Asm.LoadTo(["LD", a, b], symbols, true);
    GroupKinds();
    if a == "I" {
      AddressKind(0xA000, Asm.Ranged(b, 0xFFF, symbols, true).value);
      LdIStraight(Resolve(b, symbols));
      StraightRead(LdI(Resolve(b, symbols)), out.value);
    } else {
      RegisterRead(b);
      var x := Asm.Register(b).value;
      var base := if a == "DT" then 0xF015 else if a == "ST" then 0xF018 else if a == "F" then 0xF029 else if a == "B" then 0xF033 else 0xF055;
      EncodedBare(base, x);
      assert 0xF015 / 0x1000 == 0xF018 / 0x1000 == 0xF029 / 0x1000 == 0xF033 / 0x1000 == 0xF055 / 0x1000 == 0xF;
      MiscStmts(x);
      NoRegister(a);
      MiscRead(LoadTo(a, b, symbols).value, out.value);
    }
  }

  lemma LdIStraight(v: Option<int>)
    ensures Straight(LdI(v)) && Touch(LdI(v)) == None
  {}

  lemma MiscStmts(x: nibble)
    ensures Straight(Other) && Touch(Other) == None && Straight(LdF) && Touch(LdF) == None
    ensures Straight(StoreDigits) && Straight(StoreRegs(x + 1))
    ensures forall v :: Straight(LdConst(x, v)) && Touch(LdConst(x, v)) == None && Straight(AddConst(x, v)) && Touch(AddConst(x, v)) == None
    ensures forall y :: Straight(LdReg(x, y)) && Touch(LdReg(x, y)) == None && Straight(AddReg(x, y)) && Touch(AddReg(x, y)) == None
    ensures Straight(AddI(Some(x))) && Touch(AddI(Some(x))) == None
    ensures Straight(Unknown(x)) && Touch(Unknown(x)) == None
  {}

  lemma NoRegister(a: string)
    requires a in {"I", "DT", "ST", "F", "B", "[I]"}
    ensures !IsRegister(a) && !StartsV(a)
  {}

  /** LD with a register in front. */
  lemma {:induction false} LoadPlain(a: string, b: string, symbols: Asm.Symbols)
    requires a !in {"I", "DT", "ST", "F", "B", "[I]"}
    requires Asm.LoadTo(["LD", a, b], symbols, true).Ok?
    ensures ReadRightly(LoadTo(a, b, symbols), Asm.LoadTo(["LD", a, b], symbols, true).value)
  {
    hide ReadRightly, Asm.Register, Asm.Encode, IsRegister, Numbered, StartsV, Touch, Straight, Asm.LooksLikeRegister, Asm.Ranged;
    var out := Asm.LoadTo(["LD", a, b], symbols, true);
    RegisterRead(a);
    var x := Asm.Register(a).value;
    RegisterDigit(a);
    GroupKinds();
    MiscStmts(x);
    if b in {"DT", "K", "[I]"} {
      NoV(b);
      var base := if b == "DT" then 0xF007 else if b == "K" then 0xF00A else 0xF065;
      EncodedBare(base, x);
      assert 0xF007 / 0x1000 == 0xF00A / 0x1000 == 0xF065 / 0x1000 == 0xF;
      MiscRead(LdConst(x, Resolve(b, symbols)), out.value);
    } else {
      LooksV(b);
      RegisterOrByteRead(x, b, 0x8000, 0x6000, symbols);
      StraightRead(LoadTo(a, b, symbols).value, out.value);
    }
  }

  lemma RegisterDigit(a: string)
    requires Asm.Register(a).Ok?
    ensures |a| == 2 && Digit(a[1]) == Some(Asm.Register(a).value)
  {}

  lemma NoV(b: string)
    requires b in {"DT", "K", "[I]"}
    ensures !StartsV(b)
  {}

  lemma LooksV(b: string)
    ensures StartsV(b) <==> Asm.LooksLikeRegister(b)
  {}

  /** The opcode of a register or byte form, and what the optimizer needs of the
      register form. */
  lemma {:induction false} RegisterOrByteRead(x: nibble, b: string, reg: word, byt: word, symbols: Asm.Symbols)
    requires reg % 0x1000 < 0x10 && reg <= 0xF000 && byt % 0x1000 == 0 && byt <= 0xF000
    requires Asm.RegisterOrByte(x, b, reg, byt, symbols, true).Ok?
    ensures
      var op := Asm.RegisterOrByte(x, b, reg, byt, symbols, true).value;
      Top(op) == (if StartsV(b) then reg else byt) / 0x1000
    ensures StartsV(b) ==> Asm.Register(b).Ok? && Numbered(b) == Some(Asm.Register(b).value)
  {
    hide Asm.Register, Asm.Encode, Asm.Ranged, IsRegister, Numbered, Top;
    LooksV(b);
    if StartsV(b) {
      RegisterRead(b);
      XYKind(reg, x, Asm.Register(b).value);
    } else {
      EncodedByte(byt, x, Asm.Ranged(b, 0xFF, symbols, true).value);
    }
  }

  lemma XYKind(base: word, x: nibble, y: nibble)
    requires base % 0x1000 < 0x10 && base <= 0xF000
    ensures Top(Asm.Encode(base, x, 0x10 * y)) == base / 0x1000
  {}

  lemma {:induction false} AddRead(a: string, b: string, symbols: Asm.Symbols)
    requires Asm.Add(["ADD", a, b], symbols, true).Ok?
    ensures ReadRightly(Add(a, b, symbols), Asm.Add(["ADD", a, b], symbols, true).value)
  {
    hide ReadRightly, Asm.Register, Asm.Encode, IsRegister, Numbered, StartsV, Touch, Straight, Asm.LooksLikeRegister, Asm.Ranged;
    var out := Asm.Add(["ADD", a, b], symbols, true);
    GroupKinds();
    if a == "I" {
      RegisterRead(b);
      var x := Asm.Register(b).value;
      MiscStmts(x);
      EncodedBare(0xF01E, x);
      MiscRead(AddI(Some(x)), out.value);
    } else {
      RegisterRead(a);
      var x := Asm.Register(a).value;
      MiscStmts(x);
      LooksV(b);
      RegisterOrByteRead(x, b, 0x8004, 0x7000, symbols);
      StraightRead(Add(a, b, symbols).value, out.value);
    }
  }

  lemma {:induction false} DrawRead(a: string, b: string, c: string, symbols: Asm.Symbols)
    requires Asm.Draw(["DRW", a, b, c], symbols, true).Ok?
    ensures ReadRightly(Some(Sprite(Resolve(c, symbols))), Asm.Draw(["DRW", a, b, c], symbols, true).value) <==> Alike(c, symbols)
  {
    hide Asm.Register, ReadRightly, Asm.Encode, Top, N, Resolve, Asm.Value;
    var x, y, z := Asm.Register(a).value, Asm.Register(b).value, Asm.Ranged(c, 0xF, symbols, true).value;
    DrawKind(x, y, z);
    assert Asm.Value(c, symbols, true) == Asm.Ok(z);
    SpriteRead(Asm.Draw(["DRW", a, b, c], symbols, true).value, Resolve(c, symbols));
  }

  lemma {:induction false} SpriteRead(op: word, rows: Option<int>)
    requires Top(op) == 0xD
    ensures ReadRightly(Some(Sprite(rows)), op) <==> rows == Some(N(op) as int)
  {
    NotSystem(op);
    hide Top, N, X, KK;
  }

  lemma DrawKind(x: nibble, y: nibble, z: int)
    requires 0 <= z <= 0xF
    ensures 0x10 * y + z < 0x100 && var op := Asm.Encode(0xD000, x, 0x10 * y + z); Top(op) == 0xD && N(op) == z && op !in {0x00E0, 0x00EE}
  {}

  /** RND, and the 8xyn mnemonics but LD and ADD. */
  lemma {:induction false} ResultRead(ws: seq<string>, symbols: Asm.Symbols)
    requires ws != [] && ws[0] in {"RND", "OR", "AND", "XOR", "SUB", "SUBN", "SHR", "SHL"}
    requires Asm.Instruction(ws, symbols, true).Ok?
    ensures |ws| > 1 && StartsV(ws[1]) && Numbered(ws[1]).Some?
    ensures Top(Asm.Instruction(ws, symbols, true).value) in {8, 0xC}
  {
    hide Asm.Register, Asm.Encode, Asm.Ranged, Numbered, StartsV, Top;
    if |ws| > 1 && Asm.Register(ws[1]).Ok? {
      RegisterRead(ws[1]);
      var x := Asm.Register(ws[1]).value;
      GroupKinds();
      var op := ws[0];
      if op == "RND" {
        EncodedByte(0xC000, x, Asm.Ranged(ws[2], 0xFF, symbols, true).value);
      } else {
        var low: nibble := if op == "OR" then 1 else if op == "AND" then 2 else if op == "XOR" then 3 else if op == "SUB" then 5
          else if op == "SHR" then 6 else if op == "SUBN" then 7 else 0xE;
        var y: nibble := if |ws| == 3 then Asm.Register(ws[2]).value else 0;
        XYKind(0x8000 + low, x, y);
        LowTop(low);
        assert Asm.Instruction(ws, symbols, true).value == Asm.Encode(0x8000 + low, x, 0x10 * y);
      }
    }
  }

  lemma LowTop(low: nibble)
    ensures (0x8000 + low) / 0x1000 == 8
  {}

  /** The statements whose control flow or record depends on the value of an
      operand: JP and CALL with one operand, and DRW. */
  predicate UsesValue(ws: seq<string>)
  {
    |ws| > 1 && (ws[0] == "DRW" || ws[0] == "CALL" || (ws[0] == "JP" && |ws| == 2))
  }

  lemma {:induction false} JumpRead(ws: seq<string>, symbols: Asm.Symbols)
    requires ws != [] && ws[0] in {"JP", "CALL"}
    requires Asm.Instruction(ws, symbols, true).Ok?
    ensures |ws| > 1 && Classify(ws[0], ws[1..], symbols).Some?
    ensures ReadRightly(Classify(ws[0], ws[1..], symbols), Asm.Instruction(ws, symbols, true).value) <==>
      (UsesValue(ws) ==> Alike(ws[|ws| - 1], symbols))
  {
    hide ReadRightly, Asm.Value, Top, NNN, KK;
    var last := ws[|ws| - 1];
    var z := Asm.Ranged(last, 0xFFF, symbols, true).value;
    assert Asm.Value(last, symbols, true) == Asm.Ok(z);
    assert |ws| > 1 ==> ws[1..][|ws| - 2] == last;
    assert Dest(ws[1..], symbols) == Resolve(last, symbols);
    AddressKind(if |ws| == 3 then 0xB000 else if ws[0] == "JP" then 0x1000 else 0x2000, z);
    JumpKinds(Asm.Instruction(ws, symbols, true).value, Resolve(last, symbols));
  }

  lemma {:induction false} JumpKinds(op: word, dest: Option<int>)
    ensures Top(op) == 1 ==> (ReadRightly(Some(Jump(dest)), op) <==> dest == Some(NNN(op) as int))
    ensures Top(op) == 2 ==> (ReadRightly(Some(CallTo(dest)), op) <==> dest == Some(NNN(op) as int))
    ensures Top(op) == 0xB ==> ReadRightly(Some(JumpV0), op)
  {
    NotSystem(op);
    hide Top, NNN, KK;
  }

  lemma {:induction false} SkipsRead(ws: seq<string>, symbols: Asm.Symbols)
    requires ws != [] && ws[0] in {"SE", "SNE", "SKP", "SKNP"}
    requires Asm.Instruction(ws, symbols, true).Ok?
    ensures ReadRightly(Some(Skip), Asm.Instruction(ws, symbols, true).value)
  {
    hide ReadRightly, Asm.Register, Asm.Encode, Asm.RegisterOrByte, Top;
    var op := Asm.Instruction(ws, symbols, true).value;
    var x := Asm.Register(ws[1]).value;
    GroupKinds();
    if ws[0] in {"SE", "SNE"} {
      RegisterOrByteRead(x, ws[2], if ws[0] == "SE" then 0x5000 else 0x9000, if ws[0] == "SE" then 0x3000 else 0x4000, symbols);
    } else {
      EncodedBare(0xE09E, x);
      EncodedBare(0xE0A1, x);
      assert 0xE09E / 0x1000 == 0xE0A1 / 0x1000 == 0xE;
    }
    SkipRead(op);
  }

  lemma BareRead()
    ensures ReadRightly(Some(Other), 0x00E0) && ReadRightly(Some(Ret), 0x00EE)
  {
    assert Top(0x00E0) == 0 == Top(0x00EE);
  }

  /** Every statement the assembler accepts is read by the analysis without an
      exception. It is read as what it assembles to (the same control flow, and a
      record of the same bytes read or written at I, except for LD Vx, [I])
      exactly when the operand this depends on, if there is one, is read alike:
      when it is a label or a plain number. */
  lemma {:induction false} Classified(ws: seq<string>, symbols: Asm.Symbols)
    requires WellNamed(symbols) && ws != [] && Asm.Instruction(ws, symbols, true).Ok?
    ensures Classify(ws[0], ws[1..], symbols).Some?
    ensures ReadRightly(Classify(ws[0], ws[1..], symbols), Asm.Instruction(ws, symbols, true).value) <==>
      (UsesValue(ws) ==> ws[|ws| - 1] in symbols || PlainNumber(ws[|ws| - 1]))
  {
    Classifies(ws, symbols);
    if UsesValue(ws) { UsedValue(ws, symbols); AlikeExact(ws[|ws| - 1], symbols); }
    hide ReadRightly, Asm.Instruction, Classify, Alike, PlainNumber, WellNamed;
  }

  lemma {:induction false} UsedValue(ws: seq<string>, symbols: Asm.Symbols)
    requires ws != [] && Asm.Instruction(ws, symbols, true).Ok? && UsesValue(ws)
    ensures Asm.Value(ws[|ws| - 1], symbols, true).Ok?
  {
    hide Asm.Value, Asm.Register, Asm.Encode;
  }

  lemma {:induction false} ValueGroups(ws: seq<string>, symbols: Asm.Symbols)
    requires ws != [] && Asm.Instruction(ws, symbols, true).Ok? && UsesValue(ws)
    ensures Top(Asm.Instruction(ws, symbols, true).value) in {1, 2, 0xB, 0xD}
  {
    hide Asm.Value, Asm.Register, Asm.Encode, Top;
    var last := ws[|ws| - 1];
    if ws[0] == "DRW" {
      var x, y, z := Asm.Register(ws[1]).value, Asm.Register(ws[2]).value, Asm.Ranged(ws[3], 0xF, symbols, true).value;
      DrawKind(x, y, z);
    } else {
      AddressKind(if ws[0] == "JP" then 0x1000 else 0x2000, Asm.Ranged(last, 0xFFF, symbols, true).value);
    }
  }

  lemma {:induction false} Classifies(ws: seq<string>, symbols: Asm.Symbols)
    requires ws != [] && Asm.Instruction(ws, symbols, true).Ok?
    ensures Classify(ws[0], ws[1..], symbols).Some?
    ensures ReadRightly(Classify(ws[0], ws[1..], symbols), Asm.Instruction(ws, symbols, true).value) <==>
      (UsesValue(ws) ==> Alike(ws[|ws| - 1], symbols))
  {
    hide ReadRightly, Asm.LoadTo, Asm.Add, Asm.Draw, Asm.Skip, Asm.SkipKey, Asm.Jump, Asm.CallTo, Asm.Logic, Asm.Shift, Asm.Random,
      LoadTo, Add, Numbered, StartsV, Alike;
    var m := ws[0];
    match m
    case "LD" => LoadRead(ws, symbols);
    case "ADD" => ThreeWords(ws, symbols);
      assert ws == ["ADD", ws[1], ws[2]];
      AddRead(ws[1], ws[2], symbols);
      SomeRead(Add(ws[1], ws[2], symbols), Asm.Instruction(ws, symbols, true).value);
    case "DRW" => FourWords(ws, symbols);
      assert ws == ["DRW", ws[1], ws[2], ws[3]];
      DrawRead(ws[1], ws[2], ws[3], symbols);
    case "JP" => JumpRead(ws, symbols);
    case "CALL" => JumpRead(ws, symbols);
    case "CLS" => BareRead();
    case "RET" => BareRead();
    case _ =>
      if m in {"SE", "SNE", "SKP", "SKNP"} {
        SkipsRead(ws, symbols);
      } else {
        ResultRead(ws, symbols);
        var x := Numbered(ws[1]).value;
        MiscStmts(x) by { hide Straight, Touch; }
        StraightRead(Unknown(x), Asm.Instruction(ws, symbols, true).value);
      }
  }

  lemma ThreeWords(ws: seq<string>, symbols: Asm.Symbols)
    requires Asm.Add(ws, symbols, true).Ok? || Asm.LoadTo(ws, symbols, true).Ok?
    ensures |ws| == 3
  {}

  lemma FourWords(ws: seq<string>, symbols: Asm.Symbols)
    requires Asm.Draw(ws, symbols, true).Ok?
    ensures |ws| == 4
  {}

  lemma {:induction false} LoadRead(ws: seq<string>, symbols: Asm.Symbols)
    requires ws != [] && ws[0] == "LD" && Asm.Instruction(ws, symbols, true).Ok?
    ensures Classify(ws[0], ws[1..], symbols).Some?
    ensures ReadRightly(Classify(ws[0], ws[1..], symbols), Asm.Instruction(ws, symbols, true).value)
  {
    hide ReadRightly, Asm.LoadTo, LoadTo;
    ThreeWords(ws, symbols);
    assert ws == ["LD", ws[1], ws[2]];
    if ws[1] in {"I", "DT", "ST", "F", "B", "[I]"} {
      LoadSpecial(ws[1], ws[2], symbols);
    } else {
      LoadPlain(ws[1], ws[2], symbols);
    }
    SomeRead(LoadTo(ws[1], ws[2], symbols), Asm.Instruction(ws, symbols, true).value);
  }

  lemma SomeRead(s: Option<Stmt>, op: word)
    requires ReadRightly(s, op)
    ensures s.Some?
  {}

  /** A jump the assembler accepts and the analysis takes for unresolved. */
  lemma {:induction false} JumpMisread(symbols: Asm.Symbols)
    requires WellNamed(symbols)
    ensures Asm.Instruction(["JP", "+0X300"], symbols, true) == Asm.Ok(0x1300)
    ensures Classify("JP", ["+0X300"], symbols) == Some(Jump(None))
    ensures !ReadRightly(Classify("JP", ["+0X300"], symbols), 0x1300)
  {
    hide ParseNumber, ReadRightly;
    HexWord();
    assert "+0X300" !in symbols by { hide Asm.IsName; if "+0X300" in symbols { NameNoNumber("+0X300"); } }
    assert Top(0x1300) == 1 && NNN(0x1300) == 0x300;
    JumpKinds(0x1300, None);
  }
}
