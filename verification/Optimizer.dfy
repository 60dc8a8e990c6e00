/** The optimizer's loop, on what it looks at: the words of the statements. Under
    the assembler's reading its edit is one that module Peephole allows, unless a
    label is called I or a number is written with a sign; both failures are shown. */
module Optimizer {
  import opened Chip8
  import opened Bench
  import opened Text
  import opened Numbers
  import opened Peephole
  import Asm
  import S = Statements

  // -------------------------------------------------------------- the rules

  predicate LoadText(t: seq<string>) { |t| == 3 && t[0] == "LD" }

  predicate AddText(t: seq<string>) { |t| == 3 && t[0] == "ADD" && S.IsRegister(t[1]) }

  /** LD a, a. */
  predicate SameOperands(t: seq<string>) { LoadText(t) && t[1] == t[2] }

  predicate AddsZero(t: seq<string>) { AddText(t) && ParseNumber(t[2]) == Some(0) }

  predicate NoOpText(t: seq<string>) { SameOperands(t) || AddsZero(t) }

  /** LD Vx, kk before ADD Vx, kk. */
  predicate FoldsText(a: seq<string>, b: seq<string>)
  {
    && LoadText(a) && S.IsRegister(a[1]) && AddText(b) && a[1] == b[1]
    && ParseNumber(a[2]).Some? && ParseNumber(b[2]).Some?
  }

  function SumText(a: seq<string>, b: seq<string>): byte
  {
    if FoldsText(a, b) then (ParseNumber(a[2]).value + ParseNumber(b[2]).value) % 0x100 else 0
  }

  /** LD before LD of the same place, the first not from K. */
  predicate OverwrittenText(a: seq<string>, b: seq<string>)
  {
    LoadText(a) && LoadText(b) && a[1] == b[1] && (a[1] == "I" || S.IsRegister(a[1])) && a[2] != "K"
  }

  /** CALL of something resolved before RET. */
  predicate TailText(s: Stmt, next: Stmt)
    requires s.Insn?
  {
    && |s.text| == 2 && s.text[0] == "CALL" && (s.target.Some? || ParseNumber(s.text[1]).Some?)
    && next.text != [] && next.text[0] == "RET"
  }

  predicate Adjacent(p: Source, i: nat)
  {
    i + 1 < |p| && p[i].Insn? && p[i + 1].Insn? && !p[i + 1].Apart()
  }

  /** The statement is dropped into the constant load before it. */
  predicate FoldedText(p: Source, e: Edit, i: nat)
    requires i < |p|
  {
    && i > 0 && i in e.drop && i - 1 in e.total && i - 1 !in e.drop
    && p[i].Insn? && p[i - 1].Insn? && FoldsText(p[i - 1].text, p[i].text) && e.total[i - 1] == SumText(p[i - 1].text, p[i].text)
  }

  predicate DeadText(p: Source, i: nat)
  {
    Adjacent(p, i) && OverwrittenText(p[i].text, p[i + 1].text)
  }

  predicate TailAt(p: Source, i: nat)
  {
    Adjacent(p, i) && TailText(p[i], p[i + 1])
  }

  ghost predicate DropText(p: Source, e: Edit, i: nat)
  {
    i < |p| && p[i].Insn? && !Protected(p, i) && (FoldedText(p, e, i) || NoOpText(p[i].text) || DeadText(p, i))
  }

  /** An edit the optimizer makes. */
  ghost predicate Planned(p: Source, e: Edit)
  {
    && (forall i :: i in e.drop ==> DropText(p, e, i))
    && (forall i :: i in e.total ==> i + 1 < |p| && FoldedText(p, e, i + 1))
    && (forall i :: i in e.turn ==> TailAt(p, i))
  }

  // --------------------------------------------------------------- the loop

  method IsProtected(p: Source, i: nat) returns (b: bool)
    requires i < |p|
    ensures b <==> Protected(p, i)
  {
    b := i == 0 || p[i].Labelled();
    var here := Old(p, i);
    for j := 0 to |p|
      invariant b <==>
        || i == 0 || p[i].Labelled()
        || (exists k :: 0 <= k < j && p[k].Insn? && IsJump(p[k].op) && p[k].target == Some(i))
        || (exists k :: 0 <= k < j && p[k].Insn? && IsSkip(p[k].op) && (Old(p, k) + 2 == here || Old(p, k) + 4 == here))
    {
      if p[j].Insn? && IsJump(p[j].op) && p[j].target == Some(i) { b := true; }
      if p[j].Insn? && IsSkip(p[j].op) && (Old(p, j) + 2 == here || Old(p, j) + 4 == here) { b := true; }
    }
  }

  ghost predicate Free(p: Source, pinned: set<nat>, i: nat)
    requires i < |p|
  {
    !Protected(p, i) && i !in pinned
  }

  /** The edit with statement `i + 1` folded into `i`. */
  function WithFold(e: Edit, i: nat, v: byte): Edit
  {
    Edit({i + 1} + e.drop, map[i := v] + e.total, e.turn)
  }

  /** What the optimizer does with the statements from `i` on. */
  ghost function Plan(p: Source, pinned: set<nat>, i: nat): Edit
    decreases |p| - i
  {
    if i >= |p| then UNCHANGED
    else if Adjacent(p, i) && Free(p, pinned, i + 1) && FoldsText(p[i].text, p[i + 1].text) then
      var rest := Plan(p, pinned, i + 2);
      WithFold(rest, i, SumText(p[i].text, p[i + 1].text))
    else
      var rest := Plan(p, pinned, i + 1);
      if TailAt(p, i) then rest.(turn := {i} + rest.turn)
      else if p[i].Insn? && Free(p, pinned, i) && (NoOpText(p[i].text) || DeadText(p, i)) then rest.(drop := {i} + rest.drop)
      else rest
  }

  function Joined(a: Edit, b: Edit): Edit { Edit(a.drop + b.drop, a.total + b.total, a.turn + b.turn) }

  ghost predicate Below(e: Edit, i: nat)
  {
    (forall k :: k in e.drop ==> k < i) && (forall k :: k in e.total ==> k + 1 < i) && forall k :: k in e.turn ==> k < i
  }

  /** The loop of optimize_peepholes. `pinned` are statements that must stay put
      because of a data-relative base. */
  method Optimize(p: Source, pinned: set<nat>) returns (e: Edit)
    ensures e == Plan(p, pinned, 0) && Planned(p, e)
  {
    hide Protected, NoOpText, FoldsText, OverwrittenText, SumText, Planned, TailText;
    e := UNCHANGED;
    NothingYet(p, pinned);
    var i := 0;
    while i < |p|
      invariant i <= |p| && Joined(e, Plan(p, pinned, i)) == Plan(p, pinned, 0)
      invariant Planned(p, e) && Below(e, i)
    {
      var next := Adjacent(p, i);
      var freeNext := false;
      if next {
        var guarded := IsProtected(p, i + 1);
        freeNext := !guarded && i + 1 !in pinned;
      }
      var guarded := IsProtected(p, i);
      var free := !guarded && i !in pinned;
      if next && freeNext && FoldsText(p[i].text, p[i + 1].text) {
        var total := SumText(p[i].text, p[i + 1].text);
        FoldPlanned(p, e, i, total, Plan(p, pinned, i + 2));
        e := WithFold(e, i, total);
        i := i + 2;
      } else {
        if next && TailText(p[i], p[i + 1]) {
          TurnPlanned(p, e, i, Plan(p, pinned, i + 1));
          e := e.(turn := e.turn + {i});
        } else if p[i].Insn? && free && (NoOpText(p[i].text) || (next && OverwrittenText(p[i].text, p[i + 1].text))) {
          DropPlanned(p, e, i, Plan(p, pinned, i + 1));
          e := e.(drop := e.drop + {i});
        }
        i := i + 1;
      }
    }
    assert Joined(e, UNCHANGED) == e;
  }

  lemma NothingYet(p: Source, pinned: set<nat>)
    ensures Planned(p, UNCHANGED) && Joined(UNCHANGED, Plan(p, pinned, 0)) == Plan(p, pinned, 0)
  {
    var r := Plan(p, pinned, 0);
    assert {} + r.drop == r.drop && map[] + r.total == r.total && {} + r.turn == r.turn;
  }

  lemma {:induction false} FoldPlanned(p: Source, e: Edit, i: nat, v: byte, rest: Edit)
    requires Adjacent(p, i) && FoldsText(p[i].text, p[i + 1].text) && v == SumText(p[i].text, p[i + 1].text)
    requires !Protected(p, i + 1) && Planned(p, e) && Below(e, i)
    ensures Planned(p, WithFold(e, i, v)) && Below(WithFold(e, i, v), i + 2)
    ensures Joined(WithFold(e, i, v), rest) == Joined(e, WithFold(rest, i, v))
  {
    hide Protected, FoldsText, SumText, NoOpText, OverwrittenText, TailAt;
    var now := WithFold(e, i, v);
    assert i !in e.total && i + 1 !in e.drop;
    EditGrows(p, e, now, i + 1);
    assert FoldedText(p, now, i + 1);
    assert map[i := v] + e.total + rest.total == e.total + (map[i := v] + rest.total);
    assert {i + 1} + e.drop + rest.drop == e.drop + ({i + 1} + rest.drop);
  }

  lemma {:induction false} DropPlanned(p: Source, e: Edit, i: nat, rest: Edit)
    requires Planned(p, e) && Below(e, i) && i < |p| && p[i].Insn? && !Protected(p, i) && (NoOpText(p[i].text) || DeadText(p, i))
    ensures
      var now := e.(drop := e.drop + {i});
      Planned(p, now) && Below(now, i + 1) && Joined(now, rest) == Joined(e, rest.(drop := {i} + rest.drop))
  {
    hide Protected, NoOpText, OverwrittenText, FoldsText, SumText, TailAt;
    EditGrows(p, e, e.(drop := e.drop + {i}), i);
    assert e.drop + {i} + rest.drop == e.drop + ({i} + rest.drop);
  }

  lemma {:induction false} TurnPlanned(p: Source, e: Edit, i: nat, rest: Edit)
    requires Planned(p, e) && Below(e, i) && TailAt(p, i)
    ensures
      var now := e.(turn := e.turn + {i});
      Planned(p, now) && Below(now, i + 1) && Joined(now, rest) == Joined(e, rest.(turn := {i} + rest.turn))
  {
    hide Protected, NoOpText, OverwrittenText, FoldsText, SumText, TailAt;
    assert forall k :: k in e.drop ==> DropText(p, e, k);
    assert e.turn + {i} + rest.turn == e.turn + ({i} + rest.turn);
  }

  /** Dropping `i`, above everything handled so far, leaves the rest as it was. */
  lemma {:induction false} EditGrows(p: Source, was: Edit, now: Edit, i: nat)
    requires Planned(p, was) && i < |p| && now.drop == was.drop + {i}
    requires (forall k :: k in was.drop ==> k < i) && (forall k :: k in was.total ==> k + 1 < i)
    requires forall k :: k in was.total ==> k in now.total && now.total[k] == was.total[k]
    ensures forall k :: k in was.drop ==> DropText(p, now, k)
    ensures forall k :: k in was.total ==> k + 1 < |p| && FoldedText(p, now, k + 1)
  {
    hide Protected, NoOpText, FoldsText, OverwrittenText, SumText;
  }

  // ----------------------------------------------- what the words assemble to

  /** The statement's words assemble to its opcode. */
  ghost predicate EncodesAt(s: Stmt, symbols: Asm.Symbols)
  {
    s.Insn? ==> s.text != [] && Asm.Instruction(s.text, symbols, true) == Asm.Ok(s.op)
  }

  /** A source the assembler accepts, with its symbol table. */
  ghost predicate Encodes(p: Source, symbols: Asm.Symbols)
  {
    WellNamed(symbols) && forall i :: 0 <= i < |p| ==> EncodesAt(p[i], symbols)
  }

  lemma {:induction false} LoadOp(t: seq<string>, symbols: Asm.Symbols)
    requires LoadText(t) && Asm.Instruction(t, symbols, true).Ok?
    ensures Asm.LoadTo(t, symbols, true) == Asm.Instruction(t, symbols, true)
  {
    hide Asm.LoadTo;
  }

  /** A load with a register in front. */
  lemma {:induction false} RegisterLoad(t: seq<string>, symbols: Asm.Symbols)
    requires LoadText(t) && S.IsRegister(t[1]) && Asm.Instruction(t, symbols, true).Ok?
    ensures
      var op := Asm.Instruction(t, symbols, true).value;
      && LoadsRegister(op) && X(op) == S.Digit(t[1][1]).value
      && (WaitsForKey(op) <==> t[2] == "K")
      && (t[2] !in {"DT", "K", "[I]"} ==>
            if Asm.LooksLikeRegister(t[2])
            then Asm.Register(t[2]).Ok? && Top(op) == 8 && N(op) == 0 && Y(op) == Asm.Register(t[2]).value
            else Asm.Ranged(t[2], 0xFF, symbols, true).Ok? && Top(op) == 6 && KK(op) == Asm.Ranged(t[2], 0xFF, symbols, true).value)
  {
    hide Asm.Encode, Asm.Ranged, Asm.LooksLikeRegister, Top, X, Y, N, KK;
    LoadOp(t, symbols);
    RegisterFront(t[1]);
    var x := S.Digit(t[1][1]).value;
    if t[2] in {"DT", "K", "[I]"} {
      var base := if t[2] == "DT" then 0xF007 else if t[2] == "K" then 0xF00A else 0xF065;
      S.EncodedBare(base, x);
      assert 0xF007 / 0x1000 == 0xF00A / 0x1000 == 0xF065 / 0x1000 == 0xF && 0xF007 % 0x100 == 7 && 0xF00A % 0x100 == 10 && 0xF065 % 0x100 == 0x65;
    } else if Asm.LooksLikeRegister(t[2]) {
      PairKind(x, Asm.Register(t[2]).value);
    } else {
      ByteKind(0x6000, x, Asm.Ranged(t[2], 0xFF, symbols, true).value);
    }
  }

  lemma RegisterFront(w: string)
    requires S.IsRegister(w)
    ensures Asm.Register(w) == Asm.Ok(S.Digit(w[1]).value) && w !in {"I", "DT", "ST", "F", "B", "[I]"}
  {}

  lemma PairKind(x: nibble, y: nibble)
    ensures
      var yi: int := y;
      var op := Asm.Encode(0x8000, x, 0x10 * yi);
      Top(op) == 8 && N(op) == 0 && X(op) == x && Y(op) == y
  {}

  lemma ByteKind(base: word, x: nibble, k: byte)
    requires base == 0x6000 || base == 0x7000
    ensures var op := Asm.Encode(base, x, k); Top(op) == base / 0x1000 && X(op) == x && KK(op) == k
  {}

  /** LD I, a. */
  lemma {:induction false} IndexLoad(t: seq<string>, symbols: Asm.Symbols)
    requires LoadText(t) && t[1] == "I" && Asm.Instruction(t, symbols, true).Ok?
    ensures
      var op := Asm.Instruction(t, symbols, true).value;
      LoadsI(op) && Asm.Value(t[2], symbols, true) == Asm.Ok(NNN(op))
  {
    LoadOp(t, symbols);
    S.AddressKind(0xA000, Asm.Ranged(t[2], 0xFFF, symbols, true).value);
    hide Asm.Value, NNN;
  }

  lemma {:induction false} AddOp(t: seq<string>, symbols: Asm.Symbols)
    requires AddText(t) && Asm.Instruction(t, symbols, true).Ok? && ParseNumber(t[2]).Some?
    ensures
      var op := Asm.Instruction(t, symbols, true).value;
      && Asm.Ranged(t[2], 0xFF, symbols, true).Ok? && Top(op) == 7 && X(op) == S.Digit(t[1][1]).value
      && KK(op) == Asm.Ranged(t[2], 0xFF, symbols, true).value
  {
    hide Asm.Encode, Asm.Ranged, Top, X, KK, ParseNumber;
    RegisterFront(t[1]);
    NumberNoRegister(t[2]);
    ByteKind(0x7000, S.Digit(t[1][1]).value, Asm.Ranged(t[2], 0xFF, symbols, true).value);
  }

  /** What Python reads as a number is no register, and no name the assembler
      gives a meaning to. */
  lemma {:induction false} NumberNoRegister(w: string)
    requires ParseNumber(w).Some?
    ensures !Asm.LooksLikeRegister(w) && w !in {"DT", "K", "[I]"} && !Asm.IsName(w)
  {
    hide Magnitude, Bare, ParseNumber;
    NotNumbers();
    NumberStart(w);
    if Asm.IsName(w) { NameNoNumber(w); }
  }

  lemma {:induction false} NumberStart(w: string)
    requires ParseNumber(w).Some?
    ensures w != "" && w[0] != 'V'
  {
    assert DigitValue('V') == 16;
    hide Magnitude, Bare, DigitValue;
  }

  lemma NotNumbers()
    ensures ParseNumber("DT") == None && ParseNumber("K") == None && ParseNumber("[I]") == None
  {
    assert DigitValue('D') == 13 && DigitValue('K') == 16 && DigitValue('[') == 16;
    hide Magnitude, Bare;
  }

  // ------------------------------------------------- LD a, a, and ADD Vx, 0

  /** What the no-op rule takes for one: LD Vx, Vx, or LD I, I with a label I. */
  lemma {:induction false} SameOperandsOp(t: seq<string>, symbols: Asm.Symbols)
    requires SameOperands(t) && Asm.Instruction(t, symbols, true).Ok?
    ensures
      var op := Asm.Instruction(t, symbols, true).value;
      if t[1] == "I" then "I" in symbols && LoadsI(op) && NNN(op) == symbols["I"]
      else S.IsRegister(t[1]) && NoOp(op)
  {
    hide S.IsRegister, Top, X, Y, N, KK, NNN, LoadsRegister;
    if t[1] == "I" {
      IndexLoad(t, symbols);
      IndexNoNumber();
    } else {
      SameFront(t, symbols);
      RegisterLoad(t, symbols);
      RegisterFront(t[1]);
    }
  }

  lemma IndexNoNumber()
    ensures Number("I") == None
  {}

  lemma {:induction false} SameFront(t: seq<string>, symbols: Asm.Symbols)
    requires SameOperands(t) && t[1] != "I" && Asm.Instruction(t, symbols, true).Ok?
    ensures S.IsRegister(t[1]) && Asm.LooksLikeRegister(t[1])
  {
    hide Asm.RegisterOrByte, Asm.Encode, S.IsRegister;
    LoadOp(t, symbols);
    assert Asm.Register("DT").Fail? && Asm.Register("ST").Fail? && Asm.Register("F").Fail? && Asm.Register("B").Fail? && Asm.Register("[I]").Fail?;
    S.RegisterRead(t[1]);
  }

  /** Deleting LD a, a is right on every machine exactly when a is not I. */
  lemma {:induction false} SameOperandsExact(t: seq<string>, symbols: Asm.Symbols)
    requires SameOperands(t) && Asm.Instruction(t, symbols, true).Ok?
    ensures (forall c: Core, inp: Input :: Harmless(Asm.Instruction(t, symbols, true).value, c, inp)) <==> t[1] != "I"
  {
    hide Asm.Instruction, LoadsI, NNN;
    var op := Asm.Instruction(t, symbols, true).value;
    SameOperandsOp(t, symbols);
    if t[1] != "I" {
      forall c: Core, inp: Input ensures Harmless(op, c, inp) { NoOpHarmless(op, c, inp); }
    } else {
      var c := Elsewhere(NNN(op));
      IndexMoves(op, c);
      assert !Harmless(op, c, NO_INPUT);
    }
  }

  /** The instruction changes nothing. */
  predicate Harmless(op: word, c: Core, inp: Input)
  {
    ExecStraight(op, c, inp) == Some(c)
  }

  lemma {:induction false} NoOpHarmless(op: word, c: Core, inp: Input)
    requires NoOp(op)
    ensures Harmless(op, c, inp)
  {
    NotSystem(op);
    hide Top, X, Y, N, KK, NNN, Load, Store, Bits;
    var v: int := c.regs[X(op)];
    assert c.regs[X(op) := c.regs[X(op)]] == c.regs;
  }

  /** A machine whose I is not `a`. */
  function Elsewhere(a: int): Core
  {
    Core(seq(0x10, _ => 0), if a == 0 then 1 else 0, 0, [], seq(0x1000, _ => 0), {})
  }

  lemma {:induction false} IndexMoves(op: word, c: Core)
    requires LoadsI(op) && c.i != NNN(op)
    ensures !Harmless(op, c, NO_INPUT)
  {
    LoadIStraight(op, c, NO_INPUT);
    hide NNN, LoadsI, ExecStraight;
  }

  lemma {:induction false} AddsZeroOp(t: seq<string>, symbols: Asm.Symbols)
    requires WellNamed(symbols) && AddsZero(t) && Asm.Instruction(t, symbols, true).Ok?
    ensures NoOp(Asm.Instruction(t, symbols, true).value)
  {
    hide Asm.Instruction, ParseNumber, Number, Top, X, Y, N, KK, Asm.IsName;
    AddOp(t, symbols);
    NumberNoRegister(t[2]);
    if Number(t[2]).Some? { ZeroAgrees(t[2]); }
  }

  // ------------------------------------------------------ overwritten loads

  lemma {:induction false} OverwrittenOps(a: seq<string>, b: seq<string>, symbols: Asm.Symbols)
    requires OverwrittenText(a, b) && Asm.Instruction(a, symbols, true).Ok? && Asm.Instruction(b, symbols, true).Ok?
    ensures Overwritten(Asm.Instruction(a, symbols, true).value, Asm.Instruction(b, symbols, true).value)
  {
    hide Asm.Instruction, S.IsRegister, Top, X, Y, N, KK, NNN, LoadsRegister;
    if a[1] == "I" {
      IndexLoad(a, symbols);
      IndexLoad(b, symbols);
    } else {
      RegisterLoad(a, symbols);
      RegisterLoad(b, symbols);
    }
  }

  // ---------------------------------------------------------- folded loads

  lemma {:induction false} FoldsOps(a: seq<string>, b: seq<string>, symbols: Asm.Symbols)
    requires WellNamed(symbols) && FoldsText(a, b) && Asm.Instruction(a, symbols, true).Ok? && Asm.Instruction(b, symbols, true).Ok?
    ensures
      var f, g := Asm.Instruction(a, symbols, true).value, Asm.Instruction(b, symbols, true).value;
      && Folds(f, g) && Number(a[2]) == Some(KK(f) as nat) && Number(b[2]) == Some(KK(g) as nat)
      && (PlainNumber(a[2]) && PlainNumber(b[2]) ==> SumText(a, b) == Sum(f, g))
  {
    hide Asm.Instruction, S.IsRegister, Top, X, Y, N, KK, NNN, LoadsRegister, Number, ParseNumber, PlainNumber, Asm.IsName;
    NumberNoRegister(a[2]);
    NumberNoRegister(b[2]);
    RegisterLoad(a, symbols);
    AddOp(b, symbols);
    NumbersAgree(a[2]);
    NumbersAgree(b[2]);
  }

  /** LD Vx, total has the effect of LD Vx, k; ADD Vx, l on every machine exactly
      when total is the sum of the assembled constants. */
  lemma {:induction false} FoldExact(f: word, g: word, total: byte)
    requires Folds(f, g)
    ensures (forall c: Core, u: Input, v: Input :: After(Loading(X(f), total), c, u) == After(g, After(f, c, u), v)) <==> total == Sum(f, g)
  {
    hide Top, X, KK, After, Sum;
    forall c: Core, u: Input, v: Input
      ensures After(Loading(X(f), total), c, u) == After(g, After(f, c, u), v) <==> total == Sum(f, g)
    {
      FoldedEffect(f, g, total, c, u, v);
    }
    var c := Elsewhere(0);
    assert After(Loading(X(f), total), c, NO_INPUT) == After(g, After(f, c, NO_INPUT), NO_INPUT) <==> total == Sum(f, g);
  }

  function Loading(x: nibble, total: byte): word { 0x6000 + 0x100 * (x as int) + total }

  lemma {:induction false} FoldedEffect(f: word, g: word, total: byte, c: Core, u: Input, v: Input)
    requires Folds(f, g)
    ensures After(Loading(X(f), total), c, u) == After(g, After(f, c, u), v) <==> total == Sum(f, g)
  {
    var h := Loading(X(f), total);
    assert Top(h) == 6 && X(h) == X(f) && KK(h) == total;
    LoadStraight(f, c, u);
    LoadStraight(h, c, u);
    var m := After(f, c, u);
    AddStraight(g, m, v);
    hide Top, X, KK, N, Y, ExecStraight, Loading;
    var x := X(f);
    assert After(h, c, u).regs == c.regs[x := total];
    assert m.regs == c.regs[x := KK(f)];
    assert After(g, m, v).regs == c.regs[x := Sum(f, g)];
    assert c.regs[x := total][x] == total && c.regs[x := Sum(f, g)][x] == Sum(f, g);
  }

  lemma {:induction false} AddStraight(op: word, c: Core, inp: Input)
    requires Top(op) == 7
    ensures
      var k: int := c.regs[X(op)];
      ExecStraight(op, c, inp) == Some(c.(regs := c.regs[X(op) := (k + KK(op)) % 0x100]))
  {
    NotSystem(op);
    hide Top, X, Y, N, KK, NNN, Load, Store, Bits;
  }

  // --------------------------------------------------- when the plan is legal

  /** The last word is read alike by the optimizer, if it is a number. */
  predicate Plain(s: Stmt) { s.text != [] ==> PlainNumber(s.text[|s.text| - 1]) }

  predicate AllPlain(p: Source) { forall i :: 0 <= i < |p| ==> Plain(p[i]) }

  /** LD I, I. */
  predicate IndexItself(s: Stmt) { s.Insn? && SameOperands(s.text) && s.text[1] == "I" }

  ghost predicate SumsRight(p: Source, e: Edit)
  {
    forall i :: i in e.total ==> i + 1 < |p| && p[i].Insn? && p[i + 1].Insn? && e.total[i] == Sum(p[i].op, p[i + 1].op)
  }

  ghost predicate IndexKept(p: Source, e: Edit)
  {
    forall i :: i in e.drop && i < |p| && IndexItself(p[i]) ==> DeadAt(p, i)
  }

  /** What the optimizer does is allowed by the assembled statements exactly when
      every merged load has the sum of the assembled constants, and no LD I, I is
      dropped but before another load of I. */
  lemma {:induction false} PlannedLegal(p: Source, e: Edit, symbols: Asm.Symbols)
    requires Encodes(p, symbols) && Planned(p, e)
    ensures Legal(p, e) <==> SumsRight(p, e) && IndexKept(p, e)
  {
    hide Protected, DropText, DropOk, FoldedText, FoldedAt, DeadAt, TailAt, EncodesAt, Sum, IndexItself;
    forall i | i in e.total
      ensures i + 1 < |p| && (FoldedAt(p, e, i + 1) <==> p[i].Insn? && p[i + 1].Insn? && e.total[i] == Sum(p[i].op, p[i + 1].op))
    {
      FoldedRead(p, e, i + 1, symbols);
    }
    forall i | i in e.drop
      ensures i < |p| && (SumsRight(p, e) ==> (DropOk(p, e, i) <==> (IndexItself(p[i]) ==> DeadAt(p, i))))
      ensures IndexItself(p[i]) && DropOk(p, e, i) ==> DeadAt(p, i)
    {
      DropRead(p, e, i, symbols);
    }
  }

  lemma {:induction false} FoldedRead(p: Source, e: Edit, i: nat, symbols: Asm.Symbols)
    requires Encodes(p, symbols) && i < |p| && FoldedText(p, e, i)
    ensures p[i].Insn? && p[i - 1].Insn? && Folds(p[i - 1].op, p[i].op)
    ensures FoldedAt(p, e, i) <==> e.total[i - 1] == Sum(p[i - 1].op, p[i].op)
  {
    hide FoldsText, SumText, Folds, Sum, Asm.Instruction;
    assert EncodesAt(p[i], symbols) && EncodesAt(p[i - 1], symbols);
    FoldsOps(p[i - 1].text, p[i].text, symbols);
  }

  lemma {:induction false} DeadRead(p: Source, i: nat, symbols: Asm.Symbols)
    requires Encodes(p, symbols) && i < |p| && DeadText(p, i)
    ensures DeadAt(p, i)
  {
    hide OverwrittenText, Overwritten, Asm.Instruction;
    assert EncodesAt(p[i], symbols) && EncodesAt(p[i + 1], symbols);
    OverwrittenOps(p[i].text, p[i + 1].text, symbols);
  }

  lemma {:induction false} NoOpRead(p: Source, i: nat, symbols: Asm.Symbols)
    requires Encodes(p, symbols) && i < |p| && p[i].Insn? && NoOpText(p[i].text)
    ensures if IndexItself(p[i]) then Top(p[i].op) == 0xA && "I" in symbols else NoOp(p[i].op)
  {
    hide Top, NoOp, Asm.Instruction, AddsZero;
    assert EncodesAt(p[i], symbols);
    if SameOperands(p[i].text) { SameOperandsOp(p[i].text, symbols); } else { AddsZeroOp(p[i].text, symbols); }
  }

  /** A load of I is allowed to go only before another. */
  lemma {:induction false} IndexDrop(p: Source, e: Edit, i: nat)
    requires DropOk(p, e, i) && Top(p[i].op) == 0xA
    ensures DeadAt(p, i)
  {
    hide Protected, Overwritten, Top, Sum;
  }

  lemma {:induction false} DropRead(p: Source, e: Edit, i: nat, symbols: Asm.Symbols)
    requires Encodes(p, symbols) && Planned(p, e) && i in e.drop
    ensures i < |p| && (SumsRight(p, e) ==> (DropOk(p, e, i) <==> (IndexItself(p[i]) ==> DeadAt(p, i))))
    ensures IndexItself(p[i]) && DropOk(p, e, i) ==> DeadAt(p, i)
  {
    hide Encodes, Protected, FoldedText, DeadText, NoOpText, NoOp, Top, DeadAt, FoldedAt, IndexItself, SumsRight;
    assert DropText(p, e, i);
    if IndexItself(p[i]) {
      IsNoOpText(p[i]);
      NoOpRead(p, i, symbols);
      if DropOk(p, e, i) { IndexDrop(p, e, i); }
    } else if FoldedText(p, e, i) {
      FoldedRead(p, e, i, symbols);
      if SumsRight(p, e) { SumAt(p, e, i); }
    } else if NoOpText(p[i].text) {
      NoOpRead(p, i, symbols);
    } else {
      DeadRead(p, i, symbols);
    }
  }

  lemma IsNoOpText(s: Stmt)
    requires IndexItself(s)
    ensures s.Insn? && NoOpText(s.text)
  {}

  lemma SumAt(p: Source, e: Edit, i: nat)
    requires SumsRight(p, e) && i < |p| && FoldedText(p, e, i)
    ensures p[i - 1].Insn? && p[i].Insn? && e.total[i - 1] == Sum(p[i - 1].op, p[i].op)
  {
    hide FoldsText, SumText, Sum;
  }

  /** Without a label I and without signs, every edit is. */
  lemma {:induction false} PlainLegal(p: Source, e: Edit, symbols: Asm.Symbols)
    requires Encodes(p, symbols) && Planned(p, e) && "I" !in symbols && AllPlain(p)
    ensures Legal(p, e)
  {
    hide Encodes, DropText, FoldedText, TailAt, Sum, Legal, IndexItself, Plain, NoOpText;
    forall i | i in e.total ensures p[i].Insn? && p[i + 1].Insn? && e.total[i] == Sum(p[i].op, p[i + 1].op) {
      PlainSum(p, e, i + 1, symbols);
    }
    forall i | i in e.drop && i < |p| ensures !IndexItself(p[i]) {
      if IndexItself(p[i]) {
        IsNoOpText(p[i]);
        NoOpRead(p, i, symbols);
      }
    }
    PlannedLegal(p, e, symbols);
  }

  lemma {:induction false} PlainSum(p: Source, e: Edit, i: nat, symbols: Asm.Symbols)
    requires Encodes(p, symbols) && i < |p| && FoldedText(p, e, i) && AllPlain(p)
    ensures p[i].Insn? && p[i - 1].Insn? && e.total[i - 1] == Sum(p[i - 1].op, p[i].op)
  {
    hide SumText, Sum, Folds, Asm.Instruction, PlainNumber, ParseNumber, S.IsRegister, Number;
    assert EncodesAt(p[i], symbols) && EncodesAt(p[i - 1], symbols);
    assert Plain(p[i]) && Plain(p[i - 1]);
    FoldsOps(p[i - 1].text, p[i].text, symbols);
  }

  // ------------------------------------------------- where the rules go wrong

  lemma {:induction false} PlanSkips(p: Source, i: nat)
    requires i < |p|
    requires p[i].Insn? ==> Protected(p, i) || !(NoOpText(p[i].text) || DeadText(p, i))
    requires Adjacent(p, i) ==> !FoldsText(p[i].text, p[i + 1].text) && !TailText(p[i], p[i + 1])
    ensures Plan(p, {}, i) == Plan(p, {}, i + 1)
  {
    hide Protected, NoOpText, FoldsText, OverwrittenText, TailText;
  }

  lemma {:induction false} PlanDrops(p: Source, i: nat)
    requires i < |p| && p[i].Insn? && !Protected(p, i) && (NoOpText(p[i].text) || DeadText(p, i))
    requires Adjacent(p, i) ==> !FoldsText(p[i].text, p[i + 1].text) && !TailText(p[i], p[i + 1])
    ensures Plan(p, {}, i) == Plan(p, {}, i + 1).(drop := {i} + Plan(p, {}, i + 1).drop)
  {
    hide Protected, NoOpText, FoldsText, OverwrittenText, TailText;
  }

  lemma {:induction false} PlanFolds(p: Source, i: nat)
    requires Adjacent(p, i) && FoldsText(p[i].text, p[i + 1].text) && !Protected(p, i + 1)
    ensures Plan(p, {}, i) == WithFold(Plan(p, {}, i + 2), i, SumText(p[i].text, p[i + 1].text))
  {
    hide Protected, FoldsText, SumText;
  }

  lemma PlanEnd(p: Source)
    ensures Plan(p, {}, |p|) == UNCHANGED
  {}

  lemma EntryProtected(p: Source)
    requires |p| > 0
    ensures Protected(p, 0)
  {}

  /** Statement `i` is free: without a label, and no jump or skip about. */
  lemma {:induction false} NoneProtected(p: Source, i: nat)
    requires 0 < i < |p| && !p[i].Labelled()
    requires forall k :: 0 <= k < |p| && p[k].Insn? ==> !IsSkip(p[k].op) && (IsJump(p[k].op) ==> p[k].target != Some(i))
    ensures !Protected(p, i)
  {
    hide Addr, IsSkip, IsJump;
  }

  /** CLS; LD V0, 5; LD V0, V0: both loads go, the first as overwritten, the
      second as a no-op, and the 5 is lost. */
  const LOST: Source := [
    Insn(["CLS"], 0x00E0, None, [], false), Insn(["LD", "V0", "5"], 0x6005, None, [], false),
    Insn(["LD", "V0", "V0"], 0x8000, None, [], false)]

  lemma {:induction false} LoadLost()
    ensures Accepted(LOST) && Encodes(LOST, map[]) && Plan(LOST, {}, 0) == Edit({1, 2}, map[], {})
    ensures forall c: Core, u: Input, v: Input :: After(0x8000, After(0x6005, c, u), v) == c.(regs := c.regs[0 := 5])
  {
    hide Top, X, Y, N, KK, ExecStraight, Number, ParseNumber, Asm.Instruction, S.IsRegister, Plan, Protected;
    LostWords();
    FiveReads();
    RegisterZero();
    ClearReads();
    assert Protected(LOST, 0) by { EntryProtected(LOST); }
    NoneProtected(LOST, 1);
    NoneProtected(LOST, 2);
    assert !ParseNumber("V0").Some? by { NumberV0(); }
    PlanEnd(LOST);
    PlanDrops(LOST, 2);
    PlanDrops(LOST, 1);
    PlanSkips(LOST, 0);
    assert Old(LOST, 0) == 0x200 && Old(LOST, 1) == 0x202 && Old(LOST, 2) == 0x204 && Old(LOST, 3) == 0x206;
    forall c: Core, u: Input, v: Input ensures After(0x8000, After(0x6005, c, u), v) == c.(regs := c.regs[0 := 5]) {
      LoadStraight(0x6005, c, u);
      LoadStraight(0x8000, After(0x6005, c, u), v);
    }
  }

  lemma LostWords()
    ensures Top(0x00E0) == 0 && Top(0x6005) == 6 && X(0x6005) == 0 && KK(0x6005) == 5
    ensures Top(0x8000) == 8 && N(0x8000) == 0 && X(0x8000) == 0 && Y(0x8000) == 0
  {}

  lemma FiveReads()
    ensures Asm.Instruction(["LD", "V0", "5"], map[], true) == Asm.Ok(0x6005)
    ensures Asm.Instruction(["LD", "V0", "V0"], map[], true) == Asm.Ok(0x8000)
  {
    assert Number("5") == Some(5) by { assert Magnitude("5", 10) == 5; }
  }

  lemma RegisterZero()
    ensures S.IsRegister("V0")
  {}

  lemma ClearReads()
    ensures forall symbols :: Asm.Instruction(["CLS"], symbols, true) == Asm.Ok(0x00E0)
  {}

  lemma NumberV0()
    ensures ParseNumber("V0") == None
  {
    if ParseNumber("V0").Some? { NumberStart("V0"); }
  }

  /** START: CLS; LD I, I; DRW V0, V1, 1; JP START; I: .byte 0xFF. The second
      statement goes as a no-op, though it loads I. */
  const INDEXED: Source := [
    Insn(["CLS"], 0x00E0, None, ["START"], true), Insn(["LD", "I", "I"], 0xA208, Some(4), [], false),
    Insn(["DRW", "V0", "V1", "1"], 0xD011, None, [], false), Insn(["JP", "START"], 0x1200, Some(0), [], false),
    Data([".BYTE", "0XFF"], 1, None, ["I"], true)]

  const INDEX_SYMBOLS: Asm.Symbols := map["START" := 0x200, "I" := 0x208]

  lemma {:induction false} IndexLost()
    ensures Accepted(INDEXED) && Encodes(INDEXED, INDEX_SYMBOLS) && AllPlain(INDEXED)
    ensures Plan(INDEXED, {}, 0) == Edit({1}, map[], {}) && !Legal(INDEXED, Plan(INDEXED, {}, 0))
    ensures forall c: Core, u: Input :: After(0xA208, c, u) == c.(i := 0x208)
  {
    hide Top, X, Y, N, KK, NNN, ExecStraight, Number, ParseNumber, Asm.Instruction, S.IsRegister, Plan, Protected, PlainNumber, Addr,
      Asm.IsName;
    IndexWords();
    IndexReads();
    ClearReads();
    IndexNames();
    IndexPlan();
    IndexLayout();
    DropNoOp();
    forall c: Core, u: Input ensures After(0xA208, c, u) == c.(i := 0x208) { LoadIStraight(0xA208, c, u); }
  }

  lemma IndexWords()
    ensures Top(0x00E0) == 0 && Top(0xA208) == 0xA && NNN(0xA208) == 0x208 && Top(0xD011) == 0xD && Top(0x1200) == 1
  {}

  lemma IndexReads()
    ensures Asm.Instruction(["LD", "I", "I"], INDEX_SYMBOLS, true) == Asm.Ok(0xA208)
    ensures Asm.Instruction(["JP", "START"], INDEX_SYMBOLS, true) == Asm.Ok(0x1200)
    ensures Asm.Instruction(["DRW", "V0", "V1", "1"], INDEX_SYMBOLS, true) == Asm.Ok(0xD011)
  {
    hide Number;
    IndexNumbers();
  }

  lemma IndexNumbers()
    ensures Number("1") == Some(1) && Number("I") == None && Number("START") == None
  {
    assert Magnitude("1", 10) == 1;
  }

  lemma IndexNames()
    ensures WellNamed(INDEX_SYMBOLS)
    ensures PlainNumber("I") && PlainNumber("START") && PlainNumber("1") && PlainNumber("CLS") && PlainNumber("0XFF")
  {
    hide Magnitude;
  }

  lemma {:induction false} IndexLayout()
    ensures Old(INDEXED, 0) == 0x200 && Old(INDEXED, 4) == 0x208 && Old(INDEXED, 5) == 0x209
  {
    assert Old(INDEXED, 2) == 0x204;
  }

  lemma {:induction false} IndexPlan()
    ensures Plan(INDEXED, {}, 0) == Edit({1}, map[], {})
  {
    hide Top, X, Y, N, KK, NNN, ParseNumber, S.IsRegister, Plan, Protected, Addr;
    IndexWords();
    assert Protected(INDEXED, 0) by { EntryProtected(INDEXED); }
    NoneProtected(INDEXED, 1);
    PlanEnd(INDEXED);
    PlanSkips(INDEXED, 4);
    PlanSkips(INDEXED, 3);
    PlanSkips(INDEXED, 2);
    PlanDrops(INDEXED, 1);
    PlanSkips(INDEXED, 0);
  }

  lemma {:induction false} DropNoOp()
    ensures !Legal(INDEXED, Edit({1}, map[], {}))
  {
    IndexWords();
    hide Top, X, Y, N, KK, NNN, Protected;
    var e := Edit({1}, map[], {});
    assert 1 in e.drop && !DropOk(INDEXED, e, 1);
  }

  /** CLS; LD V0, +010; ADD V0, +010; LOOP: JP LOOP. The two constants are 8 to
      the assembler and 10 to the optimizer, which merges them to 20. */
  const SIGNED: Source := [
    Insn(["CLS"], 0x00E0, None, [], false), Insn(["LD", "V0", "+010"], 0x6008, None, [], false),
    Insn(["ADD", "V0", "+010"], 0x7008, None, [], false), Insn(["JP", "LOOP"], 0x1206, Some(3), ["LOOP"], true)]

  const SIGNED_SYMBOLS: Asm.Symbols := map["LOOP" := 0x206]

  lemma {:induction false} SumLost()
    ensures Accepted(SIGNED) && Encodes(SIGNED, SIGNED_SYMBOLS)
    ensures Plan(SIGNED, {}, 0) == Edit({2}, map[1 := 20], {}) && Sum(0x6008, 0x7008) == 16
  {
    hide Top, X, Y, N, KK, NNN, ExecStraight, Number, ParseNumber, Asm.Instruction, S.IsRegister, Plan, Protected, PlainNumber, Addr,
      Asm.IsName;
    SignedWords();
    SignedReads();
    ClearReads();
    SignedLayout();
    SignedPlan();
  }

  lemma SignedWords()
    ensures Top(0x00E0) == 0 && Top(0x6008) == 6 && Top(0x7008) == 7 && Top(0x1206) == 1 && NNN(0x1206) == 0x206
    ensures X(0x6008) == 0 == X(0x7008) && Sum(0x6008, 0x7008) == 16
  {}

  lemma SignedReads()
    ensures Asm.Instruction(["LD", "V0", "+010"], SIGNED_SYMBOLS, true) == Asm.Ok(0x6008)
    ensures Asm.Instruction(["ADD", "V0", "+010"], SIGNED_SYMBOLS, true) == Asm.Ok(0x7008)
    ensures Asm.Instruction(["JP", "LOOP"], SIGNED_SYMBOLS, true) == Asm.Ok(0x1206)
    ensures WellNamed(SIGNED_SYMBOLS)
  {
    hide Number, ParseNumber, Asm.Instruction;
    OneTen();
    SignedLoads();
    SignedJump();
  }

  lemma SignedLoads()
    requires Number("+010") == Some(8)
    ensures Asm.Instruction(["LD", "V0", "+010"], SIGNED_SYMBOLS, true) == Asm.Ok(0x6008)
    ensures Asm.Instruction(["ADD", "V0", "+010"], SIGNED_SYMBOLS, true) == Asm.Ok(0x7008)
  {
    hide Number, ParseNumber;
  }

  lemma SignedJump()
    ensures Asm.Instruction(["JP", "LOOP"], SIGNED_SYMBOLS, true) == Asm.Ok(0x1206)
  {
    assert Number("LOOP") == None;
    hide Number, ParseNumber;
  }

  lemma {:induction false} SignedLayout()
    ensures Old(SIGNED, 3) == 0x206 && Old(SIGNED, 4) == 0x208
  {
    assert Old(SIGNED, 2) == 0x204;
  }

  lemma {:induction false} SignedPlan()
    ensures Plan(SIGNED, {}, 0) == Edit({2}, map[1 := 20], {})
  {
    hide Top, X, Y, N, KK, NNN, ParseNumber, Number, S.IsRegister, Plan, Protected, Addr;
    SignedWords();
    OneTen();
    RegisterZero();
    NoneProtected(SIGNED, 2);
    PlanEnd(SIGNED);
    PlanSkips(SIGNED, 3);
    PlanFolds(SIGNED, 1);
    PlanSkips(SIGNED, 0) by { assert Protected(SIGNED, 0) by { EntryProtected(SIGNED); } }
  }
}
