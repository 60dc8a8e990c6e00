/** The source the optimizer returns, put through the assembler: its statements
    assemble, with the labels where they now stand, to the words the run theorems are
    about; and so the program in the assembled ROM does what the original does. */
module Rebuilt {
  import opened Chip8
  import opened Bench
  import opened Tape
  import opened Text
  import opened Numbers
  import opened Peephole
  import opened Optimizer
  import opened Relocate
  import opened Compaction
  import T = TailCall
  import R = OptimizedRun
  import C = Encoding
  import Asm
  import S = Statements

  // ------------------------------------------------------ the new statements

  /** Statement `i` as it is returned: with the folded constant, JP for CALL, or as it
      was. */
  function NewText(p: Source, e: Edit, i: nat): seq<string>
    requires i < |p|
  {
    var t := p[i].text;
    if i in e.total && |t| == 3 then ["LD", t[1], C.Capital(Hex2(e.total[i]))]
    else if i in e.turn && t != [] then ["JP"] + t[1..]
    else t
  }

  /** Where what stood at `v` stands now. */
  function NewAddress(p: Source, e: Edit, v: int): (a: int)
    requires Fits(p)
    ensures 0 <= v < 0x10000 ==> 0 <= a < 0x10000
  {
    var k := Index(p, v, |p|);
    if k < |p| then (NewBelowOld(p, e, k); Below(p, k); Addr(p, e, k))
    else if v == Old(p, |p|) then (NewBelowOld(p, e, |p|); Addr(p, e, |p|))
    else v
  }

  lemma {:induction false} Below(p: Source, k: nat)
    requires Fits(p) && k <= |p|
    ensures Old(p, k) <= 0x1000
  {
    NewIncreases(p, UNCHANGED, k, |p|);
    hide Addr;
  }

  /** The labels of the returned source. */
  function NewSymbols(p: Source, e: Edit, symbols: Asm.Symbols): Asm.Symbols
    requires Fits(p)
  {
    map l | l in symbols :: NewAddress(p, e, symbols[l])
  }

  /** Every label is where a statement starts, or at the end. */
  ghost predicate LabelsStand(p: Source, symbols: Asm.Symbols)
  {
    forall l :: l in symbols ==> StandsSomewhere(p, symbols[l])
  }

  ghost predicate StandsSomewhere(p: Source, v: int)
  {
    exists k :: 0 <= k <= |p| && Old(p, k) == v
  }

  /** Of a data list only the last operand may be a label, and it is then the
      statement's target. */
  ghost predicate DataLabels(p: Source, symbols: Asm.Symbols)
  {
    forall i :: 0 <= i < |p| && p[i].Data? ==> DataLabelsAt(p[i], symbols)
  }

  predicate DataLabelsAt(s: Stmt, symbols: Asm.Symbols)
  {
    && (forall j :: 0 <= j < |s.text| - 1 ==> s.text[j] !in symbols)
    && (s.Data? && s.text != [] && Last(s.text) in symbols ==> s.target.Some?)
  }

  /** Symbolization keeps labels where statements start. */
  lemma {:induction false} SymbolizedStand(p: Source, symbols: Asm.Symbols, n: nat)
    requires Assembles(p, symbols) && LabelsStand(p, symbols) && n <= |p|
    ensures LabelsStand(p, Extended(p, symbols, n))
  {
    hide Addr, Generated, Placed, EncodesAt, NameAt;
    if n > 0 {
      SymbolizedStand(p, symbols, n - 1);
      assert StandsSomewhere(p, Old(p, n - 1));
    }
  }

  /** A label on statement `k` moves with it. */
  lemma {:induction false} NewAddressAt(p: Source, e: Edit, k: nat)
    requires Accepted(p) && Fits(p) && k <= |p|
    ensures NewAddress(p, e, Old(p, k)) == Addr(p, e, k) <= 0x1000
  {
    var j := Index(p, Old(p, k), |p|);
    if j < |p| { SameStatement(p, j, k); }
    if k < |p| { assert j < |p|; }
    NewBelowOld(p, e, k);
    Below(p, k);
    hide Addr;
  }

  /** A label is no byte, before or after. */
  lemma {:induction false} LabelLarge(p: Source, e: Edit, symbols: Asm.Symbols, l: string)
    requires Accepted(p) && Fits(p) && LabelsStand(p, symbols) && l in symbols
    ensures symbols[l] >= ENTRYPOINT && NewSymbols(p, e, symbols)[l] >= ENTRYPOINT && NewSymbols(p, e, symbols)[l] <= 0x1000
  {
    assert StandsSomewhere(p, symbols[l]);
    var k :| 0 <= k <= |p| && Old(p, k) == symbols[l];
    NewAddressAt(p, e, k);
    hide NewAddress;
  }

  // -------------------------------------------------------- the new words

  /** Two tables that agree on the last operand as far as it can be used. */
  ghost predicate SameUse(t: seq<string>, was: Asm.Symbols, now: Asm.Symbols)
    requires t != []
  {
    && (Asm.Ranged(Last(t), 0xFF, was, true).Ok? ==> Asm.Value(Last(t), now, true) == Asm.Value(Last(t), was, true))
    && (Addressing(t) ==> Asm.Value(Last(t), was, true).Ok? ==> Asm.Value(Last(t), now, true) == Asm.Value(Last(t), was, true))
  }

  /** What is used of the last operand: a byte or less, or an address. */
  lemma {:induction false} UsedSame(t: seq<string>, was: Asm.Symbols, now: Asm.Symbols, max: nat)
    requires t != [] && SameUse(t, was, now) && (max <= 0xFF || Addressing(t))
    ensures Asm.Ranged(Last(t), max, was, true).Ok? ==> Asm.Ranged(Last(t), max, now, true) == Asm.Ranged(Last(t), max, was, true)
  {
    hide Asm.Value, Addressing;
  }

  lemma {:induction false} EitherSame(x: nibble, w: string, reg: word, byt: word, was: Asm.Symbols, now: Asm.Symbols)
    requires reg % 0x1000 < 0x10 && reg <= 0xF000 && byt % 0x1000 == 0
    requires Asm.Ranged(w, 0xFF, was, true).Ok? ==> Asm.Ranged(w, 0xFF, now, true) == Asm.Ranged(w, 0xFF, was, true)
    ensures Asm.RegisterOrByte(x, w, reg, byt, was, true).Ok? ==>
      Asm.RegisterOrByte(x, w, reg, byt, now, true) == Asm.RegisterOrByte(x, w, reg, byt, was, true)
  {
    hide Asm.Ranged, Asm.Register, Asm.Encode, Asm.LooksLikeRegister;
  }

  lemma {:induction false} InstructionSame(t: seq<string>, was: Asm.Symbols, now: Asm.Symbols)
    requires t != [] && SameUse(t, was, now) && Asm.Instruction(t, was, true).Ok?
    ensures Asm.Instruction(t, now, true) == Asm.Instruction(t, was, true)
  {
    hide Asm.Ranged, Asm.Register, Asm.Encode, Asm.RegisterOrByte, Asm.LoadTo, SameUse;
    var w := Last(t);
    UsedSame(t, was, now, 0xFF);
    UsedSame(t, was, now, 0xF);
    if Addressing(t) { UsedSame(t, was, now, 0xFFF); }
    if t[0] == "LD" {
      LoadSame(t, was, now);
    } else if t[0] in {"ADD", "SE", "SNE"} {
      PairWords(t, was);
      if Asm.Register(t[1]).Ok? {
        var x := Asm.Register(t[1]).value;
        EitherSame(x, w, 0x8004, 0x7000, was, now);
        EitherSame(x, w, 0x5000, 0x3000, was, now);
        EitherSame(x, w, 0x9000, 0x4000, was, now);
      }
    }
  }

  lemma {:induction false} LoadSame(t: seq<string>, was: Asm.Symbols, now: Asm.Symbols)
    requires t != [] && t[0] == "LD" && SameUse(t, was, now) && Asm.LoadTo(t, was, true).Ok?
    ensures Asm.LoadTo(t, now, true) == Asm.LoadTo(t, was, true)
  {
    hide Asm.Ranged, Asm.Register, Asm.Encode, Asm.RegisterOrByte, SameUse;
    UsedSame(t, was, now, 0xFF);
    if t[1] == "I" { UsedSame(t, was, now, 0xFFF); }
    if Asm.Register(t[1]).Ok? { EitherSame(Asm.Register(t[1]).value, t[2], 0x8000, 0x6000, was, now); }
  }

  /** The same instruction with another value for its address. */
  lemma {:induction false} AddressMoved(t: seq<string>, was: Asm.Symbols, now: Asm.Symbols)
    requires Addressing(t) && Asm.Instruction(t, was, true).Ok?
    requires Asm.Value(Last(t), now, true).Ok? && Asm.Value(Last(t), now, true).value <= 0xFFF
    ensures
      var op, v: int := Asm.Instruction(t, was, true).value, Asm.Value(Last(t), now, true).value;
      0x1000 * Top(op) + v < 0x10000 && Asm.Instruction(t, now, true) == Asm.Ok(0x1000 * Top(op) + v)
  {
    hide Asm.Value, Top;
    var z, v := Asm.Ranged(Last(t), 0xFFF, was, true).value, Asm.Ranged(Last(t), 0xFFF, now, true).value;
    var base := if t[0] == "LD" then 0xA000 else if |t| == 3 then 0xB000 else if t[0] == "JP" then 0x1000 else 0x2000;
    S.AddressKind(base, z);
    assert 0x1000 / 0x1000 == 1 && 0x2000 / 0x1000 == 2 && 0xA000 / 0x1000 == 0xA && 0xB000 / 0x1000 == 0xB;
  }

  /** The new tables give the last operand of a statement without a target what it
      had, as far as it is used. */
  lemma {:induction false} UseKept(p: Source, e: Edit, symbols: Asm.Symbols, i: nat)
    requires Assembles(p, symbols) && Accepted(p) && LabelsStand(p, symbols) && i < |p| && p[i].Insn? && p[i].target.None?
    ensures p[i].text != [] && SameUse(p[i].text, symbols, NewSymbols(p, e, symbols))
  {
    hide Addr, Addressing, Asm.Instruction, Asm.Line, NewSymbols, Number, Emitted, Names;
    assert EncodesAt(p[i], symbols) && Placed(p, symbols, i);
    var w, now := Last(p[i].text), NewSymbols(p, e, symbols);
    SameNames(p, e, symbols);
    if w in symbols { LabelLarge(p, e, symbols, w); }
  }

  lemma SameNames(p: Source, e: Edit, symbols: Asm.Symbols)
    requires Fits(p)
    ensures NewSymbols(p, e, symbols).Keys == symbols.Keys
  {
    hide NewAddress;
  }

  /** A statement that stays as it is, or has its target moved. */
  lemma {:induction false} WordMoved(p: Source, e: Edit, symbols: Asm.Symbols, i: nat)
    requires Assembles(p, symbols) && Accepted(p) && LabelsStand(p, symbols) && i < |p| && p[i].Insn? && i !in e.total
    ensures p[i].target.Some? ==> p[i].target.value <= |p|
    ensures 0 <= Assembled(p, e, i) < 0x10000 && p[i].text != []
    ensures Asm.Instruction(p[i].text, NewSymbols(p, e, symbols), true) == Asm.Ok(Assembled(p, e, i))
  {
    hide Addr, Addressing, Asm.Instruction, Asm.Line, NewSymbols, Number, Emitted, NewAddress, Top;
    var s, now := p[i], NewSymbols(p, e, symbols);
    assert EncodesAt(s, symbols) && Placed(p, symbols, i) && StmtOk(p, s);
    if s.target.None? {
      UseKept(p, e, symbols, i);
      InstructionSame(s.text, symbols, now);
    } else {
      NewAddressAt(p, e, s.target.value);
      NewBelowOld(p, e, s.target.value);
      NewValue(p, e, symbols, Last(s.text));
      AddressMoved(s.text, symbols, now);
    }
  }

  lemma {:induction false} NewValue(p: Source, e: Edit, symbols: Asm.Symbols, l: string)
    requires Fits(p) && WellNamed(symbols) && l in symbols
    ensures Asm.Value(l, NewSymbols(p, e, symbols), true) == Asm.Ok(NewAddress(p, e, symbols[l]))
  {
    hide NewAddress, Number, Asm.IsName;
    NameNoNumber(l);
  }

  /** What statement `i` of the returned source assembles to. */
  function FinalWord(p: Source, e: Edit, i: nat): int
    requires i < |p| && p[i].Insn? && (p[i].target.Some? ==> p[i].target.value <= |p|)
  {
    Assembled(p, e, i) - if i in e.turn then 0x1000 else 0
  }

  /** The returned source assembles, word for word. */
  lemma {:induction false} NewWord(p: Source, e: Edit, symbols: Asm.Symbols, i: nat)
    requires Assembles(p, symbols) && Accepted(p) && LabelsStand(p, symbols) && Planned(p, e) && Legal(p, e) && i < |p| && p[i].Insn?
    ensures p[i].target.Some? ==> p[i].target.value <= |p|
    ensures 0 <= FinalWord(p, e, i) < 0x10000 && NewText(p, e, i) != []
    ensures Asm.Instruction(NewText(p, e, i), NewSymbols(p, e, symbols), true) == Asm.Ok(FinalWord(p, e, i))
  {
    hide Addr, Addressing, Asm.Instruction, Asm.Line, NewSymbols, Emitted, NewAddress, Top, DropText, DropOk, Assembled;
    assert EncodesAt(p[i], symbols) && StmtOk(p, p[i]);
    if i in e.total {
      FoldWord(p, e, symbols, i);
    } else {
      WordMoved(p, e, symbols, i);
      if i in e.turn { TurnedWord(p, e, symbols, i); }
    }
  }

  lemma {:induction false} TurnedWord(p: Source, e: Edit, symbols: Asm.Symbols, i: nat)
    requires Fits(p) && Planned(p, e) && i < |p| && p[i].Insn? && i in e.turn && i !in e.total
    requires p[i].target.Some? ==> p[i].target.value <= |p|
    requires 0 <= Assembled(p, e, i) < 0x10000 && p[i].text != []
    requires Asm.Instruction(p[i].text, NewSymbols(p, e, symbols), true) == Asm.Ok(Assembled(p, e, i))
    ensures FinalWord(p, e, i) >= 0 && NewText(p, e, i) != []
    ensures Asm.Instruction(NewText(p, e, i), NewSymbols(p, e, symbols), true) == Asm.Ok(FinalWord(p, e, i))
  {
    hide Addr, Asm.Instruction, NewSymbols, DropText, FoldedText, Assembled, Top;
    assert TailAt(p, i);
    var x := p[i].text[1];
    assert p[i].text == ["CALL", x] && NewText(p, e, i) == ["JP", x];
    T.RewrittenWord(x, NewSymbols(p, e, symbols), true);
  }

  /** LD Vx with the folded constant. */
  lemma {:induction false} FoldWord(p: Source, e: Edit, symbols: Asm.Symbols, i: nat)
    requires Assembles(p, symbols) && Accepted(p) && Planned(p, e) && i < |p| && p[i].Insn? && i in e.total
    ensures p[i].target.Some? ==> p[i].target.value <= |p|
    ensures i !in e.turn && 0 <= FinalWord(p, e, i) < 0x10000 && NewText(p, e, i) != []
    ensures Asm.Instruction(NewText(p, e, i), NewSymbols(p, e, symbols), true) == Asm.Ok(FinalWord(p, e, i))
  {
    hide Addr, NewSymbols, DropText, Asm.Instruction, S.IsRegister, X, C.Capital, Hex2, ParseNumber;
    assert EncodesAt(p[i], symbols) && StmtOk(p, p[i]) && FoldedText(p, e, i + 1);
    var t, k := p[i].text, e.total[i];
    RegisterLoad(t, symbols) by { hide Top; }
    assert i in e.turn ==> TailAt(p, i);
    ConstantLoad(t[1], k, NewSymbols(p, e, symbols));
  }

  lemma {:induction false} ConstantLoad(a: string, k: byte, symbols: Asm.Symbols)
    requires S.IsRegister(a)
    ensures
      var x: int := S.Digit(a[1]).value;
      Asm.Instruction(["LD", a, C.Capital(Hex2(k))], symbols, true) == Asm.Ok(0x6000 + 0x100 * x + k)
  {
    hide Number, HexDigit, Asm.Register, S.IsRegister;
    RegisterFront(a);
    C.NumberBack(0, k, 0, symbols, true);
    C.CapitalShape(Hex2(k));
  }

  // ------------------------------------------------------------- the data

  /** A data list with another table: the same bytes, but for a label in the last
      place. */
  lemma {:induction false} ListMoved(ts: seq<string>, wide: bool, was: Asm.Symbols, now: Asm.Symbols)
    requires ts != [] && Asm.Data(ts, wide, was, true).Ok?
    requires forall j :: 0 <= j < |ts| - 1 ==> Asm.Value(ts[j], now, true) == Asm.Value(ts[j], was, true)
    requires Asm.Value(Last(ts), now, true) == Asm.Value(Last(ts), was, true) || (wide && Asm.Value(Last(ts), now, true).Ok?)
    ensures Asm.Data(ts, wide, now, true).Ok?
    ensures
      var a, b := Asm.Data(ts, wide, was, true).value, Asm.Data(ts, wide, now, true).value;
      var kept := if Asm.Value(Last(ts), now, true) == Asm.Value(Last(ts), was, true) then |a| else |a| - 2;
      |b| == |a| && forall j :: 0 <= j < kept ==> b[j] == a[j]
  {
    hide Asm.Value;
    if |ts| > 1 {
      assert Last(ts[1..]) == Last(ts);
      ListMoved(ts[1..], wide, was, now);
    } else {
      assert ts[1..] == [];
    }
  }

  /** A word that is no label has one value. */
  lemma NoLabel(p: Source, e: Edit, symbols: Asm.Symbols, w: string)
    requires Fits(p) && w !in symbols
    ensures Asm.Value(w, NewSymbols(p, e, symbols), true) == Asm.Value(w, symbols, true)
  {
    SameNames(p, e, symbols);
    hide NewSymbols, Number;
  }

  /** The bytes of data statement `i` in the two programs. */
  lemma {:induction false} DataMoved(p: Source, e: Edit, symbols: Asm.Symbols, i: nat)
    requires Assembles(p, symbols) && Accepted(p) && LabelsStand(p, symbols) && DataLabels(p, symbols) && i < |p| && p[i].Data?
    ensures
      var was, now := Asm.Line(p[i].text, Old(p, i), symbols, true), Asm.Line(p[i].text, Addr(p, e, i), NewSymbols(p, e, symbols), true);
      && was.Ok? && now.Ok? && |was.value| == |now.value| == p[i].Size()
      && forall j :: 0 <= j < p[i].size - (if p[i].target.Some? then 2 else 0) ==> now.value[j] == was.value[j]
  {
    hide Addr, NewSymbols, Asm.Data, Asm.Instruction, Addressing, NewAddress, Asm.Value;
    var s, now := p[i], NewSymbols(p, e, symbols);
    assert Placed(p, symbols, i) && DataLabelsAt(s, symbols);
    DataWords(s, Old(p, i), symbols);
    var ts, wide := s.text[1..], s.text[0] == ".WORD";
    assert Last(ts) == Last(s.text);
    forall j | 0 <= j < |ts| - 1 ensures Asm.Value(ts[j], now, true) == Asm.Value(ts[j], symbols, true) {
      assert ts[j] == s.text[j + 1];
      NoLabel(p, e, symbols, ts[j]);
    }
    if Last(ts) in symbols {
      assert WellNamed(symbols);
      NewValue(p, e, symbols, Last(ts));
      LabelLarge(p, e, symbols, Last(ts));
      LabelWide(ts, wide, symbols);
    } else {
      NoLabel(p, e, symbols, Last(ts));
    }
    ListMoved(ts, wide, symbols, now);
  }

  lemma DataWords(s: Stmt, pc: nat, symbols: Asm.Symbols)
    requires s.Data? && s.text != [] && s.text[0] in {".ORG", ".BYTE", ".WORD"} && s.text[0] != ".ORG" && Asm.Line(s.text, pc, symbols, true).Ok?
    ensures |s.text| > 1
    ensures Asm.Line(s.text, pc, symbols, true) == Asm.Data(s.text[1..], s.text[0] == ".WORD", symbols, true)
  {
    hide Asm.Data;
  }

  /** A label does not fit into a byte. */
  lemma {:induction false} LabelWide(ts: seq<string>, wide: bool, symbols: Asm.Symbols)
    requires ts != [] && Asm.Data(ts, wide, symbols, true).Ok? && WellNamed(symbols) && Last(ts) in symbols && symbols[Last(ts)] >= ENTRYPOINT
    ensures wide
  {
    hide Number, Asm.IsName;
    if |ts| > 1 { LabelWide(ts[1..], wide, symbols); } else { NameNoNumber(ts[0]); }
  }

  // ------------------------------------------------------------ the images

  /** The bytes stand in memory at `a`. */
  predicate BytesAt(mem: Memory, a: int, bytes: seq<byte>)
  {
    0 <= a && a + |bytes| <= 0x1000 && forall j :: 0 <= j < |bytes| ==> mem[a + j] == bytes[j]
  }

  /** Statement `i` of the returned source stands in memory as it is assembled. */
  ghost predicate HoldsLine(p: Source, e: Edit, m: Asm.Symbols, mem: Memory, i: nat)
    requires i < |p|
  {
    var r := Asm.Line(NewText(p, e, i), Addr(p, e, i), m, true);
    r.Ok? && |r.value| == p[i].Size() && BytesAt(mem, Addr(p, e, i), r.value)
  }

  /** The memory the returned source is assembled and loaded to: its statements, and
      what was there before around them. */
  ghost predicate Holds(p: Source, e: Edit, m: Asm.Symbols, rest: Memory, mem: Memory)
  {
    && (forall i :: 0 <= i < |p| && i !in e.drop ==> HoldsLine(p, e, m, mem, i))
    && forall x :: 0 <= x < 0x1000 && (x < ENTRYPOINT || x >= Addr(p, e, |p|)) ==> mem[x] == rest[x]
  }

  /** Every statement of the returned source is accepted, with the size it had. */
  lemma {:induction false} NewLines(p: Source, e: Edit, symbols: Asm.Symbols, i: nat)
    requires Assembles(p, symbols) && Accepted(p) && LabelsStand(p, symbols) && DataLabels(p, symbols) && Planned(p, e) && Legal(p, e)
    requires i < |p| && i !in e.drop
    ensures
      var r := Asm.Line(NewText(p, e, i), Addr(p, e, i), NewSymbols(p, e, symbols), true);
      r.Ok? && |r.value| == p[i].Size()
  {
    hide Addr, NewSymbols, Asm.Instruction, NewText, FinalWord, DropText, DropOk, Asm.Line;
    assert StmtOk(p, p[i]);
    if p[i].Insn? {
      NewWord(p, e, symbols, i);
      InstructionLine(NewText(p, e, i), Addr(p, e, i), NewSymbols(p, e, symbols));
    } else {
      DataMoved(p, e, symbols, i);
      DataText(p, e, i);
    }
  }

  lemma {:induction false} DataText(p: Source, e: Edit, i: nat)
    requires Planned(p, e) && i < |p| && !p[i].Insn?
    ensures NewText(p, e, i) == p[i].text
  {
    hide DropText, FoldsText, SumText, TailText;
    assert i in e.total ==> FoldedText(p, e, i + 1);
    assert i in e.turn ==> TailAt(p, i);
  }

  /** An instruction of the returned source, in memory. */
  lemma {:induction false} WordHeld(p: Source, e: Edit, symbols: Asm.Symbols, mem: Memory, i: nat)
    requires Assembles(p, symbols) && Accepted(p) && LabelsStand(p, symbols) && Planned(p, e) && Legal(p, e)
    requires i < |p| && i !in e.drop && p[i].Insn? && HoldsLine(p, e, NewSymbols(p, e, symbols), mem, i)
    ensures p[i].target.Some? ==> p[i].target.value <= |p|
    ensures OpAt(mem, Addr(p, e, i)) == FinalWord(p, e, i)
  {
    hide Addr, NewSymbols, Asm.Instruction, NewText, FinalWord, Planned, Legal, Asm.Line;
    NewWord(p, e, symbols, i);
    InstructionLine(NewText(p, e, i), Addr(p, e, i), NewSymbols(p, e, symbols));
    BytesRead(mem, Addr(p, e, i), FinalWord(p, e, i));
  }

  lemma BytesRead(mem: Memory, a: int, w: word)
    requires BytesAt(mem, a, Asm.BigEndian(w))
    ensures OpAt(mem, a) == w
  {
    var bytes := Asm.BigEndian(w);
    assert |bytes| == 2 && bytes[0] as int == w as int / 0x100 && bytes[1] as int == w as int % 0x100;
    assert mem[a + 0] == bytes[0] && mem[a + 1] == bytes[1];
    WrapNext(a);
  }

  lemma WrapNext(a: int)
    requires 0 <= a < 0xFFF
    ensures Wrap(a) == a && Wrap(a + 1) == a + 1
  {}

  // ------------------------------------------------- before the tail calls

  function Unturned(b: byte): byte { (b as int + 0x10) % 0x100 }

  /** Memory with CALL back in the place of JP at the sites. */
  function Unpatched(sites: set<int>, mem: Memory): (r: Memory)
    ensures forall b :: 0 <= b < 0x1000 ==> r[b] == if b in sites then Unturned(mem[b]) else mem[b]
  {
    seq(0x1000, b requires 0 <= b < 0x1000 => if b in sites then Unturned(mem[b]) else mem[b])
  }

  lemma {:induction false} PatchedBack(sites: set<int>, mem: Memory)
    ensures T.Patch(sites, Unpatched(sites, mem)) == mem
  {
    forall b | 0 <= b < 0x1000 ensures T.Patch(sites, Unpatched(sites, mem))[b] == mem[b] { TurnedBack(mem[b]); }
  }

  lemma TurnedBack(b: byte)
    ensures T.Turned(Unturned(b)) == b
  {}

  lemma {:induction false} UnpatchedWord(sites: set<int>, mem: Memory, a: int)
    requires 0 <= a < 0xFFF && a + 1 !in sites
    ensures a !in sites ==> OpAt(Unpatched(sites, mem), a) == OpAt(mem, a)
    ensures a in sites && OpAt(mem, a) < 0xF000 ==> OpAt(Unpatched(sites, mem), a) == OpAt(mem, a) + 0x1000
  {
    WrapNext(a);
    var now := Unpatched(sites, mem);
    assert now[a + 1] == mem[a + 1];
    WordOf(mem, a);
    WordOf(now, a);
    if a in sites { HighTurned(mem[a], mem[a + 1]); }
    hide Unpatched, OpAt, Unturned;
  }

  lemma WordOf(mem: Memory, a: int)
    requires 0 <= a < 0xFFF
    ensures OpAt(mem, a) as int == 0x100 * mem[a] as int + mem[a + 1] as int
  {
    WrapNext(a);
  }

  lemma HighTurned(b: byte, c: byte)
    ensures 0x100 * b as int + c as int < 0xF000 ==> Unturned(b) as int == b as int + 0x10
  {}

  /** With the calls put back, the returned program is the one the run theorems are
      about. */
  lemma {:induction false} LoadedRebuilt(p: Source, e: Edit, symbols: Asm.Symbols, rest: Memory, mem: Memory)
    requires Assembles(p, symbols) && Accepted(p) && LabelsStand(p, symbols) && Planned(p, e) && Legal(p, e) && R.Turnable(p, e)
    requires Holds(p, e, NewSymbols(p, e, symbols), rest, mem)
    ensures Loaded(p, e, Unpatched(R.Sites(p, e), mem))
  {
    hide Addr, NewSymbols, FinalWord, Planned, Legal, Asm.Line, OpAt, Unpatched, R.Sites, HoldsLine, Assembles, R.Turnable;
    forall i | 0 <= i < |p| && p[i].Insn? && i !in e.drop ensures HoldsAt(p, e, Unpatched(R.Sites(p, e), mem), i) {
      WordRebuilt(p, e, symbols, mem, i);
    }
  }

  lemma {:induction false} WordRebuilt(p: Source, e: Edit, symbols: Asm.Symbols, mem: Memory, i: nat)
    requires Assembles(p, symbols) && Accepted(p) && LabelsStand(p, symbols) && Planned(p, e) && Legal(p, e) && R.Turnable(p, e)
    requires i < |p| && i !in e.drop && p[i].Insn? && HoldsLine(p, e, NewSymbols(p, e, symbols), mem, i)
    ensures HoldsAt(p, e, Unpatched(R.Sites(p, e), mem), i)
  {
    hide Addr, NewSymbols, Planned, Legal, Asm.Line, OpAt, Unpatched, R.Sites, HoldsLine, Assembles, Assembled, Accepted;
    WordHeld(p, e, symbols, mem, i);
    R.SitesElsewhere(p, e, i);
    R.SiteHere(p, e, i);
    PlaceFits(p, e, i);
    WrapNext(Addr(p, e, i));
    UnpatchedWord(R.Sites(p, e), mem, Addr(p, e, i));
    assert StmtOk(p, p[i]) by { AcceptedStmt(p, i); }
    if i in e.turn { TurnedTop(p, e, i); }
  }

  lemma {:induction false} PlaceFits(p: Source, e: Edit, i: nat)
    requires Accepted(p) && i < |p| && i !in e.drop
    ensures ENTRYPOINT <= Addr(p, e, i) && Addr(p, e, i) + p[i].Size() <= Addr(p, e, |p|) <= Old(p, |p|) <= 0x1000
  {
    NewIncreases(p, e, i + 1, |p|);
    NewBelowOld(p, e, |p|);
    R.AcceptedFits(p);
    hide Accepted;
  }

  lemma AcceptedStmt(p: Source, i: nat)
    requires Accepted(p) && i < |p|
    ensures StmtOk(p, p[i])
  {
    hide Addr;
  }

  /** A turned statement is a CALL. */
  lemma {:induction false} TurnedTop(p: Source, e: Edit, i: nat)
    requires Accepted(p) && Legal(p, e) && R.Turnable(p, e) && i < |p| && i in e.turn
    ensures p[i].Insn? && (p[i].target.Some? ==> p[i].target.value <= |p|) && 0x2000 <= Assembled(p, e, i) < 0x3000
  {
    hide Addr, Legal, NNN;
    assert R.TurnableAt(p, i);
    R.TurnKept(p, e, i);
    AcceptedStmt(p, i);
    if p[i].target.Some? {
      AssembledTarget(p, e, i) by { hide Accepted; }
      TopRange(Assembled(p, e, i));
    } else {
      TopRange(p[i].op);
    }
  }

  lemma TopRange(op: word)
    requires Top(op) == 2
    ensures 0x2000 <= op < 0x3000
  {}

  // ------------------------------------------------------------ the original

  lemma UnchangedText(p: Source, i: nat)
    requires i < |p|
    ensures NewText(p, UNCHANGED, i) == p[i].text
  {}

  /** The word a statement of the original assembles to is its opcode. */
  lemma {:induction false} OriginalWord(p: Source, symbols: Asm.Symbols, i: nat)
    requires Assembles(p, symbols) && i < |p| && p[i].Insn?
    ensures p[i].target.Some? ==> p[i].target.value <= |p|
    ensures Assembled(p, UNCHANGED, i) == p[i].op && p[i].text != [] && Asm.Instruction(p[i].text, symbols, true) == Asm.Ok(p[i].op)
  {
    hide Addr, Asm.Instruction, Addressing, Emitted, Number;
    assert EncodesAt(p[i], symbols) && Placed(p, symbols, i);
    if p[i].target.Some? {
      AddressingOp(p[i].text, symbols);
      NameNoNumber(Last(p[i].text));
    }
  }

  lemma {:induction false} OriginalHeld(p: Source, symbols: Asm.Symbols, mem: Memory, i: nat)
    requires Assembles(p, symbols) && Accepted(p) && i < |p| && p[i].Insn? && HoldsLine(p, UNCHANGED, symbols, mem, i)
    ensures HoldsAt(p, UNCHANGED, mem, i)
  {
    hide Addr, Asm.Instruction, Assembles, Assembled, Asm.Line, NewText;
    OriginalWord(p, symbols, i);
    UnchangedText(p, i);
    InstructionLine(p[i].text, Old(p, i), symbols);
    BytesRead(mem, Old(p, i), p[i].op);
  }

  lemma {:induction false} OriginalLoaded(p: Source, symbols: Asm.Symbols, rest: Memory, mem: Memory)
    requires Assembles(p, symbols) && Accepted(p) && Holds(p, UNCHANGED, symbols, rest, mem)
    ensures Loaded(p, UNCHANGED, mem)
  {
    hide Addr, Assembles, HoldsLine, OpAt, Assembled;
    forall i | 0 <= i < |p| && p[i].Insn? ensures HoldsAt(p, UNCHANGED, mem, i) { OriginalHeld(p, symbols, mem, i); }
  }

  // ---------------------------------------------------------------- the data

  /** No turned call stands at `x`. */
  lemma {:induction false} NoSite(p: Source, e: Edit, x: int)
    requires Accepted(p) && Legal(p, e) && R.Turnable(p, e)
    requires forall i :: 0 <= i < |p| && i !in e.drop && p[i].Insn? ==> x != Addr(p, e, i)
    ensures x !in R.Sites(p, e)
  {
    hide Addr, Accepted, Legal, Top;
    if x in R.Sites(p, e) {
      var i :| i in e.turn && i <= |p| && x == Addr(p, e, i);
      assert R.TurnableAt(p, i);
      R.TurnPlace(p, e, i);
      assert false;
    }
  }

  /** Bytes that correspond are equal: outside the ROM. */
  lemma {:induction false} OutsideSame(p: Source, e: Edit, rest: Memory, symbols: Asm.Symbols, m: Asm.Symbols, a: Memory, z: Memory, x: int)
    requires Accepted(p) && Legal(p, e) && R.Turnable(p, e) && Holds(p, UNCHANGED, symbols, rest, a) && Holds(p, e, m, rest, z)
    requires 0 <= x < 0x1000 && (x < ENTRYPOINT || x >= Old(p, |p|))
    ensures Unpatched(R.Sites(p, e), z)[x] == a[x]
  {
    hide Addr, Accepted, Legal, HoldsLine, R.Turnable, R.Sites, Unturned;
    NewBelowOld(p, e, |p|);
    forall i | 0 <= i < |p| && i !in e.drop && p[i].Insn? ensures x != Addr(p, e, i) { PlaceFits(p, e, i); }
    NoSite(p, e, x);
  }

  /** Inside a data statement. */
  lemma {:induction false} InsideSame(p: Source, e: Edit, rest: Memory, symbols: Asm.Symbols, a: Memory, z: Memory, k: nat, j: nat)
    requires Assembles(p, symbols) && Accepted(p) && LabelsStand(p, symbols) && DataLabels(p, symbols) && Planned(p, e) && Legal(p, e) && R.Turnable(p, e)
    requires Holds(p, UNCHANGED, symbols, rest, a) && Holds(p, e, NewSymbols(p, e, symbols), rest, z)
    requires k < |p| && p[k].Data? && j < p[k].size - if p[k].target.Some? then 2 else 0
    ensures Old(p, k) + j < 0x1000 && Addr(p, e, k) + j < 0x1000
    ensures Unpatched(R.Sites(p, e), z)[Addr(p, e, k) + j] == a[Old(p, k) + j]
  {
    hide Addr, Assembles, Accepted, Planned, Legal, R.Turnable, R.Sites, Unpatched, NewSymbols, NewText, Asm.Line, LabelsStand, DataLabels, Holds, HoldsLine;
    AssemblesFits(p, symbols);
    Compaction.DataKept(p, e, k);
    DataMoved(p, e, symbols, k);
    DataText(p, e, k);
    UnchangedText(p, k);
    HeldByte(p, UNCHANGED, symbols, rest, a, k, j);
    HeldByte(p, e, NewSymbols(p, e, symbols), rest, z, k, j);
    DataApart(p, e, k, j);
    assert Unpatched(R.Sites(p, e), z)[Addr(p, e, k) + j] == z[Addr(p, e, k) + j];
  }

  lemma HeldByte(p: Source, e: Edit, m: Asm.Symbols, rest: Memory, mem: Memory, k: nat, j: nat)
    requires Holds(p, e, m, rest, mem) && k < |p| && k !in e.drop && j < p[k].Size()
    ensures
      var r := Asm.Line(NewText(p, e, k), Addr(p, e, k), m, true);
      r.Ok? && |r.value| == p[k].Size() && Addr(p, e, k) + j < 0x1000 && mem[Addr(p, e, k) + j] == r.value[j]
  {
    hide Addr, NewText, Asm.Line;
    assert HoldsLine(p, e, m, mem, k);
  }

  lemma {:induction false} DataApart(p: Source, e: Edit, k: nat, j: nat)
    requires Accepted(p) && Legal(p, e) && R.Turnable(p, e) && k < |p| && p[k].Data? && j < p[k].size
    ensures Addr(p, e, k) + j !in R.Sites(p, e)
  {
    hide Addr, Accepted, Legal, R.Turnable, R.Sites;
    Compaction.DataKept(p, e, k);
    forall i | 0 <= i < |p| && i !in e.drop && p[i].Insn? ensures Addr(p, e, k) + j != Addr(p, e, i) {
      if Addr(p, e, k) + j == Addr(p, e, i) { OneKept(p, e, i, k, Addr(p, e, i)); }
    }
    NoSite(p, e, Addr(p, e, k) + j);
  }

  /** The data of the two programs corresponds from the start. */
  lemma {:induction false} DataSame(p: Source, e: Edit, rest: Memory, symbols: Asm.Symbols, a: Memory, z: Memory)
    requires Assembles(p, symbols) && Accepted(p) && LabelsStand(p, symbols) && DataLabels(p, symbols) && Planned(p, e) && Legal(p, e) && R.Turnable(p, e)
    requires Holds(p, UNCHANGED, symbols, rest, a) && Holds(p, e, NewSymbols(p, e, symbols), rest, z)
    ensures SameData(p, e, a, Unpatched(R.Sites(p, e), z))
  {
    hide Addr, Assembles, Accepted, Planned, Legal, R.Turnable, R.Sites, Unpatched, NewSymbols, LabelsStand, DataLabels, Holds;
    AssemblesFits(p, symbols);
    forall x, y {:trigger Corresponds(p, e, x, y)} | 0 <= x < 0x1000 && 0 <= y < 0x1000 && Corresponds(p, e, x, y)
      ensures a[x] == Unpatched(R.Sites(p, e), z)[y]
    {
      if x == y && (x < ENTRYPOINT || x >= Old(p, |p|)) {
        OutsideSame(p, e, rest, symbols, NewSymbols(p, e, symbols), a, z, x);
      } else {
        var k :| 0 <= k < |p| && InData(p, k, x) && y == x - Old(p, k) + Addr(p, e, k);
        InsideSame(p, e, rest, symbols, a, z, k, x - Old(p, k));
      }
    }
  }

  // ---------------------------------------------------------- the whole run

  /** A machine at reset. */
  predicate AtReset(a: Core) { a.pc == ENTRYPOINT && a.stack == [] }

  /** The returned program with the calls put back. */
  function Recalled(p: Source, e: Edit, z: Core): Core { z.(mem := Unpatched(R.Sites(p, e), z.mem)) }

  /** The run theorems apply to the two programs as they are assembled. */
  lemma {:induction false} StartsRebuilt(p: Source, e: Edit, symbols: Asm.Symbols, rest: Memory, a: Core, z: Core)
    requires Assembles(p, symbols) && Accepted(p) && LabelsStand(p, symbols) && DataLabels(p, symbols) && Planned(p, e) && Legal(p, e) && |p| > 0
    requires Holds(p, UNCHANGED, symbols, rest, a.mem) && Holds(p, e, NewSymbols(p, e, symbols), rest, z.mem)
    requires AtReset(a) && z == a.(mem := z.mem)
    ensures R.Turnable(p, e) && Started(p, e, a, Recalled(p, e, z)) && T.Rewritten(R.Sites(p, e), Recalled(p, e, z)) == z
  {
    hide Addr, Accepted, Planned, Legal, R.Sites, Unpatched, NewSymbols, LabelsStand, DataLabels, Holds, Loaded, SameData, T.Patch, Placed, Encodes;
    R.PlannedTurns(p, e, symbols);
    OriginalLoaded(p, symbols, rest, a.mem);
    LoadedRebuilt(p, e, symbols, rest, z.mem);
    DataSame(p, e, rest, symbols, a.mem, z.mem);
    PatchedBack(R.Sites(p, e), z.mem);
  }
}
