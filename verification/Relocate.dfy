/** Symbolization, which the optimizer does before it looks at anything else:
    numeric addresses in the words of the statements become labels. What the
    assembler makes of the new words, and what stays at a fixed address. */
module Relocate {
  import opened Chip8
  import opened Text
  import opened Numbers
  import opened Peephole
  import opened Optimizer
  import Asm
  import S = Statements

  // ---------------------------------------------------------- what it does

  /** JP, CALL and LD I, whose last operand is an address. */
  predicate Addressing(t: seq<string>)
  {
    |t| > 1 && (t[0] in {"JP", "CALL"} || (LoadText(t) && t[1] == "I"))
  }

  function Last(t: seq<string>): string
    requires t != []
  {
    t[|t| - 1]
  }

  /** The number the optimizer reads in the last operand. */
  function Numeral(s: Stmt): Option<int>
  {
    if |s.text| > 1 then ParseNumber(Last(s.text)) else None
  }

  /** A jump, call or load of I that names its address by number. */
  predicate Refers(s: Stmt) { s.Insn? && Addressing(s.text) && Numeral(s).Some? }

  /** Does a statement start at `v`? */
  predicate Boundary(p: Source, v: int)
  {
    exists k :: 0 <= k < |p| && Old(p, k) == v
  }

  /** The addresses that get a label. */
  predicate Generated(p: Source, v: int)
  {
    ENTRYPOINT <= v < Old(p, |p|) && Boundary(p, v) && exists j :: 0 <= j < |p| && Refers(p[j]) && Numeral(p[j]) == Some(v)
  }

  predicate Fits(p: Source) { Old(p, |p|) <= 0x1000 }

  /** The first statement at `v`, of those before `n`. */
  function Index(p: Source, v: int, n: nat): (k: nat)
    requires n <= |p|
    ensures k <= n && (k < n ==> Old(p, k) == v)
    ensures k == n ==> forall l :: 0 <= l < n ==> Old(p, l) != v
  {
    if n == 0 then 0
    else if Index(p, v, n - 1) < n - 1 then Index(p, v, n - 1)
    else if Old(p, n - 1) == v then n - 1 else n
  }

  /** The first label the source has at `v`, in the statements before `n`. */
  function Existing(p: Source, v: int, n: nat): (l: Option<string>)
    requires n <= |p|
    ensures l.Some? ==> exists k :: 0 <= k < n && Old(p, k) == v && p[k].labels != [] && p[k].labels[0] == l.value
    ensures l.None? ==> forall k :: 0 <= k < n && Old(p, k) == v ==> p[k].labels == []
  {
    if n == 0 then None
    else if Existing(p, v, n - 1).Some? then Existing(p, v, n - 1)
    else if Old(p, n - 1) == v && p[n - 1].labels != [] then Some(p[n - 1].labels[0]) else None
  }

  function GeneratedName(v: address): string { "ADDR" + Hex3(v) }

  function NameAt(p: Source, v: address): string
  {
    match Existing(p, v, |p|) case Some(l) => l case None => GeneratedName(v)
  }

  /** The statement with its last word changed, which is a label on `k`. */
  function Renamed(s: Stmt, name: string, k: nat): (r: Stmt)
    requires s.text != []
    ensures r.Size() == s.Size() && r.labels == s.labels && r.named == s.named && (r.Insn? <==> s.Insn?) && (r.Org? <==> s.Org?)
    ensures |r.text| == |s.text| && r.text == s.text[..|s.text| - 1] + [name]
    ensures s.Insn? ==> r.op == s.op
    ensures !s.Org? ==> r.target == Some(k)
  {
    var t := s.text[..|s.text| - 1] + [name];
    match s
    case Insn(_, op, _, ls, named) => Insn(t, op, Some(k), ls, named)
    case Data(_, size, _, ls, named) => Data(t, size, Some(k), ls, named)
    case Org(_, gap, ls, named) => Org(t, gap, ls, named)
  }

  predicate Hit(p: Source, s: Stmt)
  {
    Numeral(s).Some? && Generated(p, Numeral(s).value)
  }

  function Linked(p: Source, s: Stmt): Stmt
    requires Fits(p)
  {
    if Hit(p, s) then Renamed(s, NameAt(p, Numeral(s).value), Index(p, Numeral(s).value, |p|)) else s
  }

  /** The label line that is put before a statement at `a`. */
  function Anchored(p: Source, a: int, s: Stmt): Stmt
    requires Fits(p)
  {
    if Generated(p, a) && Existing(p, a, |p|).None? then s.(labels := [GeneratedName(a)] + s.labels) else s
  }

  /** The source with numeric in-ROM addresses made labels. */
  function Symbolized(p: Source): (q: Source)
    requires Fits(p)
    ensures |q| == |p|
  {
    seq(|p|, i requires 0 <= i < |p| => Anchored(p, Old(p, i), Linked(p, p[i])))
  }

  /** The labels, with those at the statements before `n` that are referred to. */
  function Extended(p: Source, symbols: Asm.Symbols, n: nat): Asm.Symbols
    requires n <= |p| && Fits(p)
  {
    if n == 0 then symbols
    else
      var m := Extended(p, symbols, n - 1);
      if Generated(p, Old(p, n - 1)) then m[NameAt(p, Old(p, n - 1)) := Old(p, n - 1)] else m
  }

  method Collect(p: Source) returns (generated: set<int>)
    ensures forall v :: v in generated <==> Generated(p, v)
  {
    hide Addr, Numeral, Refers;
    var end, starts := Old(p, |p|), {};
    for i := 0 to |p|
      invariant starts == set k | 0 <= k < i :: Old(p, k)
    {
      starts := starts + {Old(p, i)};
    }
    assert forall v :: v in starts <==> Boundary(p, v);
    generated := {};
    for i := 0 to |p|
      invariant forall v :: v in generated <==>
        ENTRYPOINT <= v < end && v in starts && exists j :: 0 <= j < i && Refers(p[j]) && Numeral(p[j]) == Some(v)
    {
      if Refers(p[i]) {
        RefersNumeral(p[i]);
        var v := Numeral(p[i]).value;
        if ENTRYPOINT <= v < end && v in starts { generated := generated + {v}; }
      }
    }
  }

  /** symbolize_in_rom_addresses: one loop collects the addresses, one rewrites
      the statements. */
  method Symbolize(p: Source, symbols: Asm.Symbols) returns (q: Source, labels: Asm.Symbols)
    requires Fits(p)
    ensures q == Symbolized(p) && labels == Extended(p, symbols, |p|)
  {
    hide Addr, Numeral, Generated, Renamed, NameAt, GeneratedName, Index, Existing, Linked, Anchored;
    var generated := Collect(p);
    q, labels := [], symbols;
    for i := 0 to |p|
      invariant |q| == i && forall k :: 0 <= k < i ==> q[k] == Symbolized(p)[k]
      invariant labels == Extended(p, symbols, i)
    {
      var s, a := p[i], Old(p, i);
      LinkedIs(p, s);
      AnchoredIs(p, a, Linked(p, s));
      if Numeral(s).Some? && Numeral(s).value in generated {
        s := Renamed(s, NameAt(p, Numeral(s).value), Index(p, Numeral(s).value, |p|));
      }
      if a in generated {
        labels := labels[NameAt(p, a) := a];
        if Existing(p, a, |p|).None? { s := s.(labels := [GeneratedName(a)] + s.labels); }
      }
      q := q + [s];
    }
  }

  lemma RefersNumeral(s: Stmt)
    requires Refers(s)
    ensures Numeral(s).Some?
  {
    hide Numeral;
  }

  lemma LinkedIs(p: Source, s: Stmt)
    requires Fits(p)
    ensures Numeral(s).Some? && Generated(p, Numeral(s).value) ==>
      s.text != [] && ENTRYPOINT <= Numeral(s).value < 0x1000
      && Linked(p, s) == Renamed(s, NameAt(p, Numeral(s).value), Index(p, Numeral(s).value, |p|))
    ensures !(Numeral(s).Some? && Generated(p, Numeral(s).value)) ==> Linked(p, s) == s
  {
    hide Addr, Index, Renamed, NameAt;
  }

  lemma AnchoredIs(p: Source, a: int, s: Stmt)
    requires Fits(p)
    ensures Generated(p, a) ==> ENTRYPOINT <= a < 0x1000
    ensures Anchored(p, a, s) == if Generated(p, a) && Existing(p, a, |p|).None? then s.(labels := [GeneratedName(a)] + s.labels) else s
  {
    hide Addr, Existing, GeneratedName;
  }

  // ------------------------------------------ what the assembler makes of it

  /** Every word that has a value keeps it. */
  ghost predicate Keeps(t: seq<string>, was: Asm.Symbols, now: Asm.Symbols)
  {
    forall w :: w in t && Asm.Value(w, was, true).Ok? ==> Asm.Value(w, now, true) == Asm.Value(w, was, true)
  }

  /** More labels change no accepted instruction. */
  lemma {:induction false} InstructionKept(t: seq<string>, was: Asm.Symbols, now: Asm.Symbols)
    requires t != [] && Keeps(t, was, now) && Asm.Instruction(t, was, true).Ok?
    ensures Asm.Instruction(t, now, true) == Asm.Instruction(t, was, true)
  {
    hide Asm.Ranged, Asm.Register, Asm.Encode, Asm.RegisterOrByte, Asm.LoadTo, Asm.Value;
    var w := t[|t| - 1];
    assert w in t;
    RangedKept(w, 0xFFF, was, now);
    RangedKept(w, 0xFF, was, now);
    RangedKept(w, 0xF, was, now);
    if t[0] == "LD" {
      LoadKept(t, was, now);
    } else if t[0] in {"ADD", "SE", "SNE"} {
      PairWords(t, was);
      if Asm.Register(t[1]).Ok? {
        var x := Asm.Register(t[1]).value;
        EitherKept(x, w, 0x8004, 0x7000, was, now);
        EitherKept(x, w, 0x5000, 0x3000, was, now);
        EitherKept(x, w, 0x9000, 0x4000, was, now);
      }
    }
  }

  lemma PairWords(t: seq<string>, symbols: Asm.Symbols)
    requires t != [] && t[0] in {"ADD", "SE", "SNE"} && Asm.Instruction(t, symbols, true).Ok?
    ensures |t| == 3
  {
    hide Asm.RegisterOrByte;
  }

  lemma {:induction false} LoadKept(t: seq<string>, was: Asm.Symbols, now: Asm.Symbols)
    requires Keeps(t, was, now) && Asm.LoadTo(t, was, true).Ok?
    ensures Asm.LoadTo(t, now, true) == Asm.LoadTo(t, was, true)
  {
    hide Asm.Ranged, Asm.Register, Asm.Encode, Asm.RegisterOrByte, Asm.Value;
    var w := t[2];
    assert w in t;
    RangedKept(w, 0xFFF, was, now);
    if Asm.Register(t[1]).Ok? { EitherKept(Asm.Register(t[1]).value, w, 0x8000, 0x6000, was, now); }
  }

  lemma RangedKept(w: string, max: nat, was: Asm.Symbols, now: Asm.Symbols)
    requires Asm.Value(w, was, true).Ok? ==> Asm.Value(w, now, true) == Asm.Value(w, was, true)
    ensures Asm.Ranged(w, max, was, true).Ok? ==> Asm.Ranged(w, max, now, true) == Asm.Ranged(w, max, was, true)
  {
    hide Asm.Value;
  }

  lemma {:induction false} EitherKept(x: nibble, w: string, reg: word, byt: word, was: Asm.Symbols, now: Asm.Symbols)
    requires reg % 0x1000 < 0x10 && reg <= 0xF000 && byt % 0x1000 == 0
    requires Asm.Value(w, was, true).Ok? ==> Asm.Value(w, now, true) == Asm.Value(w, was, true)
    ensures Asm.RegisterOrByte(x, w, reg, byt, was, true).Ok? ==>
      Asm.RegisterOrByte(x, w, reg, byt, now, true) == Asm.RegisterOrByte(x, w, reg, byt, was, true)
  {
    hide Asm.Value, Asm.Register, Asm.Encode, Asm.LooksLikeRegister;
  }

  lemma {:induction false} DataKept(ts: seq<string>, wide: bool, was: Asm.Symbols, now: Asm.Symbols)
    requires Keeps(ts, was, now) && Asm.Data(ts, wide, was, true).Ok?
    ensures Asm.Data(ts, wide, now, true) == Asm.Data(ts, wide, was, true)
  {
    hide Asm.Value;
    if ts != [] {
      assert ts[0] in ts;
      DataKept(ts[1..], wide, was, now);
    }
  }

  /** An accepted instruction has an address for its opcode exactly when it has
      one for its last operand. */
  lemma {:induction false} AddressingOp(t: seq<string>, symbols: Asm.Symbols)
    requires t != [] && Asm.Instruction(t, symbols, true).Ok?
    ensures
      var op := Asm.Instruction(t, symbols, true).value;
      && (TakesAddress(op) <==> Addressing(t))
      && (Addressing(t) ==> Asm.Value(Last(t), symbols, true) == Asm.Ok(NNN(op)))
  {
    hide Asm.Value, Asm.Register, Asm.Encode, Top, NNN, X, KK, N, LoadsRegister, Asm.Instruction;
    if t[0] in {"JP", "CALL"} {
      JumpOp(t, symbols);
    } else if t[0] == "LD" {
      LoadWords(t, symbols);
      if t[1] == "I" { IndexLoad(t, symbols); } else { OtherLoad(t, symbols); }
    } else {
      OtherOp(t, symbols);
    }
  }

  lemma {:induction false} JumpOp(t: seq<string>, symbols: Asm.Symbols)
    requires t != [] && t[0] in {"JP", "CALL"} && Asm.Instruction(t, symbols, true).Ok?
    ensures |t| > 1 && var op := Asm.Instruction(t, symbols, true).value; TakesAddress(op) && Asm.Value(Last(t), symbols, true) == Asm.Ok(NNN(op))
  {
    hide Asm.Value, Top, NNN;
    var z := Asm.Ranged(Last(t), 0xFFF, symbols, true).value;
    S.AddressKind(if |t| == 3 then 0xB000 else if t[0] == "JP" then 0x1000 else 0x2000, z);
  }

  lemma LoadWords(t: seq<string>, symbols: Asm.Symbols)
    requires t != [] && t[0] == "LD" && Asm.Instruction(t, symbols, true).Ok?
    ensures |t| == 3
  {}

  /** The other forms of LD. */
  lemma {:induction false} OtherLoad(t: seq<string>, symbols: Asm.Symbols)
    requires LoadText(t) && t[1] != "I" && Asm.Instruction(t, symbols, true).Ok?
    ensures !TakesAddress(Asm.Instruction(t, symbols, true).value)
  {
    hide Asm.Register, Asm.RegisterOrByte, Asm.Encode, S.IsRegister, Top, X, KK, N, Y;
    LoadOp(t, symbols);
    if t[1] in {"DT", "ST", "F", "B", "[I]"} {
      S.EncodedBare(if t[1] == "DT" then 0xF015 else if t[1] == "ST" then 0xF018 else if t[1] == "F" then 0xF029 else if t[1] == "B" then 0xF033
        else 0xF055, Asm.Register(t[2]).value);
      assert 0xF015 / 0x1000 == 0xF018 / 0x1000 == 0xF029 / 0x1000 == 0xF033 / 0x1000 == 0xF055 / 0x1000 == 0xF;
    } else {
      S.RegisterRead(t[1]);
      RegisterLoad(t, symbols);
    }
  }

  /** Everything but JP, CALL and LD. */
  lemma {:induction false} OtherOp(t: seq<string>, symbols: Asm.Symbols)
    requires t != [] && t[0] !in {"JP", "CALL", "LD"} && Asm.Instruction(t, symbols, true).Ok?
    ensures !TakesAddress(Asm.Instruction(t, symbols, true).value)
  {
    hide Asm.Instruction, S.ReadRightly, Top;
    var op := Asm.Instruction(t, symbols, true).value;
    if t[0] == "DRW" {
      DrawOp(t, symbols);
    } else if t[0] == "ADD" {
      SumOp(t, symbols);
    } else if t[0] in {"SE", "SNE", "SKP", "SKNP"} {
      S.SkipsRead(t, symbols);
      SkipGroup(op);
    } else if t[0] in {"CLS", "RET"} {
      BareOp(t, symbols);
    } else {
      Mnemonics(t, symbols);
      S.ResultRead(t, symbols);
    }
  }

  lemma Mnemonics(t: seq<string>, symbols: Asm.Symbols)
    requires t != [] && Asm.Instruction(t, symbols, true).Ok?
    ensures t[0] in {"CLS", "RET", "JP", "CALL", "SE", "SNE", "LD", "ADD", "DRW", "SKP", "SKNP"}
      || t[0] in {"RND", "OR", "AND", "XOR", "SUB", "SUBN", "SHR", "SHL"}
  {}

  lemma {:induction false} SkipGroup(op: word)
    requires S.ReadRightly(Some(S.Skip), op)
    ensures !TakesAddress(op)
  {
    hide Top, X, KK, N, NNN;
  }

  lemma BareOp(t: seq<string>, symbols: Asm.Symbols)
    requires t != [] && t[0] in {"CLS", "RET"} && Asm.Instruction(t, symbols, true).Ok?
    ensures !TakesAddress(Asm.Instruction(t, symbols, true).value)
  {
    assert Top(0x00E0) == 0 == Top(0x00EE);
  }

  lemma {:induction false} SumOp(t: seq<string>, symbols: Asm.Symbols)
    requires t != [] && t[0] == "ADD" && Asm.Instruction(t, symbols, true).Ok?
    ensures !TakesAddress(Asm.Instruction(t, symbols, true).value)
  {
    hide Asm.Register, Asm.Encode, Asm.RegisterOrByte, Top;
    S.GroupKinds();
    if t[1] == "I" {
      S.EncodedBare(0xF01E, Asm.Register(t[2]).value);
    } else {
      S.RegisterOrByteRead(Asm.Register(t[1]).value, t[2], 0x8004, 0x7000, symbols);
    }
  }

  lemma {:induction false} DrawOp(t: seq<string>, symbols: Asm.Symbols)
    requires t != [] && t[0] == "DRW" && Asm.Instruction(t, symbols, true).Ok?
    ensures Top(Asm.Instruction(t, symbols, true).value) == 0xD
  {
    hide Asm.Value, Asm.Register, Asm.Encode, Top;
    S.DrawKind(Asm.Register(t[1]).value, Asm.Register(t[2]).value, Asm.Ranged(t[3], 0xF, symbols, true).value);
  }

  /** An accepted operand that the optimizer reads as a number is no more than a
      byte, unless it is an address. */
  lemma {:induction false} OperandSmall(t: seq<string>, symbols: Asm.Symbols)
    requires |t| > 1 && Asm.Instruction(t, symbols, true).Ok? && !Addressing(t) && ParseNumber(Last(t)).Some?
    ensures Asm.Value(Last(t), symbols, true).Ok? && Asm.Value(Last(t), symbols, true).value <= 0xFF
  {
    hide Asm.Ranged, Asm.Register, Asm.Encode, Asm.RegisterOrByte, ParseNumber;
    var w := Last(t);
    NumberNoRegister(w);
    assert Asm.Register(w).Fail? by { if Asm.Register(w).Ok? { S.RegisterRead(w); } }
    forall x: nibble, reg: word, byt: word
      | reg % 0x1000 < 0x10 && reg <= 0xF000 && byt % 0x1000 == 0 && Asm.RegisterOrByte(x, w, reg, byt, symbols, true).Ok?
      ensures Asm.Ranged(w, 0xFF, symbols, true).Ok?
    {
      EitherByte(x, w, reg, byt, symbols);
    }
    forall max: nat | max <= 0xFF && Asm.Ranged(w, max, symbols, true).Ok?
      ensures Asm.Value(w, symbols, true).Ok? && Asm.Value(w, symbols, true).value <= 0xFF
    {
      RangedSmall(w, max, symbols);
    }
    hide Asm.LooksLikeRegister, Asm.Value;
  }

  lemma {:induction false} EitherByte(x: nibble, w: string, reg: word, byt: word, symbols: Asm.Symbols)
    requires reg % 0x1000 < 0x10 && reg <= 0xF000 && byt % 0x1000 == 0 && Asm.RegisterOrByte(x, w, reg, byt, symbols, true).Ok?
    requires !Asm.LooksLikeRegister(w)
    ensures Asm.Ranged(w, 0xFF, symbols, true).Ok?
  {
    hide Asm.Ranged, Asm.Encode, Asm.LooksLikeRegister;
  }

  lemma RangedSmall(w: string, max: nat, symbols: Asm.Symbols)
    requires max <= 0xFF && Asm.Ranged(w, max, symbols, true).Ok?
    ensures Asm.Value(w, symbols, true).Ok? && Asm.Value(w, symbols, true).value <= 0xFF
  {
    hide Asm.Value;
  }

  // -------------------------------------------------------- accepted sources

  /** A statement the assembler accepts, with its labels and its target. */
  ghost predicate Placed(p: Source, symbols: Asm.Symbols, i: nat)
    requires i < |p|
  {
    var s := p[i];
    && (s.Org? || s.Size() > 0) && (s.named ==> s.labels != []) && s.text != []
    && (forall l :: l in s.labels ==> l in symbols && symbols[l] == Old(p, i))
    && (!s.Insn? ==> s.text[0] in {".ORG", ".BYTE", ".WORD"} && (s.Org? <==> s.text[0] == ".ORG") && Emitted(s, Old(p, i), symbols))
    && (s.Insn? ==> (s.target.Some? <==> Addressing(s.text) && Last(s.text) in symbols))
    && (!s.Org? && s.target.Some? ==> s.target.value <= |p| && Names(s, symbols, Old(p, s.target.value)))
  }

  /** The last word is a label with the value `v`. */
  predicate Names(s: Stmt, symbols: Asm.Symbols, v: int)
  {
    |s.text| > 1 && Last(s.text) in symbols && symbols[Last(s.text)] == v
  }

  predicate Emitted(s: Stmt, pc: nat, symbols: Asm.Symbols)
  {
    var r := Asm.Line(s.text, pc, symbols, true);
    r.Ok? && |r.value| == s.Size()
  }

  /** A source the assembler accepts. */
  ghost predicate Assembles(p: Source, symbols: Asm.Symbols)
  {
    Fits(p) && Encodes(p, symbols) && forall i :: 0 <= i < |p| ==> Placed(p, symbols, i)
  }

  /** The source does not use a name the optimizer is about to use. */
  ghost predicate Fresh(p: Source, symbols: Asm.Symbols)
  {
    forall v: address :: Generated(p, v) && Existing(p, v, |p|).None? ==> GeneratedName(v) !in symbols
  }

  lemma AssemblesFits(p: Source, symbols: Asm.Symbols)
    requires Assembles(p, symbols)
    ensures Fits(p)
  {}

  lemma NameGiven(v: address)
    ensures Asm.IsName(GeneratedName(v)) && GeneratedName(v) != "I"
  {}

  lemma {:induction false} NamesDiffer(v: address, w: address)
    requires GeneratedName(v) == GeneratedName(w)
    ensures v == w
  {
    hide Number, HexDigit;
    AddressRoundTrip(v);
    AddressRoundTrip(w);
    assert GeneratedName(v)[4..] == Hex3(v) && GeneratedName(w)[4..] == Hex3(w);
  }

  lemma {:induction false} NameValue(p: Source, symbols: Asm.Symbols, v: address)
    requires Assembles(p, symbols) && Fresh(p, symbols) && Generated(p, v)
    ensures
      var name := NameAt(p, v);
      if Existing(p, v, |p|).Some? then name in symbols && symbols[name] == v else name == GeneratedName(v) && name !in symbols
  {
    hide Addr, GeneratedName, Generated, Encodes, Asm.Line, Addressing;
    if Existing(p, v, |p|).Some? {
      var k :| 0 <= k < |p| && Old(p, k) == v && p[k].labels != [] && p[k].labels[0] == Existing(p, v, |p|).value;
      assert Placed(p, symbols, k);
      assert p[k].labels[0] in p[k].labels;
    }
  }

  lemma {:induction false} SameName(p: Source, symbols: Asm.Symbols, v: address, w: address)
    requires Assembles(p, symbols) && Fresh(p, symbols) && Generated(p, v) && Generated(p, w) && NameAt(p, v) == NameAt(p, w)
    ensures v == w
  {
    NameValue(p, symbols, v);
    NameValue(p, symbols, w);
    if Existing(p, v, |p|).None? && Existing(p, w, |p|).None? { NamesDiffer(v, w); }
    hide Assembles, Generated, GeneratedName, NameAt, Existing;
  }

  /** The old labels keep their values, the new ones have theirs. */
  ghost predicate Extends(p: Source, symbols: Asm.Symbols, m: Asm.Symbols, n: nat)
    requires n <= |p|
  {
    && (forall l :: l in symbols ==> l in m && m[l] == symbols[l])
    && (forall l :: l in m && l !in symbols ==> Asm.IsName(l) && l != "I")
    && forall k :: 0 <= k < n && Generated(p, Old(p, k)) && Old(p, k) < 0x1000 ==> NameAt(p, Old(p, k)) in m && m[NameAt(p, Old(p, k))] == Old(p, k)
  }

  lemma {:induction false} ExtendedHas(p: Source, symbols: Asm.Symbols, n: nat)
    requires Assembles(p, symbols) && Fresh(p, symbols) && n <= |p|
    ensures Extends(p, symbols, Extended(p, symbols, n), n)
  {
    hide Assembles, Generated, GeneratedName, NameAt, Existing, Addr, Fresh, Asm.IsName;
    if n > 0 {
      ExtendedHas(p, symbols, n - 1);
      var a := Old(p, n - 1);
      assert Fits(p) by { AssemblesFits(p, symbols); }
      AnchoredIs(p, a, p[n - 1]);
      if Generated(p, a) {
        NameValue(p, symbols, a);
        NameGiven(a);
        forall k | 0 <= k < n && Generated(p, Old(p, k)) && Old(p, k) < 0x1000 && NameAt(p, Old(p, k)) == NameAt(p, a) ensures Old(p, k) == a {
          SameName(p, symbols, Old(p, k), a);
        }
      }
    }
  }

  // ------------------------------------------------------- one operand word

  /** Octal digits worth a byte are worth less than 0x200 as decimal ones. */
  lemma {:induction false} OctalBound(s: string)
    requires AllDigits(s, 8)
    ensures Magnitude(s, 8) == 0 ==> Magnitude(s, 10) == 0
    ensures Magnitude(s, 8) < 4 ==> Magnitude(s, 10) < 4
    ensures Magnitude(s, 8) < 0x20 ==> Magnitude(s, 10) < 38
    ensures Magnitude(s, 8) < 0x100 ==> Magnitude(s, 10) < 378
  {
    if s != "" {
      OctalBound(s[..|s| - 1]);
      OctalStep(Magnitude(s[..|s| - 1], 8), Magnitude(s[..|s| - 1], 10), DigitValue(s[|s| - 1]));
    }
  }

  lemma OctalStep(a: nat, b: nat, d: nat)
    requires d < 8 && (a < 4 ==> b < 4) && (a < 0x20 ==> b < 38)
    requires a == 0 ==> b == 0
    ensures 8 * a + d < 4 ==> 10 * b + d < 4
    ensures 8 * a + d < 0x20 ==> 10 * b + d < 38
    ensures 8 * a + d < 0x100 ==> 10 * b + d < 378
    ensures 8 * a + d == 0 ==> 10 * b + d == 0
  {}

  /** An address to the optimizer is no byte to the assembler. */
  lemma {:induction false} SmallStaysSmall(w: string)
    requires Number(w).Some? && Number(w).value <= 0xFF && ParseNumber(w).Some?
    ensures ParseNumber(w).value < ENTRYPOINT
  {
    hide Magnitude, ParseNumber, PyInt;
    if !Signed(w) {
      UnsignedAgree(w);
    } else {
      var body := w[1..];
      SignedParse(w);
      if |body| > 1 && body[0] == '0' && ToUpper(body[1]) == 'X' {
        SignedHex(w);
      } else if body[0] == '0' {
        AllDigitsMore(body, 8, 10);
        if w[0] == '+' { OctalBound(body); }
      }
    }
  }

  /** What an accepted last operand is when the optimizer reads an address in it. */
  lemma {:induction false} LastValue(p: Source, symbols: Asm.Symbols, i: nat)
    requires Assembles(p, symbols) && i < |p| && Numeral(p[i]).Some? && Numeral(p[i]).value >= ENTRYPOINT
    ensures p[i].Insn? ==> Addressing(p[i].text)
    ensures Number(Last(p[i].text)).Some? && Number(Last(p[i].text)).value <= 0xFFFF
    ensures Asm.Value(Last(p[i].text), symbols, true) == Asm.Ok(Number(Last(p[i].text)).value)
  {
    hide Addr, Asm.Value, ParseNumber, Number, Addressing, Asm.Instruction, Asm.Line;
    var s := p[i];
    assert EncodesAt(s, symbols) && Placed(p, symbols, i);
    if s.Insn? {
      AddressingOp(s.text, symbols);
      if !Addressing(s.text) {
        OperandSmall(s.text, symbols);
        NumberValue(Last(s.text), symbols);
        SmallStaysSmall(Last(s.text));
      }
    } else {
      ListValue(s.text, Old(p, i), symbols);
    }
    NumberValue(Last(s.text), symbols);
  }

  lemma {:induction false} NumberValue(w: string, symbols: Asm.Symbols)
    requires WellNamed(symbols) && Asm.Value(w, symbols, true).Ok? && ParseNumber(w).Some?
    ensures Number(w).Some? && Asm.Value(w, symbols, true).value == Number(w).value
  {
    hide ParseNumber, Number, Asm.IsName;
    if w in symbols { NameNoNumber(w); }
  }

  /** The last operand of a directive has a value. */
  lemma {:induction false} ListValue(t: seq<string>, pc: nat, symbols: Asm.Symbols)
    requires |t| > 1 && t[0] in {".ORG", ".BYTE", ".WORD"} && Asm.Line(t, pc, symbols, true).Ok?
    ensures Asm.Value(Last(t), symbols, true).Ok?
  {
    hide Asm.Value, Asm.Data;
    if t[0] != ".ORG" { DataValue(t[1..], t[0] == ".WORD", symbols); }
  }

  lemma {:induction false} DataValue(ts: seq<string>, wide: bool, symbols: Asm.Symbols)
    requires ts != [] && Asm.Data(ts, wide, symbols, true).Ok?
    ensures Asm.Value(Last(ts), symbols, true).Ok?
  {
    hide Asm.Value;
    if |ts| > 1 { DataValue(ts[1..], wide, symbols); }
  }

  /** An operand that names its address: another word of the same value. */
  lemma {:induction false} AddressRenamed(t: seq<string>, u: seq<string>, was: Asm.Symbols, now: Asm.Symbols)
    requires Addressing(t) && Asm.Instruction(t, was, true).Ok?
    requires |u| == |t| && u[..|t| - 1] == t[..|t| - 1] && Asm.Value(Last(u), now, true) == Asm.Value(Last(t), was, true)
    ensures Asm.Instruction(u, now, true) == Asm.Instruction(t, was, true) && Addressing(u)
  {
    hide Asm.Value;
    assert forall k :: 0 <= k < |t| - 1 ==> u[k] == u[..|t| - 1][k] == t[k];
  }

  lemma {:induction false} DataRenamed(t: seq<string>, u: seq<string>, wide: bool, was: Asm.Symbols, now: Asm.Symbols)
    requires t != [] && |u| == |t| && Keeps(t, was, now) && Asm.Data(t, wide, was, true).Ok?
    requires (forall k :: 0 <= k < |t| - 1 ==> u[k] == t[k]) && Asm.Value(Last(u), now, true) == Asm.Value(Last(t), was, true)
    ensures Asm.Data(u, wide, now, true) == Asm.Data(t, wide, was, true)
  {
    hide Asm.Value;
    if |t| > 1 {
      assert t[0] in t;
      DataRenamed(t[1..], u[1..], wide, was, now);
    } else {
      assert t[1..] == [] == u[1..];
    }
  }

  lemma {:induction false} ListRenamed(t: seq<string>, u: seq<string>, pc: nat, was: Asm.Symbols, now: Asm.Symbols)
    requires |t| > 1 && t[0] in {".ORG", ".BYTE", ".WORD"} && Asm.Line(t, pc, was, true).Ok? && Keeps(t, was, now)
    requires |u| == |t| && u[..|t| - 1] == t[..|t| - 1] && Asm.Value(Last(u), now, true) == Asm.Value(Last(t), was, true)
    ensures Asm.Line(u, pc, now, true) == Asm.Line(t, pc, was, true)
  {
    hide Asm.Value, Asm.Data;
    assert forall k :: 0 <= k < |t| - 1 ==> u[k] == u[..|t| - 1][k] == t[k];
    if t[0] != ".ORG" { DataRenamed(t[1..], u[1..], t[0] == ".WORD", was, now); }
  }

  lemma {:induction false} ListKept(t: seq<string>, pc: nat, was: Asm.Symbols, now: Asm.Symbols)
    requires t != [] && t[0] in {".ORG", ".BYTE", ".WORD"} && Asm.Line(t, pc, was, true).Ok? && Keeps(t, was, now)
    ensures Asm.Line(t, pc, now, true) == Asm.Line(t, pc, was, true)
  {
    hide Asm.Value, Asm.Data;
    if t[0] != ".ORG" { DataKept(t[1..], t[0] == ".WORD", was, now); }
  }

  lemma InstructionLine(t: seq<string>, pc: nat, symbols: Asm.Symbols)
    requires t != [] && Asm.Instruction(t, symbols, true).Ok?
    ensures Asm.Line(t, pc, symbols, true) == Asm.Ok(Asm.BigEndian(Asm.Instruction(t, symbols, true).value))
  {
    Mnemonics(t, symbols);
    hide Asm.Instruction;
  }

  // ------------------------------------------------------- the new source

  lemma {:induction false} SymbolizedAt(p: Source, i: nat)
    requires Fits(p) && i < |p|
    ensures
      var s, t, a := p[i], Symbolized(p)[i], Old(p, i);
      && t.Size() == s.Size() && (t.Org? <==> s.Org?) && (t.Insn? <==> s.Insn?) && (s.Insn? ==> t.op == s.op) && t.named == s.named
      && (t.labels == s.labels || (Generated(p, a) && a < 0x1000 && t.labels == [GeneratedName(a)] + s.labels))
      && (!Hit(p, s) ==> t.text == s.text && (!s.Org? ==> t.target == s.target))
      && (Hit(p, s) ==> |s.text| > 1 && Numeral(s).value < 0x1000)
      && (Hit(p, s) ==> t.text == s.text[..|s.text| - 1] + [NameAt(p, Numeral(s).value)])
      && (Hit(p, s) && !s.Org? ==> t.target == Some(Index(p, Numeral(s).value, |p|)))
  {
    hide Addr, Generated, Renamed, NameAt, GeneratedName, Existing, Index;
    LinkedIs(p, p[i]);
    AnchoredIs(p, Old(p, i), Linked(p, p[i]));
  }

  /** Symbolization moves nothing. */
  lemma {:induction false} SameLayout(p: Source, i: nat)
    requires Fits(p) && i <= |p|
    ensures Old(Symbolized(p), i) == Old(p, i)
  {
    hide Symbolized, Hit, Generated, NameAt, GeneratedName, Index;
    if i > 0 {
      SameLayout(p, i - 1);
      SymbolizedAt(p, i - 1);
    }
  }

  lemma {:induction false} ValuesKept(symbols: Asm.Symbols, m: Asm.Symbols, t: seq<string>)
    requires forall l :: l in symbols ==> l in m && m[l] == symbols[l]
    ensures Keeps(t, symbols, m)
  {
    hide Number;
  }

  /** The label that takes the place of a number has its value. */
  lemma {:induction false} NameReads(p: Source, symbols: Asm.Symbols, m: Asm.Symbols, v: address)
    requires Assembles(p, symbols) && Generated(p, v) && Extends(p, symbols, m, |p|)
    ensures
      var name, k := NameAt(p, v), Index(p, v, |p|);
      k < |p| && Old(p, k) == v && Asm.IsName(name) && name in m && m[name] == v && Asm.Value(name, m, true) == Asm.Ok(v)
  {
    hide Addr, NameAt, Placed, Encodes, Asm.IsName, Number, Existing;
    var name, k := NameAt(p, v), Index(p, v, |p|);
    assert k < |p|;
    assert name in m && m[name] == v;
    if name in symbols { assert WellNamed(symbols) by { assert Encodes(p, symbols); AllNamed(p, symbols); } }
    NameNoNumber(name);
  }

  lemma AllNamed(p: Source, symbols: Asm.Symbols)
    requires Encodes(p, symbols)
    ensures WellNamed(symbols)
  {}

  /** The address the optimizer reads is the one assembled, of a plain number. */
  lemma {:induction false} PlainLast(p: Source, symbols: Asm.Symbols, i: nat)
    requires Assembles(p, symbols) && AllPlain(p) && i < |p| && Hit(p, p[i])
    ensures p[i].Insn? ==> Addressing(p[i].text)
    ensures Numeral(p[i]).value < 0x1000 && Asm.Value(Last(p[i].text), symbols, true) == Asm.Ok(Numeral(p[i]).value)
  {
    hide Addr, Boundary, Placed, Encodes, PlainNumber, ParseNumber, Number, Addressing, Refers;
    LastValue(p, symbols, i);
    NumbersAgree(Last(p[i].text));
    assert Plain(p[i]);
  }

  /** The statement assembles as before. */
  lemma {:induction false} SameBytes(p: Source, symbols: Asm.Symbols, i: nat)
    requires Assembles(p, symbols) && Fresh(p, symbols) && AllPlain(p) && i < |p|
    ensures
      var t, m := Symbolized(p)[i], Extended(p, symbols, |p|);
      && t.text != [] && (p[i].Insn? ==> Asm.Instruction(t.text, m, true) == Asm.Ok(p[i].op) && (Addressing(t.text) <==> Addressing(p[i].text)))
      && t.text[0] == p[i].text[0]
      && Asm.Line(t.text, Old(p, i), m, true) == Asm.Line(p[i].text, Old(p, i), symbols, true)
  {
    hide Addr, Symbolized, Extended, Extends, Hit, Generated, NameAt, GeneratedName, Index, Addressing, Asm.Instruction, Asm.Line, AllPlain, Fresh,
      Numeral, Asm.Value, Asm.IsName, Keeps;
    var m, s, t := Extended(p, symbols, |p|), p[i], Symbolized(p)[i];
    ExtendedHas(p, symbols, |p|);
    ValuesKept(symbols, m, s.text) by { OldKept(p, symbols, m); }
    SymbolizedAt(p, i);
    assert EncodesAt(s, symbols) && Placed(p, symbols, i);
    if Hit(p, s) {
      PlainLast(p, symbols, i);
      HitGenerated(p, s);
      NameReads(p, symbols, m, Numeral(s).value);
      if s.Insn? { AddressRenamed(s.text, t.text, symbols, m); } else { ListRenamed(s.text, t.text, Old(p, i), symbols, m); }
    } else if s.Insn? {
      InstructionKept(s.text, symbols, m);
    } else {
      ListKept(s.text, Old(p, i), symbols, m);
    }
    if s.Insn? {
      InstructionLine(s.text, Old(p, i), symbols);
      InstructionLine(t.text, Old(p, i), m);
    }
  }

  lemma HitGenerated(p: Source, s: Stmt)
    requires Hit(p, s)
    ensures Numeral(s).Some? && Numeral(s).value >= ENTRYPOINT && Generated(p, Numeral(s).value)
  {
    hide Numeral, Boundary;
  }

  lemma OldKept(p: Source, symbols: Asm.Symbols, m: Asm.Symbols)
    requires Extends(p, symbols, m, |p|)
    ensures forall l :: l in symbols ==> l in m && m[l] == symbols[l]
  {
    hide Generated, NameAt, Asm.IsName, Addr;
  }

  lemma {:induction false} LabelsPlaced(p: Source, symbols: Asm.Symbols, i: nat)
    requires Assembles(p, symbols) && Fresh(p, symbols) && i < |p|
    ensures var m := Extended(p, symbols, |p|); forall l :: l in Symbolized(p)[i].labels ==> l in m && m[l] == Old(p, i)
  {
    hide Symbolized, Extended, Hit, Generated, GeneratedName, Index, Existing, Asm.IsName, Emitted, Names, Addressing, Encodes;
    var m := Extended(p, symbols, |p|);
    ExtendedHas(p, symbols, |p|);
    SymbolizedAt(p, i);
    assert Placed(p, symbols, i);
    if Symbolized(p)[i].labels != p[i].labels {
      var a := Old(p, i);
      assert NameAt(p, a) in m && m[NameAt(p, a)] == a;
      AnchorName(p, i);
    }
  }

  /** A new label line is put only where the source has no label. */
  lemma {:induction false} AnchorName(p: Source, i: nat)
    requires Fits(p) && i < |p| && Symbolized(p)[i].labels != p[i].labels
    ensures Generated(p, Old(p, i)) && Old(p, i) < 0x1000 && NameAt(p, Old(p, i)) == GeneratedName(Old(p, i))
  {
    hide Addr, Generated, Renamed, GeneratedName, Existing, Index, Numeral;
    LinkedIs(p, p[i]);
    AnchoredIs(p, Old(p, i), Linked(p, p[i]));
  }

  /** The statement's target is where its label is. */
  lemma {:induction false} TargetPlaced(p: Source, symbols: Asm.Symbols, i: nat)
    requires Assembles(p, symbols) && Fresh(p, symbols) && AllPlain(p) && i < |p|
    ensures
      var t, m := Symbolized(p)[i], Extended(p, symbols, |p|);
      && (t.Insn? ==> (t.target.Some? <==> Addressing(t.text) && Last(t.text) in m))
      && (!t.Org? && t.target.Some? ==> t.target.value <= |p| && Names(t, m, Old(p, t.target.value)))
  {
    hide Symbolized, Extended, Extends, Hit, Generated, NameAt, GeneratedName, Index, Addressing, Asm.Instruction, Asm.Line, AllPlain, Fresh,
      Numeral, Asm.Value, Asm.IsName, Keeps, Emitted, Addr;
    var m, s, t := Extended(p, symbols, |p|), p[i], Symbolized(p)[i];
    ExtendedHas(p, symbols, |p|);
    OldKept(p, symbols, m);
    SymbolizedAt(p, i);
    assert EncodesAt(s, symbols) && Placed(p, symbols, i);
    if Hit(p, s) {
      PlainLast(p, symbols, i);
      HitGenerated(p, s);
      NameReads(p, symbols, m, Numeral(s).value);
      if s.Insn? { StillAddressing(s.text, t.text); }
    } else if s.Insn? && Addressing(s.text) {
      AddressingOp(s.text, symbols);
      AddressingWords(s.text);
      if Last(s.text) in m && Last(s.text) !in symbols {
        NoNewName(p, symbols, m, Last(s.text));
      }
    }
  }

  lemma AddressingWords(t: seq<string>)
    requires Addressing(t)
    ensures |t| > 1
  {}

  lemma StillAddressing(t: seq<string>, u: seq<string>)
    requires Addressing(t) && |u| == |t| && u[..|t| - 1] == t[..|t| - 1]
    ensures Addressing(u)
  {
    assert forall k :: 0 <= k < |t| - 1 ==> u[k] == u[..|t| - 1][k] == t[k];
  }

  /** What had a value is no new name. */
  lemma {:induction false} NoNewName(p: Source, symbols: Asm.Symbols, m: Asm.Symbols, w: string)
    requires Extends(p, symbols, m, |p|) && Asm.Value(w, symbols, true).Ok? && w in m
    ensures w in symbols
  {
    hide NameAt, Generated, Addr, Number, Asm.IsName;
    if w !in symbols { NameNoNumber(w); }
  }

  /** Symbolization gives a source the assembler accepts, with the extended
      symbol table, which puts the same bytes at the same addresses. */
  lemma {:induction false} SymbolizedAssembles(p: Source, symbols: Asm.Symbols)
    requires Assembles(p, symbols) && Fresh(p, symbols) && AllPlain(p)
    ensures
      var q, m := Symbolized(p), Extended(p, symbols, |p|);
      && Assembles(q, m) && AllPlain(q) && (forall i :: 0 <= i <= |p| ==> Old(q, i) == Old(p, i))
      && (forall i :: 0 <= i < |p| ==> Asm.Line(q[i].text, Old(p, i), m, true) == Asm.Line(p[i].text, Old(p, i), symbols, true))
      && ("I" !in symbols ==> "I" !in m)
  {
    hide Addr, Symbolized, Extended, Placed, Asm.Line, Plain, EncodesAt, GeneratedName, Generated, NameAt, Fresh, Asm.IsName;
    var q, m := Symbolized(p), Extended(p, symbols, |p|);
    ExtendedHas(p, symbols, |p|);
    forall i | 0 <= i <= |p| ensures Old(q, i) == Old(p, i) { SameLayout(p, i); }
    forall i | 0 <= i < |p|
      ensures EncodesAt(q[i], m) && Placed(q, m, i) && Plain(q[i])
      ensures Asm.Line(q[i].text, Old(p, i), m, true) == Asm.Line(p[i].text, Old(p, i), symbols, true)
    {
      StmtSymbolized(p, symbols, i);
    }
  }

  lemma {:induction false} StmtSymbolized(p: Source, symbols: Asm.Symbols, i: nat)
    requires Assembles(p, symbols) && Fresh(p, symbols) && AllPlain(p) && i < |p|
    requires forall k :: 0 <= k <= |p| ==> Old(Symbolized(p), k) == Old(p, k)
    ensures
      var q, m := Symbolized(p), Extended(p, symbols, |p|);
      && EncodesAt(q[i], m) && Placed(q, m, i) && Plain(q[i])
      && Asm.Line(q[i].text, Old(p, i), m, true) == Asm.Line(p[i].text, Old(p, i), symbols, true)
  {
    hide Addr, Symbolized, Extended, Addressing, Asm.Line, Asm.Instruction, AllPlain, Plain, Generated, GeneratedName, NameAt, Fresh, Names, Hit,
      Index, Last;
    SymbolizedAt(p, i);
    SameBytes(p, symbols, i);
    LabelsPlaced(p, symbols, i);
    TargetPlaced(p, symbols, i);
    StillPlain(p, symbols, i);
    assert EncodesAt(p[i], symbols) && Placed(p, symbols, i);
  }

  lemma {:induction false} StillPlain(p: Source, symbols: Asm.Symbols, i: nat)
    requires Assembles(p, symbols) && Fresh(p, symbols) && AllPlain(p) && i < |p|
    ensures Plain(Symbolized(p)[i])
  {
    hide Addr, Symbolized, Extended, Extends, Hit, Generated, NameAt, GeneratedName, Index, PlainNumber, Fresh, Numeral, Asm.Value, Asm.IsName,
      Placed, Encodes;
    var m, s, t := Extended(p, symbols, |p|), p[i], Symbolized(p)[i];
    assert Plain(s);
    SymbolizedAt(p, i);
    if Hit(p, s) {
      ExtendedHas(p, symbols, |p|);
      HitGenerated(p, s);
      NameReads(p, symbols, m, Numeral(s).value);
      NamePlain(NameAt(p, Numeral(s).value));
    }
  }

  lemma NamePlain(w: string)
    requires Asm.IsName(w)
    ensures PlainNumber(w)
  {
    NameNoNumber(w);
  }

  // ------------------------------------------------------- a fixed layout

  /** What in the text itself forbids a new layout: an origin, or an operand that
      still names a ROM address by number. */
  predicate FixedAt(p: Source, s: Stmt)
  {
    s.Org? || (Refers(s) && ENTRYPOINT <= Numeral(s).value < Old(p, |p|))
  }

  predicate Fixed(p: Source)
  {
    exists i :: 0 <= i < |p| && FixedAt(p, p[i])
  }

  /** Of the sources without signs, those with no such statement are the ones
      whose layout may change. */
  lemma {:induction false} FixedExact(p: Source, symbols: Asm.Symbols)
    requires Assembles(p, symbols) && AllPlain(p)
    ensures Accepted(p) <==> !Fixed(p)
  {
    hide Addr, Placed, EncodesAt, FixedAt, StmtOk, Plain;
    forall i | 0 <= i < |p| ensures StmtOk(p, p[i]) <==> !FixedAt(p, p[i]) { StmtFixed(p, symbols, i); }
    if Fixed(p) {
      var i :| 0 <= i < |p| && FixedAt(p, p[i]);
      assert !StmtOk(p, p[i]);
    }
  }

  lemma {:induction false} StmtFixed(p: Source, symbols: Asm.Symbols, i: nat)
    requires Assembles(p, symbols) && AllPlain(p) && i < |p|
    ensures StmtOk(p, p[i]) <==> !FixedAt(p, p[i])
  {
    hide Addr, Addressing, Asm.Instruction, Asm.Line, Emitted, Top, NNN, TakesAddress, PlainNumber, ParseNumber, Number, Asm.Value, Asm.IsName;
    var s := p[i];
    assert Placed(p, symbols, i) && EncodesAt(s, symbols) && Plain(s);
    if s.Insn? {
      AddressingOp(s.text, symbols);
      if Addressing(s.text) {
        AddressingWords(s.text);
        OperandRead(Last(s.text), symbols);
      }
    }
  }

  /** A label has its own value, a plain number is read alike. */
  lemma {:induction false} OperandRead(w: string, symbols: Asm.Symbols)
    requires WellNamed(symbols) && Asm.Value(w, symbols, true).Ok?
    ensures w in symbols ==> Asm.Value(w, symbols, true) == Asm.Ok(symbols[w]) && ParseNumber(w) == None
    ensures w !in symbols && PlainNumber(w) ==> ParseNumber(w) == Some(Asm.Value(w, symbols, true).value as int)
  {
    hide ParseNumber, Number, Asm.IsName, PlainNumber;
    if w in symbols { NameNoNumber(w); } else { NumbersAgree(w); }
  }

  /** The optimizer reads the address that an operand assembles to exactly when
      the operand is plain. */
  lemma {:induction false} RefersExact(s: Stmt, symbols: Asm.Symbols)
    requires s.Insn? && WellNamed(symbols) && EncodesAt(s, symbols) && Addressing(s.text) && Last(s.text) !in symbols
    ensures Numeral(s) == Some(NNN(s.op) as int) <==> PlainNumber(Last(s.text))
  {
    hide Number, ParseNumber, PlainNumber, NNN, Asm.Value, Asm.IsName, Asm.Instruction, Addressing;
    AddressingOp(s.text, symbols);
    AddressingWords(s.text);
    NotNamed(Last(s.text), symbols);
    NumbersAgree(Last(s.text));
  }

  lemma NotNamed(w: string, symbols: Asm.Symbols)
    requires w !in symbols && Asm.Value(w, symbols, true).Ok?
    ensures Number(w).Some? && Asm.Value(w, symbols, true).value == Number(w).value
  {
    hide Number;
  }
}
