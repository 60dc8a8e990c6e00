/** The text the optimizer prints, and what the assembler makes of it: both passes
    succeed, the labels come to stand where their statements do, and the bytes are
    those of the statements that are left. */
module Canonical {
  import opened Chip8
  import opened Text
  import opened Asm
  import opened Tokenizing
  import opened Peephole
  import opened Disas
  import P = Printed
  import C = Encoding
  import RT = RoundTrip
  import TwoPass
  import Rel = Relocate
  import W = Rebuilt
  import Co = Compaction

  // ---------------------------------------------------------------- the text

  function LabelText(l: string): string { l + ":\n" }

  function LabelTexts(ls: seq<string>): (r: seq<string>)
    ensures |r| == |ls|
  {
    if ls == [] then [] else LabelTexts(ls[..|ls| - 1]) + [LabelText(ls[|ls| - 1])]
  }

  function StatementText(t: seq<string>): string
    requires t != []
  {
    INDENT + Render(t) + "\n"
  }

  /** The line of statement `i`, if it has an operation. */
  function StatementTexts(p: Source, e: Edit, i: nat): seq<string>
    requires i < |p|
  {
    if W.NewText(p, e, i) == [] then [] else [StatementText(W.NewText(p, e, i))]
  }

  /** The lines of the first `n` statements, without those that are dropped. */
  function LinesUpTo(p: Source, e: Edit, n: nat): seq<string>
    requires n <= |p|
  {
    if n == 0 then []
    else if n - 1 in e.drop then LinesUpTo(p, e, n - 1)
    else LinesUpTo(p, e, n - 1) + LabelTexts(p[n - 1].labels) + StatementTexts(p, e, n - 1)
  }

  /** The lines of the whole source; labels behind the last statement are `tail`. */
  function Canonical(p: Source, e: Edit, tail: seq<string>): seq<string>
  {
    LinesUpTo(p, e, |p|) + LabelTexts(tail)
  }

  method PrintLabels(ls: seq<string>, lines: seq<string>) returns (r: seq<string>)
    ensures r == lines + LabelTexts(ls)
  {
    r := lines;
    for i := 0 to |ls|
      invariant r == lines + LabelTexts(ls[..i])
    {
      assert ls[..i + 1][..i] == ls[..i];
      r := r + [LabelText(ls[i])];
    }
    assert ls[..|ls|] == ls;
  }

  /** canonicalize, of the source that is returned. */
  method Canonicalize(p: Source, e: Edit, tail: seq<string>) returns (lines: seq<string>)
    ensures lines == Canonical(p, e, tail)
  {
    hide W.NewText, StatementText;
    lines := [];
    for i := 0 to |p|
      invariant lines == LinesUpTo(p, e, i)
    {
      if i !in e.drop {
        lines := PrintLabels(p[i].labels, lines);
        if W.NewText(p, e, i) != [] { lines := lines + [StatementText(W.NewText(p, e, i))]; }
      }
    }
    lines := PrintLabels(tail, lines);
  }

  // ------------------------------------------------------- what may be printed

  /** Words that are read back as they are. */
  ghost predicate Readable(t: seq<string>)
  {
    t != [] && |t| <= MAX_TOKENS && P.AllPlain(t) && C.AllUpper(t)
  }

  /** The first word is an operation; an origin is given by number. */
  predicate Operates(t: seq<string>)
    requires t != []
  {
    !Labelled(t) && (t[0] == ".ORG" ==> |t| > 1 && Number(t[1]).Some?)
  }

  ghost predicate Wordy(t: seq<string>) { Readable(t) && Operates(t) }

  /** The labels of the first `n` statements, in order. */
  function LabelsUpTo(p: Source, n: nat): seq<string>
    requires n <= |p|
  {
    if n == 0 then [] else LabelsUpTo(p, n - 1) + p[n - 1].labels
  }

  ghost predicate NoRepeats(ls: seq<string>)
  {
    forall i, j :: 0 <= i < j < |ls| ==> ls[i] != ls[j]
  }

  /** Labels that stand at `a`. */
  ghost predicate LabelsAt(ls: seq<string>, m: Symbols, a: int)
  {
    forall l :: l in ls ==> l in m && m[l] == a && IsName(l) && C.IsUpper(l)
  }

  /** A source that the assembler takes once it is printed with the table `m`. */
  ghost predicate Printable(p: Source, e: Edit, m: Symbols, tail: seq<string>)
  {
    && NoRepeats(LabelsUpTo(p, |p|) + tail) && |LabelsUpTo(p, |p|) + tail| <= MAX_SYMBOLS
    && m.Keys == (set l | l in LabelsUpTo(p, |p|) + tail)
    && Addr(p, e, |p|) <= MEMORY_SIZE && LabelsAt(tail, m, Addr(p, e, |p|))
    && forall i :: 0 <= i < |p| ==> PrintableAt(p, e, m, i)
  }

  ghost predicate PrintableAt(p: Source, e: Edit, m: Symbols, i: nat)
    requires i < |p|
  {
    if i in e.drop then p[i].labels == []
    else LabelsAt(p[i].labels, m, Addr(p, e, i)) && Wordy(W.NewText(p, e, i)) && Sized(p, e, m, i)
  }

  /** The statement is accepted and has the size it had. */
  predicate Sized(p: Source, e: Edit, m: Symbols, i: nat)
    requires i < |p|
  {
    var r := Line(W.NewText(p, e, i), Addr(p, e, i), m, true);
    r.Ok? && |r.value| == p[i].Size()
  }

  /** What statement `i` assembles to. */
  function Bytes(p: Source, e: Edit, m: Symbols, i: nat): seq<byte>
    requires i < |p|
  {
    match Line(W.NewText(p, e, i), Addr(p, e, i), m, true) case Ok(b) => b case Fail(_) => []
  }

  /** The bytes of the first `n` statements. */
  function Code(p: Source, e: Edit, m: Symbols, n: nat): seq<byte>
    requires n <= |p|
  {
    if n == 0 then []
    else if n - 1 in e.drop then Code(p, e, m, n - 1)
    else Code(p, e, m, n - 1) + Bytes(p, e, m, n - 1)
  }

  // ------------------------------------------------------------ single lines

  lemma {:induction false} LabelTokens(l: string)
    requires IsName(l) && C.IsUpper(l)
    ensures Tokens(LabelText(l)) == [l + ":"] && Labelled([l + ":"]) && LabelName([l + ":"]) == l && Unlabelled([l + ":"]) == []
  {
    hide Tokens, C.IsUpper;
    LabelPlain(l);
    RT.NewlineTail();
    P.WordThen(l + ":", "\n");
    assert LabelText(l) == l + ":" + "\n";
  }

  lemma {:induction false} LabelPlain(l: string)
    requires IsName(l) && C.IsUpper(l)
    ensures Plain(l + ":") && Upper(l + ":") == l + ":"
  {
    assert C.IsUpper(l + ":");
    C.UpperSame(l + ":");
  }

  lemma {:induction false} StatementTokens(t: seq<string>)
    requires Wordy(t)
    ensures Tokens(StatementText(t)) == t && Unlabelled(t) == t && |t| <= MAX_TOKENS && !Labelled(t)
  {
    hide Tokens, Render, P.AllPlain, C.AllUpper, P.Tail;
    RT.NewlineTail();
    P.LineTokens(t, "\n");
    C.UpperAllSame(t);
  }

  /** What is accepted with all labels known is accepted in the first pass too. */
  lemma {:induction false} ValueEarly(w: string, a: Symbols, m: Symbols, max: nat)
    requires TwoPass.Extends(a, m) && Ranged(w, max, m, true).Ok?
    ensures Ranged(w, max, a, false).Ok?
  {
    hide Number;
  }

  lemma {:induction false} EitherEarly(x: nibble, w: string, reg: word, byt: word, a: Symbols, m: Symbols)
    requires reg % 0x1000 < 0x10 && reg <= 0xF000 && byt % 0x1000 == 0 && TwoPass.Extends(a, m)
    requires RegisterOrByte(x, w, reg, byt, m, true).Ok?
    ensures RegisterOrByte(x, w, reg, byt, a, false).Ok?
  {
    hide Ranged, Register, Encode, LooksLikeRegister, TwoPass.Extends;
    if !LooksLikeRegister(w) { ValueEarly(w, a, m, 0xFF); }
  }

  lemma {:induction false} LoadEarly(t: seq<string>, a: Symbols, m: Symbols)
    requires TwoPass.Extends(a, m) && LoadTo(t, m, true).Ok?
    ensures LoadTo(t, a, false).Ok?
  {
    hide Ranged, Register, Encode, RegisterOrByte, TwoPass.Extends;
    if t[1] == "I" { ValueEarly(t[2], a, m, 0xFFF); }
    else if Register(t[1]).Ok? && RegisterOrByte(Register(t[1]).value, t[2], 0x8000, 0x6000, m, true).Ok? {
      EitherEarly(Register(t[1]).value, t[2], 0x8000, 0x6000, a, m);
    }
  }

  lemma {:induction false} InstructionEarly(t: seq<string>, a: Symbols, m: Symbols)
    requires t != [] && TwoPass.Extends(a, m) && Instruction(t, m, true).Ok?
    ensures Instruction(t, a, false).Ok?
  {
    hide Ranged, Register, Encode, RegisterOrByte, LoadTo, TwoPass.Extends;
    if t[0] == "LD" {
      LoadEarly(t, a, m);
    } else if t[0] in {"ADD", "SE", "SNE"} {
      Rel.PairWords(t, m);
      PairEarly(t, a, m);
    } else if t[0] in {"JP", "CALL"} {
      ValueEarly(t[|t| - 1], a, m, 0xFFF);
    } else if t[0] == "RND" {
      ValueEarly(t[2], a, m, 0xFF);
    } else if t[0] == "DRW" {
      ValueEarly(t[3], a, m, 0xF);
    }
  }

  lemma {:induction false} PairEarly(t: seq<string>, a: Symbols, m: Symbols)
    requires |t| == 3 && t[0] in {"ADD", "SE", "SNE"} && TwoPass.Extends(a, m) && Instruction(t, m, true).Ok?
    ensures Instruction(t, a, false).Ok?
  {
    hide Ranged, Register, Encode, RegisterOrByte, TwoPass.Extends;
    if Register(t[1]).Ok? {
      var x := Register(t[1]).value;
      if t[0] == "ADD" { if t[1] != "I" { EitherEarly(x, t[2], 0x8004, 0x7000, a, m); } }
      else if t[0] == "SE" { EitherEarly(x, t[2], 0x5000, 0x3000, a, m); }
      else { EitherEarly(x, t[2], 0x9000, 0x4000, a, m); }
    }
  }

  lemma {:induction false} DataEarly(ts: seq<string>, wide: bool, a: Symbols, m: Symbols)
    requires TwoPass.Extends(a, m) && Asm.Data(ts, wide, m, true).Ok?
    ensures Asm.Data(ts, wide, a, false).Ok?
  {
    hide Ranged, TwoPass.Extends;
    if ts != [] {
      ValueEarly(ts[0], a, m, if wide then 0xFFFF else 0xFF);
      DataEarly(ts[1..], wide, a, m);
    }
  }

  lemma OrgEarly(t: seq<string>, pc: nat, a: Symbols, m: Symbols)
    requires |t| > 1 && Number(t[1]).Some?
    ensures Asm.Org(t, pc, a, false) == Asm.Org(t, pc, m, true)
  {
    hide Number;
  }

  lemma {:induction false} LineEarly(t: seq<string>, pc: nat, a: Symbols, m: Symbols)
    requires t != [] && Operates(t) && TwoPass.Extends(a, m) && Line(t, pc, m, true).Ok?
    ensures Line(t, pc, a, false).Ok? && |Line(t, pc, a, false).value| == |Line(t, pc, m, true).value|
  {
    if t[0] == ".ORG" { OrgEarly(t, pc, a, m); }
    else if t[0] == ".BYTE" { DataEarly(t[1..], false, a, m); }
    else if t[0] == ".WORD" { DataEarly(t[1..], true, a, m); }
    else { InstructionEarly(t, a, m); }
    hide Asm.Data, Asm.Org, Instruction, TwoPass.Extends;
    TwoPass.LineSettles(t, pc, a, m);
  }

  // --------------------------------------------------------- the first pass

  /** The entries of `m` for the names in `ls`. */
  function Restricted(m: Symbols, ls: seq<string>): Symbols
  {
    map l | l in m && l in ls :: m[l]
  }

  lemma RestrictedExtends(m: Symbols, ls: seq<string>)
    ensures TwoPass.Extends(Restricted(m, ls), m)
  {}

  lemma {:induction false} RestrictedFew(m: Symbols, ls: seq<string>)
    ensures |Restricted(m, ls)| <= |ls|
  {
    if ls == [] {
      assert Restricted(m, ls) == map[];
    } else {
      var front, l := ls[..|ls| - 1], ls[|ls| - 1];
      RestrictedFew(m, front);
      assert ls == front + [l];
      assert Restricted(m, ls).Keys <= Restricted(m, front).Keys + {l};
      SubsetFew(Restricted(m, ls).Keys, Restricted(m, front).Keys + {l});
    }
  }

  lemma {:induction false} SubsetFew(a: set<string>, b: set<string>)
    requires a <= b
    ensures |a| <= |b|
  {
    if x :| x in a { SubsetFew(a - {x}, b - {x}); }
  }

  lemma RestrictedMore(m: Symbols, ls: seq<string>, l: string)
    requires l in m
    ensures Restricted(m, ls)[l := m[l]] == Restricted(m, ls + [l])
    ensures l !in ls ==> l !in Restricted(m, ls)
  {}

  lemma {:induction false} StepLabel(s: State, l: string)
    requires IsName(l) && C.IsUpper(l) && l !in s.symbols && |s.symbols| < MAX_SYMBOLS && s.pc <= MEMORY_SIZE
    ensures StepOne(s, LabelText(l)) == Ok(s.(symbols := s.symbols[l := s.pc]))
  {
    hide Tokens, LabelText, Labelled, LabelName, Unlabelled, IsName, C.IsUpper;
    LabelTokens(l);
  }

  lemma {:induction false} FrontNoRepeats(a: seq<string>, l: string)
    requires NoRepeats(a + [l])
    ensures NoRepeats(a) && l !in a
  {
    var all := a + [l];
    forall i | 0 <= i < |a| ensures all[i] == a[i] != l { assert all[i] != all[|a|]; }
    forall i, j | 0 <= i < j < |a| ensures a[i] != a[j] { assert all[i] != all[j]; }
  }

  lemma {:induction false} PassOneLabels(lines: seq<string>, m: Symbols, done: seq<string>, ls: seq<string>, pc: word)
    requires PassOne(lines) == Ok(State(Restricted(m, done), pc)) && pc <= MEMORY_SIZE
    requires NoRepeats(done + ls) && |done + ls| <= MAX_SYMBOLS && LabelsAt(ls, m, pc)
    ensures PassOne(lines + LabelTexts(ls)) == Ok(State(Restricted(m, done + ls), pc))
  {
    hide PassOne, StepOne, Restricted, LabelText, IsName, C.IsUpper;
    if ls == [] {
      assert lines + LabelTexts(ls) == lines && done + ls == done;
    } else {
      var front, l := ls[..|ls| - 1], ls[|ls| - 1];
      assert done + ls == done + front + [l] && l in ls;
      FrontNoRepeats(done + front, l);
      PassOneLabels(lines, m, done, front, pc);
      RestrictedFew(m, done + front);
      RestrictedMore(m, done + front, l);
      StepLabel(State(Restricted(m, done + front), pc), l);
      RT.PassOneSnoc(lines + LabelTexts(front), LabelText(l));
      assert lines + LabelTexts(ls) == lines + LabelTexts(front) + [LabelText(l)];
    }
  }

  lemma {:induction false} StepStatement(s: State, t: seq<string>, m: Symbols)
    requires Wordy(t) && TwoPass.Extends(s.symbols, m) && Line(t, s.pc, m, true).Ok?
    requires s.pc + |Line(t, s.pc, m, true).value| <= MEMORY_SIZE
    ensures StepOne(s, StatementText(t)) == Ok(s.(pc := s.pc + |Line(t, s.pc, m, true).value|))
  {
    hide Tokens, StatementText, Line, TwoPass.Extends, Unlabelled, Labelled, P.AllPlain, Number, C.AllUpper;
    StatementTokens(t);
    LineEarly(t, s.pc, s.symbols, m);
  }

  lemma {:induction false} UpToNoRepeats(a: seq<string>, b: seq<string>)
    requires NoRepeats(a + b)
    ensures NoRepeats(a)
    decreases |b|
  {
    if b == [] {
      assert a + b == a;
    } else {
      assert a + b == a + b[..|b| - 1] + [b[|b| - 1]];
      FrontNoRepeats(a + b[..|b| - 1], b[|b| - 1]);
      UpToNoRepeats(a, b[..|b| - 1]);
    }
  }

  /** The labels of the first statements are among all of them. */
  lemma {:induction false} LabelsGrow(p: Source, n: nat)
    requires n <= |p|
    ensures exists more :: LabelsUpTo(p, |p|) == LabelsUpTo(p, n) + more
    decreases |p| - n
  {
    if n == |p| {
      assert LabelsUpTo(p, |p|) == LabelsUpTo(p, n) + [];
    } else {
      LabelsGrow(p, n + 1);
      var more :| LabelsUpTo(p, |p|) == LabelsUpTo(p, n + 1) + more;
      assert LabelsUpTo(p, |p|) == LabelsUpTo(p, n) + (p[n].labels + more);
    }
  }

  lemma {:induction false} LabelsOnce(p: Source, tail: seq<string>, n: nat)
    requires n <= |p| && NoRepeats(LabelsUpTo(p, |p|) + tail)
    ensures NoRepeats(LabelsUpTo(p, n)) && |LabelsUpTo(p, n)| <= |LabelsUpTo(p, |p|) + tail|
  {
    hide NoRepeats, LabelsUpTo;
    LabelsGrow(p, n);
    var more :| LabelsUpTo(p, |p|) == LabelsUpTo(p, n) + more;
    assert LabelsUpTo(p, |p|) + tail == LabelsUpTo(p, n) + (more + tail);
    UpToNoRepeats(LabelsUpTo(p, n), more + tail);
  }

  /** The state of the first pass behind the first `n` statements. */
  ghost predicate Behind(p: Source, e: Edit, m: Symbols, n: nat, lines: seq<string>)
    requires n <= |p|
  {
    Addr(p, e, n) <= MEMORY_SIZE && PassOne(lines) == Ok(State(Restricted(m, LabelsUpTo(p, n)), Addr(p, e, n)))
  }

  lemma {:induction false} PassOneStatement(p: Source, e: Edit, m: Symbols, n: nat, lines: seq<string>)
    requires n < |p| && n !in e.drop && PrintableAt(p, e, m, n) && Behind(p, e, m, n, lines) && Addr(p, e, n + 1) <= MEMORY_SIZE
    requires NoRepeats(LabelsUpTo(p, n + 1)) && |LabelsUpTo(p, n + 1)| <= MAX_SYMBOLS
    ensures Behind(p, e, m, n + 1, lines + LabelTexts(p[n].labels) + StatementTexts(p, e, n))
  {
    hide PassOne, StepOne, Restricted, Wordy, W.NewText, Line, StatementText, LabelsAt, NoRepeats;
    var t, more := W.NewText(p, e, n), lines + LabelTexts(p[n].labels);
    assert t != [] by { WordyOnly(t); }
    NextPlace(p, e, n);
    PassOneLabels(lines, m, LabelsUpTo(p, n), p[n].labels, Addr(p, e, n));
    RestrictedExtends(m, LabelsUpTo(p, n + 1));
    StepStatement(State(Restricted(m, LabelsUpTo(p, n + 1)), Addr(p, e, n)), t, m);
    RT.PassOneSnoc(more, StatementText(t));
  }

  lemma WordyOnly(t: seq<string>)
    requires Wordy(t)
    ensures t != []
  {
    hide P.AllPlain, C.AllUpper;
  }

  lemma NextPlace(p: Source, e: Edit, n: nat)
    requires n < |p|
    ensures Addr(p, e, n + 1) == Addr(p, e, n) + if n in e.drop then 0 else p[n].Size()
  {}

  /** The first pass over the first `n` statements. */
  lemma {:induction false} PassOneUpTo(p: Source, e: Edit, m: Symbols, tail: seq<string>, n: nat)
    requires Printable(p, e, m, tail) && n <= |p|
    ensures Behind(p, e, m, n, LinesUpTo(p, e, n))
  {
    hide PassOne, Addr, PrintableAt, StatementTexts;
    if n == 0 {
      NothingYet(p, e, m);
    } else {
      var k := n - 1;
      PassOneUpTo(p, e, m, tail, k);
      LabelsOnce(p, tail, n);
      RoomLeft(p, e, n);
      assert PrintableAt(p, e, m, k);
      if k in e.drop {
        NextPlace(p, e, k);
        assert LabelsUpTo(p, n) == LabelsUpTo(p, k) by { DroppedBare(p, e, m, k); }
      } else {
        PassOneStatement(p, e, m, k, LinesUpTo(p, e, k));
      }
    }
  }

  lemma NothingYet(p: Source, e: Edit, m: Symbols)
    ensures Behind(p, e, m, 0, LinesUpTo(p, e, 0))
  {
    assert Restricted(m, []) == map[];
  }

  lemma DroppedBare(p: Source, e: Edit, m: Symbols, k: nat)
    requires k < |p| && k in e.drop && PrintableAt(p, e, m, k)
    ensures p[k].labels == []
  {}

  lemma {:induction false} RoomLeft(p: Source, e: Edit, n: nat)
    requires n <= |p| && Addr(p, e, |p|) <= MEMORY_SIZE
    ensures Addr(p, e, n) <= MEMORY_SIZE
  {
    Co.NewIncreases(p, e, n, |p|);
    hide Addr;
  }

  /** The first pass: every label is where its statement stands. */
  lemma {:induction false} FirstPass(p: Source, e: Edit, m: Symbols, tail: seq<string>)
    requires Printable(p, e, m, tail)
    ensures PassOne(Canonical(p, e, tail)) == Ok(State(m, Addr(p, e, |p|)))
  {
    hide PassOne, Addr, PrintableAt, LinesUpTo, LabelsUpTo, NoRepeats, LabelsAt, Restricted;
    PassOneUpTo(p, e, m, tail, |p|);
    PassOneLabels(LinesUpTo(p, e, |p|), m, LabelsUpTo(p, |p|), tail, Addr(p, e, |p|));
    AllRestricted(m, LabelsUpTo(p, |p|) + tail);
  }

  lemma AllRestricted(m: Symbols, ls: seq<string>)
    requires m.Keys == (set l | l in ls)
    ensures Restricted(m, ls) == m
  {}

  // -------------------------------------------------------- the second pass

  lemma {:induction false} PassTwoLabels(m: Symbols, lines: seq<string>, ls: seq<string>, a: int)
    requires PassTwo(m, lines).Ok? && LabelsAt(ls, m, a)
    ensures PassTwo(m, lines + LabelTexts(ls)) == PassTwo(m, lines)
  {
    hide PassTwo, StepTwo, LabelText, IsName, C.IsUpper;
    if ls == [] {
      assert lines + LabelTexts(ls) == lines;
    } else {
      var front, l := ls[..|ls| - 1], ls[|ls| - 1];
      assert l in ls;
      PassTwoLabels(m, lines, front, a);
      LabelOut(m, 0x200 + |PassTwo(m, lines).value|, l);
      RT.PassTwoSnoc(m, lines + LabelTexts(front), LabelText(l), PassTwo(m, lines).value, []);
      assert PassTwo(m, lines).value + [] == PassTwo(m, lines).value;
      assert lines + LabelTexts(ls) == lines + LabelTexts(front) + [LabelText(l)];
    }
  }

  lemma {:induction false} LabelOut(m: Symbols, pc: nat, l: string)
    requires IsName(l) && C.IsUpper(l)
    ensures StepTwo(m, pc, LabelText(l)) == Ok([])
  {
    hide Tokens, LabelText, Labelled, Unlabelled, IsName, C.IsUpper;
    LabelTokens(l);
  }

  lemma {:induction false} StatementOut(m: Symbols, pc: nat, t: seq<string>)
    requires Wordy(t)
    ensures StepTwo(m, pc, StatementText(t)) == Line(t, pc, m, true)
  {
    hide Tokens, StatementText, Line, Unlabelled, Labelled, P.AllPlain, C.AllUpper;
    StatementTokens(t);
  }

  /** The second pass over the first `n` statements. */
  lemma {:induction false} PassTwoUpTo(p: Source, e: Edit, m: Symbols, n: nat)
    requires n <= |p| && forall i :: 0 <= i < |p| ==> PrintableAt(p, e, m, i)
    ensures |Code(p, e, m, n)| == Addr(p, e, n) - ENTRYPOINT
    ensures PassTwo(m, LinesUpTo(p, e, n)) == Ok(Code(p, e, m, n))
  {
    hide PassTwo, StepTwo, Addr, StatementText, W.NewText, Line, LabelsAt, Wordy;
    if n == 0 {
      RT.NothingOut(m);
      assert Addr(p, e, 0) == ENTRYPOINT by { FirstPlace(p, e); }
    } else {
      var k := n - 1;
      PassTwoUpTo(p, e, m, k);
      NextPlace(p, e, k);
      assert PrintableAt(p, e, m, k);
      if k !in e.drop {
        var t, more := W.NewText(p, e, k), LinesUpTo(p, e, k) + LabelTexts(p[k].labels);
        WordyOnly(t);
        PassTwoLabels(m, LinesUpTo(p, e, k), p[k].labels, Addr(p, e, k));
        StatementOut(m, Addr(p, e, k), t);
        RT.PassTwoSnoc(m, more, StatementText(t), Code(p, e, m, k), Line(t, Addr(p, e, k), m, true).value);
      }
    }
  }

  lemma FirstPlace(p: Source, e: Edit)
    ensures Addr(p, e, 0) == ENTRYPOINT
  {}

  lemma {:induction false} SecondPass(p: Source, e: Edit, m: Symbols, tail: seq<string>)
    requires Printable(p, e, m, tail)
    ensures PassTwo(m, Canonical(p, e, tail)) == Ok(Code(p, e, m, |p|)) && |Code(p, e, m, |p|)| == Addr(p, e, |p|) - ENTRYPOINT
  {
    hide PassTwo, Addr, PrintableAt, LinesUpTo, LabelsUpTo, NoRepeats, LabelsAt, Code;
    PassTwoUpTo(p, e, m, |p|);
    PassTwoLabels(m, LinesUpTo(p, e, |p|), tail, Addr(p, e, |p|));
  }

  // --------------------------------------------------------- the whole text

  /** Every line fits into the assembler's line buffer. */
  predicate Short(lines: seq<string>)
  {
    forall i :: 0 <= i < |lines| ==> |lines[i]| < MAX_LINE
  }

  /** One line break, at the end. */
  predicate Broken(line: string)
  {
    line != "" && line[|line| - 1] == '\n' && '\n' !in line[..|line| - 1]
  }

  ghost predicate AllBroken(lines: seq<string>)
  {
    forall i :: 0 <= i < |lines| ==> Broken(lines[i])
  }

  lemma {:induction false} LabelBroken(l: string)
    requires IsName(l)
    ensures Broken(LabelText(l))
  {
    assert LabelText(l)[..|l| + 1] == l + ":";
  }

  lemma {:induction false} LabelsBroken(ls: seq<string>, m: Symbols, a: int)
    requires LabelsAt(ls, m, a)
    ensures AllBroken(LabelTexts(ls))
  {
    hide Broken, LabelText, IsName, C.IsUpper;
    if ls != [] {
      assert ls[|ls| - 1] in ls;
      LabelBroken(ls[|ls| - 1]);
      LabelsBroken(ls[..|ls| - 1], m, a);
    }
  }

  lemma {:induction false} SeparatedUnbroken(ws: seq<string>)
    requires P.AllPlain(ws)
    ensures '\n' !in Separated(ws)
  {
    hide Plain;
    if ws != [] {
      RT.PlainLine(ws[0]);
      SeparatedUnbroken(ws[1..]);
    }
  }

  lemma {:induction false} StatementBroken(t: seq<string>)
    requires Wordy(t)
    ensures Broken(StatementText(t))
  {
    hide Plain, C.AllUpper, Labelled, Separated;
    RT.PlainLine(t[0]);
    if |t| > 1 {
      RT.PlainLine(t[1]);
      SeparatedUnbroken(t[2..]);
    }
    assert StatementText(t)[..|StatementText(t)| - 1] == INDENT + Render(t);
  }

  lemma {:induction false} BrokenUpTo(p: Source, e: Edit, m: Symbols, n: nat)
    requires n <= |p| && forall i :: 0 <= i < |p| ==> PrintableAt(p, e, m, i)
    ensures AllBroken(LinesUpTo(p, e, n))
  {
    hide Addr, StatementText, W.NewText, Line, LabelsAt, Wordy, Broken;
    if n > 0 {
      BrokenUpTo(p, e, m, n - 1);
      assert PrintableAt(p, e, m, n - 1);
      if n - 1 !in e.drop {
        LabelsBroken(p[n - 1].labels, m, Addr(p, e, n - 1));
        StatementBroken(W.NewText(p, e, n - 1));
      }
    }
  }

  /** The printed text assembles to the statements that are left. */
  lemma {:induction false} TextAssembles(p: Source, e: Edit, m: Symbols, tail: seq<string>)
    requires Printable(p, e, m, tail) && Short(Canonical(p, e, tail))
    ensures Assemble(Flatten(Canonical(p, e, tail))) == Ok(Code(p, e, m, |p|))
    ensures |Code(p, e, m, |p|)| == Addr(p, e, |p|) - ENTRYPOINT
  {
    hide PassOne, PassTwo, Addr, PrintableAt, LinesUpTo, LabelsUpTo, NoRepeats, LabelsAt, Code, Flatten, Lines;
    FirstPass(p, e, m, tail);
    SecondPass(p, e, m, tail);
    var lines := Canonical(p, e, tail);
    assert forall i :: 0 <= i < |lines| ==> P.Whole(lines[i]) by {
      BrokenUpTo(p, e, m, |p|);
      LabelsBroken(tail, m, Addr(p, e, |p|));
      AllOf(LinesUpTo(p, e, |p|), LabelTexts(tail));
    }
    P.LinesOf(lines);
  }

  lemma {:induction false} AllOf(a: seq<string>, b: seq<string>)
    requires AllBroken(a) && AllBroken(b) && Short(a + b)
    ensures forall i :: 0 <= i < |a + b| ==> P.Whole((a + b)[i])
  {
    forall i | 0 <= i < |a + b| ensures P.Whole((a + b)[i]) {
      var line := (a + b)[i];
      assert Broken(line) && |line| < MAX_LINE;
    }
  }
}
