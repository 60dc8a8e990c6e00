/** The optimizer from text to run: the text it prints assembles, and the ROM it
    assembles to does what the ROM of the source does. */
module Returned {
  import opened Chip8
  import opened Bench
  import opened Tape
  import opened Text
  import opened Numbers
  import opened Peephole
  import opened Optimizer
  import opened Relocate
  import opened Compaction
  import opened Rebuilt
  import R = OptimizedRun
  import T = TailCall
  import K = Canonical
  import C = Encoding
  import D = Disas
  import Asm
  import I = Interp
  import F = Refusal
  import A = Analysis
  import M = Missed
  import RT = RoundTrip
  import Tokenizing

  /** The labels of the source, and `tail` behind its end, are those of the table,
      each once. */
  ghost predicate Listed(p: Source, symbols: Asm.Symbols, tail: seq<string>)
  {
    var ls := K.LabelsUpTo(p, |p|) + tail;
    && symbols.Keys == (set l | l in ls) && |ls| == |symbols| <= Asm.MAX_SYMBOLS
    && forall l :: l in tail ==> l in ls && symbols[l] == Old(p, |p|)
  }

  /** The words of the source are upper-cased tokens; an origin is a number. */
  ghost predicate Spelt(p: Source, symbols: Asm.Symbols)
  {
    && (forall i :: 0 <= i < |p| ==> K.Readable(p[i].text) && (p[i].Org? ==> OriginNumber(p[i].text)))
    && forall l :: l in symbols ==> C.IsUpper(l)
  }

  predicate OriginNumber(t: seq<string>) { |t| > 1 && Number(t[1]).Some? }

  lemma {:induction false} CountedOnce(ls: seq<string>)
    requires |set l | l in ls| == |ls|
    ensures K.NoRepeats(ls)
  {
    if ls != [] {
      var front, l := ls[..|ls| - 1], ls[|ls| - 1];
      assert ls == front + [l];
      assert (set k | k in ls) == (set k | k in front) + {l};
      FewNames(front);
      assert |set k | k in front| == |front| && l !in front;
      CountedOnce(front);
    }
  }

  lemma {:induction false} FewNames(ls: seq<string>)
    ensures |set l | l in ls| <= |ls|
  {
    if ls != [] {
      var front, l := ls[..|ls| - 1], ls[|ls| - 1];
      FewNames(front);
      assert ls == front + [l];
      assert (set k | k in ls) == (set k | k in front) + {l};
    }
  }

  lemma {:induction false} LabelOwner(p: Source, n: nat, l: string) returns (i: nat)
    requires n <= |p| && l in K.LabelsUpTo(p, n)
    ensures i < n && l in p[i].labels
  {
    if l in p[n - 1].labels { i := n - 1; } else { i := LabelOwner(p, n - 1, l); }
  }

  lemma {:induction false} OwnedLabel(p: Source, n: nat, i: nat, l: string)
    requires i < n <= |p| && l in p[i].labels
    ensures l in K.LabelsUpTo(p, n)
  {
    if i < n - 1 { OwnedLabel(p, n - 1, i, l); }
  }

  lemma {:induction false} ListedStand(p: Source, symbols: Asm.Symbols, tail: seq<string>)
    requires Assembles(p, symbols) && Listed(p, symbols, tail)
    ensures LabelsStand(p, symbols)
  {
    hide Addr, Encodes, K.LabelsUpTo, Emitted, Names, Addressing;
    forall l | l in symbols ensures StandsSomewhere(p, symbols[l]) {
      if l !in tail {
        assert l in K.LabelsUpTo(p, |p|);
        var i := LabelOwner(p, |p|, l);
        assert Placed(p, symbols, i) && symbols[l] == Old(p, i);
      } else {
        assert symbols[l] == Old(p, |p|);
      }
    }
  }

  // --------------------------------------------------- what may be printed

  /** Labels on statement `k` in the new table. */
  lemma {:induction false} LabelsMoved(p: Source, e: Edit, symbols: Asm.Symbols, k: nat, ls: seq<string>)
    requires Accepted(p) && Fits(p) && WellNamed(symbols) && k <= |p|
    requires forall l :: l in ls ==> l in symbols && symbols[l] == Old(p, k) && C.IsUpper(l)
    ensures K.LabelsAt(ls, NewSymbols(p, e, symbols), Addr(p, e, k))
  {
    hide Addr, Accepted, NewAddress, Asm.IsName, C.IsUpper;
    NewAddressAt(p, e, k);
  }

  lemma {:induction false} TextOperates(t: seq<string>, symbols: Asm.Symbols)
    requires t != [] && (t[0] in {".BYTE", ".WORD"} || (t[0] == ".ORG" && OriginNumber(t)) || Asm.Instruction(t, symbols, true).Ok?)
    ensures K.Operates(t)
  {
    if t[0] !in {".BYTE", ".WORD", ".ORG"} { Mnemonics(t, symbols); }
    hide Asm.Instruction, Number;
  }

  lemma {:induction false} NewReadable(p: Source, e: Edit, i: nat)
    requires i < |p| && K.Readable(p[i].text)
    ensures K.Readable(NewText(p, e, i))
  {
    hide Tokenizing.Plain, C.IsUpper, Hex2;
    var t := p[i].text;
    if i in e.total && |t| == 3 {
      ConstantReadable(e.total[i]);
      WordReadable();
    } else if i in e.turn {
      WordReadable();
    }
  }

  lemma ConstantReadable(b: byte)
    ensures Tokenizing.Plain(C.Capital(Hex2(b))) && C.IsUpper(C.Capital(Hex2(b)))
  {
    DigitBack(b / 16);
    DigitBack(b % 16);
  }

  lemma WordReadable()
    ensures Tokenizing.Plain("LD") && Tokenizing.Plain("JP") && C.IsUpper("LD") && C.IsUpper("JP")
  {}

  lemma {:induction false} NewOperates(p: Source, e: Edit, symbols: Asm.Symbols, i: nat)
    requires Assembles(p, symbols) && Accepted(p) && LabelsStand(p, symbols) && Planned(p, e) && Legal(p, e) && i < |p|
    ensures NewText(p, e, i) != [] && K.Operates(NewText(p, e, i))
  {
    hide Addr, Planned, Legal, Asm.Instruction, NewText, NewSymbols, FinalWord, K.Operates, Emitted, Names, Addressing, LabelsStand;
    assert Placed(p, symbols, i) && StmtOk(p, p[i]);
    if p[i].Insn? {
      NewWord(p, e, symbols, i);
      TextOperates(NewText(p, e, i), NewSymbols(p, e, symbols));
    } else {
      DataText(p, e, i);
      TextOperates(p[i].text, symbols);
    }
  }

  /** A dropped statement has no labels. */
  lemma {:induction false} DroppedBare(p: Source, e: Edit, symbols: Asm.Symbols, i: nat)
    requires Assembles(p, symbols) && Legal(p, e) && i < |p| && i in e.drop
    ensures p[i].labels == []
  {
    hide Addr, Emitted, Names, Addressing, Encodes;
    assert DropOk(p, e, i) && Placed(p, symbols, i);
    assert !p[i].Labelled();
  }

  lemma {:induction false} ReturnedPrintable(p: Source, e: Edit, symbols: Asm.Symbols, tail: seq<string>)
    requires Assembles(p, symbols) && Accepted(p) && Listed(p, symbols, tail) && Spelt(p, symbols) && DataLabels(p, symbols)
    requires Planned(p, e) && Legal(p, e)
    ensures K.Printable(p, e, NewSymbols(p, e, symbols), tail)
  {
    hide Addr, Planned, Legal, NewSymbols, NewText, K.LabelsUpTo, K.NoRepeats, K.Readable, K.Operates, LabelsStand, DataLabels, Accepted, C.IsUpper, K.LabelsAt,
      Asm.Line, Placed, Asm.IsName, EncodesAt, OriginNumber;
    var m := NewSymbols(p, e, symbols);
    ListedStand(p, symbols, tail);
    SameNames(p, e, symbols);
    LabelsMoved(p, e, symbols, |p|, tail);
    NewBelowOld(p, e, |p|);
    CountedOnce(K.LabelsUpTo(p, |p|) + tail);
    forall i | 0 <= i < |p| ensures K.PrintableAt(p, e, m, i) {
      if i in e.drop {
        DroppedBare(p, e, symbols, i);
      } else {
        OwnLabels(p, symbols, i);
        LabelsMoved(p, e, symbols, i, p[i].labels);
        NewReadable(p, e, i);
        NewOperates(p, e, symbols, i);
        NewLines(p, e, symbols, i);
      }
    }
  }

  lemma OwnLabels(p: Source, symbols: Asm.Symbols, i: nat)
    requires Assembles(p, symbols) && i < |p|
    ensures forall l :: l in p[i].labels ==> l in symbols && symbols[l] == Old(p, i)
  {
    hide Addr, Emitted, Names, Addressing;
    assert Placed(p, symbols, i);
  }

  /** Printed as it is, the source assembles with its own table. */
  lemma {:induction false} SourcePrintable(p: Source, symbols: Asm.Symbols, tail: seq<string>)
    requires Assembles(p, symbols) && Listed(p, symbols, tail) && Spelt(p, symbols)
    ensures K.Printable(p, UNCHANGED, symbols, tail)
  {
    hide Addr, K.LabelsUpTo, K.NoRepeats, K.Readable, K.Operates, C.IsUpper, Placed, Asm.IsName, EncodesAt, OriginNumber, NewText, Asm.Line;
    CountedOnce(K.LabelsUpTo(p, |p|) + tail);
    forall i | 0 <= i < |p| ensures K.PrintableAt(p, UNCHANGED, symbols, i) {
      OwnLabels(p, symbols, i);
      UnchangedText(p, i);
      SourceLine(p, symbols, i);
    }
  }

  lemma {:induction false} SourceLine(p: Source, symbols: Asm.Symbols, i: nat)
    requires Assembles(p, symbols) && Spelt(p, symbols) && i < |p|
    ensures p[i].text != [] && K.Operates(p[i].text) && Asm.Line(p[i].text, Old(p, i), symbols, true).Ok?
    ensures |Asm.Line(p[i].text, Old(p, i), symbols, true).value| == p[i].Size()
  {
    hide Addr, Asm.Line, Asm.Instruction, Names, Addressing, K.Readable, C.IsUpper, OriginNumber;
    assert Placed(p, symbols, i) && EncodesAt(p[i], symbols);
    assert p[i].Org? ==> OriginNumber(p[i].text);
    TextOperates(p[i].text, symbols);
    if p[i].Insn? { InstructionLine(p[i].text, Old(p, i), symbols); }
  }

  // --------------------------------------------------------------- the ROMs

  ghost predicate AllSized(p: Source, e: Edit, m: Asm.Symbols)
  {
    forall k :: 0 <= k < |p| && k !in e.drop ==> K.Sized(p, e, m, k)
  }

  lemma CodeStep(p: Source, e: Edit, m: Asm.Symbols, k: nat)
    requires AllSized(p, e, m) && k < |p|
    ensures K.Code(p, e, m, k + 1) == K.Code(p, e, m, k) + if k in e.drop then [] else K.Bytes(p, e, m, k)
    ensures k !in e.drop ==> |K.Bytes(p, e, m, k)| == p[k].Size()
    ensures Addr(p, e, k + 1) == Addr(p, e, k) + if k in e.drop then 0 else p[k].Size()
  {
    hide NewText, Asm.Line;
    if k !in e.drop { assert K.Sized(p, e, m, k); }
  }

  lemma {:induction false} CodeSize(p: Source, e: Edit, m: Asm.Symbols, n: nat)
    requires AllSized(p, e, m) && n <= |p|
    ensures |K.Code(p, e, m, n)| == Addr(p, e, n) - ENTRYPOINT
  {
    hide K.Code, Addr, K.Bytes, AllSized;
    if n > 0 {
      CodeSize(p, e, m, n - 1);
      CodeStep(p, e, m, n - 1);
    } else {
      NoCode(p, e, m);
    }
  }

  lemma NoCode(p: Source, e: Edit, m: Asm.Symbols)
    ensures |K.Code(p, e, m, 0)| == 0 && Addr(p, e, 0) == ENTRYPOINT
  {}

  /** The bytes of statement `i` in the code. */
  lemma {:induction false} CodeAt(p: Source, e: Edit, m: Asm.Symbols, n: nat, i: nat)
    requires AllSized(p, e, m) && i < n <= |p| && i !in e.drop
    ensures |K.Bytes(p, e, m, i)| == p[i].Size() && Addr(p, e, i) - ENTRYPOINT + p[i].Size() <= |K.Code(p, e, m, n)|
    ensures K.Code(p, e, m, n)[Addr(p, e, i) - ENTRYPOINT..][..p[i].Size()] == K.Bytes(p, e, m, i)
  {
    hide K.Code, Addr, K.Bytes, AllSized;
    CodeSize(p, e, m, n - 1);
    CodeSize(p, e, m, i);
    CodeStep(p, e, m, n - 1);
    CodeStep(p, e, m, i);
    if i < n - 1 { CodeAt(p, e, m, n - 1, i); }
  }

  /** The statements stand in the memory their ROM is loaded to. */
  lemma {:induction false} ImageHolds(p: Source, e: Edit, m: Asm.Symbols, tail: seq<string>)
    requires K.Printable(p, e, m, tail)
    ensures |K.Code(p, e, m, |p|)| == Addr(p, e, |p|) - ENTRYPOINT <= 0xE00
    ensures Holds(p, e, m, D.Image([]), D.Image(K.Code(p, e, m, |p|)))
  {
    hide Addr, NewText, Asm.Line, K.Code, K.LabelsUpTo, K.NoRepeats, K.LabelsAt, K.Wordy, HoldsLine;
    SizedAll(p, e, m, tail);
    CodeSize(p, e, m, |p|);
    forall i | 0 <= i < |p| && i !in e.drop ensures HoldsLine(p, e, m, D.Image(K.Code(p, e, m, |p|)), i) {
      LineHeld(p, e, m, i);
    }
  }

  lemma SizedAll(p: Source, e: Edit, m: Asm.Symbols, tail: seq<string>)
    requires K.Printable(p, e, m, tail)
    ensures AllSized(p, e, m)
  {
    hide Addr, NewText, Asm.Line, K.LabelsUpTo, K.NoRepeats, K.LabelsAt, K.Wordy, K.Sized;
    forall k | 0 <= k < |p| && k !in e.drop ensures K.Sized(p, e, m, k) { assert K.PrintableAt(p, e, m, k); }
  }

  lemma {:induction false} LineHeld(p: Source, e: Edit, m: Asm.Symbols, i: nat)
    requires AllSized(p, e, m) && i < |p| && i !in e.drop
    requires |K.Code(p, e, m, |p|)| == Addr(p, e, |p|) - ENTRYPOINT <= 0xE00
    ensures HoldsLine(p, e, m, D.Image(K.Code(p, e, m, |p|)), i)
  {
    hide Addr, NewText, Asm.Line, K.Code, D.Image;
    assert K.Sized(p, e, m, i);
    CodeAt(p, e, m, |p|, i);
    var code, bytes, a := K.Code(p, e, m, |p|), K.Bytes(p, e, m, i), Addr(p, e, i) - ENTRYPOINT;
    forall j | 0 <= j < |bytes| ensures D.Image(code)[ENTRYPOINT + a + j] == bytes[j] {
      assert D.Image(code)[0x200 + (a + j)] == code[a + j] == code[a..][..p[i].Size()][j];
    }
  }

  // ------------------------------------------------------------ the two texts

  function TextOf(p: Source, e: Edit, tail: seq<string>): string { D.Flatten(K.Canonical(p, e, tail)) }

  /** The ROM a text assembles to. */
  function RomOf(text: string): D.Rom
  {
    match Asm.Assemble(text)
    case Ok(bytes) => if |bytes| <= 0xE00 then bytes else []
    case Fail(_) => []
  }

  /** canonicalize keeps the program: printed as it is, a source assembles to its
      own bytes. */
  lemma {:induction false} CanonicalKept(p: Source, symbols: Asm.Symbols, tail: seq<string>)
    requires Assembles(p, symbols) && Listed(p, symbols, tail) && Spelt(p, symbols) && K.Short(K.Canonical(p, UNCHANGED, tail))
    ensures |K.Code(p, UNCHANGED, symbols, |p|)| <= 0xE00
    ensures Asm.Assemble(TextOf(p, UNCHANGED, tail)) == Asm.Ok(K.Code(p, UNCHANGED, symbols, |p|))
  {
    hide Addr, Assembles, Listed, K.Canonical, K.Code, Asm.Assemble, D.Flatten, Holds, K.Printable, D.Image;
    SourcePrintable(p, symbols, tail);
    K.TextAssembles(p, UNCHANGED, symbols, tail);
    ImageHolds(p, UNCHANGED, symbols, tail);
  }

  /** The bytes of a statement of the source are those of its own line. */
  lemma {:induction false} OwnBytes(p: Source, symbols: Asm.Symbols, i: nat)
    requires Assembles(p, symbols) && Spelt(p, symbols) && i < |p|
    ensures Asm.Line(p[i].text, Old(p, i), symbols, true) == Asm.Ok(K.Bytes(p, UNCHANGED, symbols, i))
  {
    hide Addr, Assembles, Spelt, Asm.Line, NewText;
    UnchangedText(p, i);
    SourceLine(p, symbols, i);
  }

  // ------------------------------------------------------- lines that fit

  lemma {:induction false} FoldShort(a: string, b: byte)
    requires |a| == 2
    ensures |K.StatementText(["LD", a, C.Capital(Hex2(b))])| < 100
  {
    var t := ["LD", a, C.Capital(Hex2(b))];
    assert t[2..] == [t[2]] && t[2..][1..] == [];
    assert D.Separated([]) == "";
  }

  lemma JumpShort(x: string)
    ensures |K.StatementText(["JP", x])| <= |K.StatementText(["CALL", x])|
  {
    assert ["JP", x][2..] == [] == ["CALL", x][2..];
  }

  lemma {:induction false} StatementShort(p: Source, e: Edit, i: nat)
    requires Planned(p, e) && i < |p| && K.Short(K.StatementTexts(p, UNCHANGED, i))
    ensures K.Short(K.StatementTexts(p, e, i))
  {
    hide K.StatementText, DropText, SumText, Hex2, C.Capital;
    var t := p[i].text;
    UnchangedText(p, i);
    if i in e.total && |t| == 3 {
      assert FoldedText(p, e, i + 1);
      FoldShort(t[1], e.total[i]);
    } else if i in e.turn && t != [] {
      assert TailAt(p, i) && K.StatementTexts(p, UNCHANGED, i) == [K.StatementText(t)];
      assert t == ["CALL", t[1]] && ["JP"] + t[1..] == ["JP", t[1]];
      assert NewText(p, e, i) == ["JP", t[1]] && K.StatementTexts(p, e, i) == [K.StatementText(["JP", t[1]])];
      JumpShort(t[1]);
      assert |K.StatementTexts(p, UNCHANGED, i)[0]| < Asm.MAX_LINE;
    }
  }

  lemma ShortBoth(a: seq<string>, b: seq<string>)
    ensures K.Short(a + b) <==> K.Short(a) && K.Short(b)
  {
    if K.Short(a + b) {
      forall i | 0 <= i < |a| ensures |a[i]| < Asm.MAX_LINE { assert (a + b)[i] == a[i]; }
      forall i | 0 <= i < |b| ensures |b[i]| < Asm.MAX_LINE { assert (a + b)[|a| + i] == b[i]; }
    }
  }

  lemma {:induction false} ShortUpTo(p: Source, e: Edit, n: nat)
    requires Planned(p, e) && n <= |p| && K.Short(K.LinesUpTo(p, UNCHANGED, n))
    ensures K.Short(K.LinesUpTo(p, e, n))
  {
    hide Planned, K.Short, K.StatementTexts, K.LabelTexts;
    if n > 0 {
      var ls := K.LabelTexts(p[n - 1].labels);
      ShortBoth(K.LinesUpTo(p, UNCHANGED, n - 1), ls);
      ShortBoth(K.LinesUpTo(p, UNCHANGED, n - 1) + ls, K.StatementTexts(p, UNCHANGED, n - 1));
      ShortUpTo(p, e, n - 1);
      StatementShort(p, e, n - 1);
      ShortBoth(K.LinesUpTo(p, e, n - 1), ls);
      ShortBoth(K.LinesUpTo(p, e, n - 1) + ls, K.StatementTexts(p, e, n - 1));
    }
    assert n == 0 ==> K.Short([]) by { ShortBoth([], []); }
  }

  lemma {:induction false} ShortReturned(p: Source, e: Edit, tail: seq<string>)
    requires Planned(p, e) && K.Short(K.Canonical(p, UNCHANGED, tail))
    ensures K.Short(K.Canonical(p, e, tail))
  {
    hide Planned, K.Short, K.LinesUpTo, K.LabelTexts;
    ShortBoth(K.LinesUpTo(p, UNCHANGED, |p|), K.LabelTexts(tail));
    ShortUpTo(p, e, |p|);
    ShortBoth(K.LinesUpTo(p, e, |p|), K.LabelTexts(tail));
  }

  // -------------------------------------------------------- two bytes a time

  lemma {:induction false} Saved(p: Source, e: Edit, n: nat)
    requires Planned(p, e) && n <= |p|
    ensures Old(p, n) == Addr(p, e, n) + 2 * |set i | i in e.drop && i < n|
  {
    hide DropText, FoldedText, TailAt;
    if n == 0 {
      assert (set i | i in e.drop && i < n) == {};
    } else {
      Saved(p, e, n - 1);
      var before := set i | i in e.drop && i < n - 1;
      if n - 1 in e.drop {
        assert p[n - 1].Insn? by { assert DropText(p, e, n - 1); IsInsn(p, e, n - 1); }
        assert (set i | i in e.drop && i < n) == before + {n - 1};
      } else {
        assert (set i | i in e.drop && i < n) == before;
      }
    }
  }

  lemma IsInsn(p: Source, e: Edit, i: nat)
    requires DropText(p, e, i)
    ensures i < |p| && p[i].Insn?
  {
    hide Protected, FoldedText, NoOpText, DeadText;
  }

  // ------------------------------------------------------ what is returned

  /** A source the optimizer may compact, with the labels behind its end. */
  ghost predicate Ready(p: Source, symbols: Asm.Symbols, tail: seq<string>)
  {
    && |p| > 0 && Assembles(p, symbols) && Accepted(p) && Listed(p, symbols, tail) && Spelt(p, symbols) && DataLabels(p, symbols)
    && K.Short(K.Canonical(p, UNCHANGED, tail))
  }

  /** The text that is returned assembles, two bytes shorter for every statement
      that is dropped. */
  lemma {:induction false} ReturnedAssembles(p: Source, e: Edit, symbols: Asm.Symbols, tail: seq<string>)
    requires Ready(p, symbols, tail) && Planned(p, e) && Legal(p, e)
    ensures
      var was, now := Asm.Assemble(TextOf(p, UNCHANGED, tail)), Asm.Assemble(TextOf(p, e, tail));
      was.Ok? && now.Ok? && |now.value| + 2 * |e.drop| == |was.value| <= 0xE00
    ensures Holds(p, UNCHANGED, symbols, D.Image([]), D.Image(RomOf(TextOf(p, UNCHANGED, tail))))
    ensures Holds(p, e, NewSymbols(p, e, symbols), D.Image([]), D.Image(RomOf(TextOf(p, e, tail))))
  {
    hide Addr, Assembles, Listed, Planned, Legal, Accepted, K.Canonical, K.Code, Asm.Assemble, D.Flatten, Holds, K.Printable, D.Image, NewSymbols, K.Short, Spelt, DataLabels;
    SourcePrintable(p, symbols, tail);
    K.TextAssembles(p, UNCHANGED, symbols, tail);
    ImageHolds(p, UNCHANGED, symbols, tail);
    var m := NewSymbols(p, e, symbols);
    ReturnedPrintable(p, e, symbols, tail);
    ShortReturned(p, e, tail);
    K.TextAssembles(p, e, m, tail);
    ImageHolds(p, e, m, tail);
    Saved(p, e, |p|);
    AllDropped(p, e);
  }

  lemma AllDropped(p: Source, e: Edit)
    requires Planned(p, e)
    ensures (set i | i in e.drop && i < |p|) == e.drop
  {
    hide DropText, FoldedText, TailAt;
    forall i | i in e.drop ensures i < |p| { assert DropText(p, e, i); IsInsn(p, e, i); }
  }

  // ------------------------------------------------------------ the inputs

  /** Some of `b`, in order. */
  ghost predicate SomeOf(a: seq<Input>, b: seq<Input>)
  {
    if b == [] then a == []
    else
      var rest := b[..|b| - 1];
      SomeOf(a, rest) || (a != [] && a[|a| - 1] == b[|b| - 1] && SomeOf(a[..|a| - 1], rest))
  }

  lemma {:induction false} SomeOfSome(a: seq<Input>, b: seq<Input>, c: seq<Input>)
    requires SomeOf(a, b) && SomeOf(b, c)
    ensures SomeOf(a, c)
    decreases |c|
  {
    if c != [] {
      var rest := c[..|c| - 1];
      if SomeOf(b, rest) {
        SomeOfSome(a, b, rest);
      } else if SomeOf(a, b[..|b| - 1]) {
        SomeOfSome(a, b[..|b| - 1], rest);
      } else {
        SomeOfSome(a[..|a| - 1], b[..|b| - 1], rest);
      }
    }
  }

  lemma {:induction false} SomeOfFew(a: seq<Input>, b: seq<Input>)
    requires SomeOf(a, b)
    ensures |a| <= |b|
  {
    if b != [] {
      if SomeOf(a, b[..|b| - 1]) { SomeOfFew(a, b[..|b| - 1]); } else { SomeOfFew(a[..|a| - 1], b[..|b| - 1]); }
    }
  }

  lemma {:induction false} LeftSome(e: Edit, inps: seq<Input>, path: seq<nat>)
    requires |path| == |inps| + 1
    ensures SomeOf(Left(e, inps, path), inps)
    decreases |inps|
  {
    if inps != [] {
      var front := Left(e, inps[..|inps| - 1], path[..|inps|]);
      LeftSome(e, inps[..|inps| - 1], path[..|inps|]);
      assert front + [] == front;
      assert (front + [inps[|inps| - 1]])[..|front|] == front;
    }
  }

  lemma {:induction false} FedSome(sites: set<int>, s: Side, inps: seq<Input>)
    ensures SomeOf(R.Fed(sites, s, inps), inps)
    decreases |inps|
  {
    hide R.Waits, StepWith;
    if inps != [] {
      var front := R.Fed(sites, s, inps[..|inps| - 1]);
      FedSome(sites, s, inps[..|inps| - 1]);
      assert front + [] == front;
      assert (front + [inps[|inps| - 1]])[..|front|] == front;
    }
  }

  lemma {:induction false} FinalSome(p: Source, e: Edit, b: Core, inps: seq<Input>, path: seq<nat>)
    requires |path| == |inps| + 1
    ensures SomeOf(R.FinalInputs(p, e, b, inps, path), inps)
  {
    hide R.Fed, Left, SomeOf, R.Sites;
    LeftSome(e, inps, path);
    FedSome(R.Sites(p, e), Side(b, []), Left(e, inps, path));
    SomeOfSome(R.FinalInputs(p, e, b, inps, path), Left(e, inps, path), inps);
  }

  // -------------------------------------------------------------- the runs

  /** The machine at reset, with the ROM of `text`. */
  function Reset(text: string): Side { Side(I.Boot(D.Image(RomOf(text))).core, []) }

  /** The source at statement `i` and the returned program: the same display and
      timer settings, registers, I and data that correspond, no deeper stack; and
      the returned program is at that statement too, or at a RET. */
  ghost predicate Agrees(p: Source, e: Edit, i: nat, base: Option<nat>, c: Side, z: Side)
    requires i <= |p|
  {
    && z.core.lit == c.core.lit && z.sent == c.sent && |z.core.stack| <= |c.core.stack|
    && RegsMatch(p, e, i, c.core.regs, z.core.regs) && DataRelated(p, e, i, base, c.core, z.core)
    && (z.core.pc == Addr(p, e, i) || OpAt(z.core.mem, z.core.pc) == 0x00EE)
  }

  lemma {:induction false} PatchedData(p: Source, e: Edit, a: Memory, b: Memory)
    requires Accepted(p) && Legal(p, e) && R.Turnable(p, e) && SameData(p, e, a, b)
    ensures SameData(p, e, a, T.Patch(R.Sites(p, e), b))
  {
    hide Addr, Accepted, Legal, R.Turnable, R.Sites, Corresponds;
    forall x, y {:trigger Corresponds(p, e, x, y)} | 0 <= x < 0x1000 && 0 <= y < 0x1000 && Corresponds(p, e, x, y)
      ensures a[x] == T.Patch(R.Sites(p, e), b)[y]
    {
      forall i | 0 <= i < |p| && i !in e.drop && p[i].Insn? ensures y != Addr(p, e, i) { InsnApart(p, e, i, x, y); }
      NoSite(p, e, y);
    }
  }

  lemma {:induction false} ArrivedAgrees(p: Source, e: Edit, i: nat, base: Option<nat>, c: Side, d: Side, z: Side)
    requires Accepted(p) && Legal(p, e) && R.Turnable(p, e) && R.Arrived(p, e, i, base, c, d, z) && |z.core.stack| <= |c.core.stack|
    ensures i <= |p| && Agrees(p, e, i, base, c, z)
  {
    hide Addr, Legal, R.Turnable, R.Sites, SameData, RegsMatch, Frames, OpAt, T.Patch, T.SitesOk, Accepted, Loaded, T.Erase, IMatch;
    PatchedData(p, e, c.core.mem, d.core.mem);
  }

  /** The optimizer, from text to run. Both texts assemble; after any run of the
      source's ROM that keeps to its statements, the ROM of the returned text, fed
      the inputs of the steps that are left, agrees with it. */
  lemma {:induction false} EndToEnd(p: Source, e: Edit, symbols: Asm.Symbols, tail: seq<string>, inps: seq<Input>, path: seq<nat>)
    returns (fed: seq<Input>)
    requires Ready(p, symbols, tail) && Planned(p, e) && Legal(p, e) && Sound(p, e)
    requires Passes(p, e, Reset(TextOf(p, UNCHANGED, tail)), inps, path)
    ensures SomeOf(fed, inps)
    ensures RunWith(inps, Reset(TextOf(p, UNCHANGED, tail))).Some? && RunWith(fed, Reset(TextOf(p, e, tail))).Some?
    ensures |path| == |inps| + 1 && path[|inps|] <= |p|
    ensures Agrees(p, e, path[|inps|], BaseAt(p, path), RunWith(inps, Reset(TextOf(p, UNCHANGED, tail))).value, RunWith(fed, Reset(TextOf(p, e, tail))).value)
  {
    hide Ready, Planned, Legal, Sound, TextOf, RomOf, D.Image, Agrees, SomeOf, R.Sites, R.FinalInputs, Started, T.Rewritten, R.Arrived, StepWith, Addr;
    var a, z := Reset(TextOf(p, UNCHANGED, tail)), Reset(TextOf(p, e, tail));
    RunStarts(p, e, symbols, tail);
    var b := Recalled(p, e, z.core);
    R.PassesEnd(p, e, a, inps, path);
    R.Optimized(p, e, a.core, b, inps, path);
    fed := R.FinalInputs(p, e, b, inps, path);
    FinalSome(p, e, b, inps, path);
    ArrivedAgrees(p, e, path[|inps|], BaseAt(p, path), RunWith(inps, a).value, RunWith(Left(e, inps, path), Side(b, [])).value, RunWith(fed, z).value);
  }

  lemma {:induction false} RunStarts(p: Source, e: Edit, symbols: Asm.Symbols, tail: seq<string>)
    requires Ready(p, symbols, tail) && Planned(p, e) && Legal(p, e)
    ensures
      var a, z := Reset(TextOf(p, UNCHANGED, tail)).core, Reset(TextOf(p, e, tail)).core;
      && Accepted(p) && R.Turnable(p, e)
      && Started(p, e, a, Recalled(p, e, z)) && T.Rewritten(R.Sites(p, e), Recalled(p, e, z)) == z
  {
    hide Planned, Legal, TextOf, RomOf, D.Image, R.Sites, Started, T.Rewritten, Addr, Holds, Accepted, Listed, Spelt, DataLabels, Assembles, K.Short,
      NewSymbols, LabelsStand, Unpatched, R.Turnable;
    ReturnedAssembles(p, e, symbols, tail);
    ListedStand(p, symbols, tail);
    StartsRebuilt(p, e, symbols, D.Image([]), Reset(TextOf(p, UNCHANGED, tail)).core, Reset(TextOf(p, e, tail)).core);
  }

  /** And if the source stops with an error there, so does the returned program,
      unless the error is a CALL on a full stack which was turned, or for which it
      has room left. */
  lemma {:induction false} EndToEndErrors(p: Source, e: Edit, symbols: Asm.Symbols, tail: seq<string>, inps: seq<Input>, path: seq<nat>, inp: Input)
    returns (fed: seq<Input>)
    requires Ready(p, symbols, tail) && Planned(p, e) && Legal(p, e) && Sound(p, e)
    requires
      var a := Reset(TextOf(p, UNCHANGED, tail));
      && Passes(p, e, a, inps, path) && |path| == |inps| + 1 && RunWith(inps, a).Some? && path[|inps|] < |p|
      && Stands(p, e, path[|inps|], BaseAt(p, path), inp, RunWith(inps, a).value) && RunWith(inps + [inp], a).None?
    ensures SomeOf(fed, inps)
    ensures
      var i, c, z := path[|inps|], RunWith(inps, Reset(TextOf(p, UNCHANGED, tail))).value, Reset(TextOf(p, e, tail));
      && i !in e.drop && RunWith(fed, z).Some?
      && (RunWith(fed + [inp], z).None? <==> Top(p[i].op) != 2 || (i !in e.turn && |RunWith(fed, z).value.core.stack| == |c.core.stack|))
  {
    hide Ready, Planned, Legal, Sound, TextOf, RomOf, D.Image, SomeOf, R.Sites, R.FinalInputs, Started, T.Rewritten, StepWith, Addr, Stands, Top;
    var a, z := Reset(TextOf(p, UNCHANGED, tail)), Reset(TextOf(p, e, tail));
    RunStarts(p, e, symbols, tail);
    var b := Recalled(p, e, z.core);
    fed := R.FinalInputs(p, e, b, inps, path);
    FinalSome(p, e, b, inps, path);
    R.OptimizedErrors(p, e, a.core, b, inps, path, inp);
  }

  // ------------------------------------------------- behind symbolization

  /** `l` is the label that symbolization puts on one of the first `n` statements. */
  ghost predicate Invented(p: Source, n: nat, l: string)
    requires n <= |p| && Fits(p)
  {
    exists k :: 0 <= k < n && InventedAt(p, k, l)
  }

  ghost predicate InventedAt(p: Source, k: nat, l: string)
    requires k < |p| && Fits(p)
  {
    Generated(p, Old(p, k)) && Existing(p, Old(p, k), |p|).None? && Old(p, k) < 0x1000 && l == GeneratedName(Old(p, k))
  }

  ghost predicate Grown(p: Source, symbols: Asm.Symbols, n: nat)
    requires n <= |p| && Fits(p)
  {
    var m, ls := Extended(p, symbols, n), K.LabelsUpTo(Symbolized(p), n);
    && |m| + |K.LabelsUpTo(p, n)| == |symbols| + |ls|
    && m.Keys == symbols.Keys + (set l | l in ls)
    && (forall l :: l in K.LabelsUpTo(p, n) ==> l in ls)
    && forall l :: l in m && l !in symbols ==> Invented(p, n, l)
  }

  lemma KeysMore(m: Asm.Symbols, n: Asm.Symbols, l: string)
    requires l !in m && n.Keys == m.Keys + {l}
    ensures |n| == |m| + 1
  {
    assert |m| == |m.Keys| && |n| == |n.Keys|;
  }

  lemma SetSum(a: seq<string>, b: seq<string>)
    ensures (set l | l in a + b) == (set l | l in a) + (set l | l in b)
  {}

  lemma KeysStep(s: set<string>, m: set<string>, a: seq<string>, b: seq<string>, l: string)
    requires m == s + (set x | x in a) && forall x :: x in b ==> x in s
    ensures m + {l} == s + set x | x in a + ([l] + b)
  {
    SetSum(a, [l] + b);
    SetSum([l], b);
  }

  lemma InventedMore(p: Source, n: nat, l: string)
    requires n < |p| && Fits(p)
    ensures Invented(p, n, l) || InventedAt(p, n, l) ==> Invented(p, n + 1, l)
  {
    hide InventedAt;
  }

  /** One that gets a new label. */
  lemma {:induction false} GrownMore(p: Source, symbols: Asm.Symbols, k: nat, l: string)
    requires k < |p| && Fits(p) && Grown(p, symbols, k) && Symbolized(p)[k].labels == [l] + p[k].labels
    requires InventedAt(p, k, l) && l !in Extended(p, symbols, k)
    requires (forall l :: l in p[k].labels ==> l in symbols) && Extended(p, symbols, k + 1).Keys == Extended(p, symbols, k).Keys + {l}
    ensures Grown(p, symbols, k + 1)
  {
    hide Symbolized, Extended, InventedAt, Invented, K.LabelsUpTo;
    var m, n, q := Extended(p, symbols, k), Extended(p, symbols, k + 1), Symbolized(p);
    KeysMore(m, n, l);
    LabelsNext(p, k);
    LabelsNext(q, k);
    KeysStep(symbols.Keys, m.Keys, K.LabelsUpTo(q, k), p[k].labels, l);
    forall x | x in n && x !in symbols ensures Invented(p, k + 1, x) { InventedMore(p, k, x); }
  }

  /** One that gets none. */
  lemma {:induction false} GrownSame(p: Source, symbols: Asm.Symbols, k: nat)
    requires k < |p| && Fits(p) && Grown(p, symbols, k) && Symbolized(p)[k].labels == p[k].labels
    requires (forall l :: l in p[k].labels ==> l in symbols) && Extended(p, symbols, k + 1).Keys == Extended(p, symbols, k).Keys
    ensures Grown(p, symbols, k + 1)
  {
    hide Symbolized, Extended, InventedAt, Invented, K.LabelsUpTo;
    var m, n, q := Extended(p, symbols, k), Extended(p, symbols, k + 1), Symbolized(p);
    assert |m| == |m.Keys| && |n| == |n.Keys|;
    LabelsNext(p, k);
    LabelsNext(q, k);
    SetSum(K.LabelsUpTo(q, k), p[k].labels);
    forall x | x in n && x !in symbols ensures Invented(p, k + 1, x) { InventedMore(p, k, x); }
  }

  lemma LabelsNext(p: Source, k: nat)
    requires k < |p|
    ensures K.LabelsUpTo(p, k + 1) == K.LabelsUpTo(p, k) + p[k].labels
  {}

  lemma {:induction false} NewName(p: Source, symbols: Asm.Symbols, k: nat, l: string)
    requires Assembles(p, symbols) && Relocate.Fresh(p, symbols) && k < |p| && Grown(p, symbols, k) && InventedAt(p, k, l)
    requires forall j :: 0 <= j < |p| ==> p[j].Size() > 0
    ensures l !in Extended(p, symbols, k)
  {
    hide Symbolized, Extended, Generated, Existing, Assembles, GeneratedName, K.LabelsUpTo, Addr;
    AssemblesFits(p, symbols);
    if l in Extended(p, symbols, k) {
      assert l !in symbols;
      assert Invented(p, k, l);
      var j :| 0 <= j < k && InventedAt(p, j, l);
      NamesDiffer(Old(p, j), Old(p, k));
      OldIncreases(p, j, k);
    }
  }

  /** Symbolization extends the table by exactly the labels it adds. */
  lemma {:induction false} SymbolizedGrown(p: Source, symbols: Asm.Symbols, n: nat)
    requires Assembles(p, symbols) && Relocate.Fresh(p, symbols) && n <= |p| && forall j :: 0 <= j < |p| ==> p[j].Size() > 0
    ensures Grown(p, symbols, n)
  {
    hide Symbolized, Generated, Existing, Addr, GeneratedName, Encodes, Emitted, Names, Addressing, Relocate.Fresh, NameAt, Grown, Placed;
    if n == 0 {
      NothingGrown(p, symbols);
    } else {
      var k, a := n - 1, Old(p, n - 1);
      SymbolizedGrown(p, symbols, k);
      OwnLabels(p, symbols, k);
      StatementLabels(p, symbols, k);
      if Generated(p, a) && Existing(p, a, |p|).None? {
        NewName(p, symbols, k, GeneratedName(a));
        GrownMore(p, symbols, k, GeneratedName(a));
      } else {
        if Generated(p, a) { assert NameAt(p, a) in Extended(p, symbols, k) by { GrownOld(p, symbols, k); } }
        GrownSame(p, symbols, k);
      }
    }
  }

  lemma NothingGrown(p: Source, symbols: Asm.Symbols)
    requires Fits(p)
    ensures Grown(p, symbols, 0)
  {
    hide Addr;
  }

  lemma GrownOld(p: Source, symbols: Asm.Symbols, k: nat)
    requires k <= |p| && Fits(p) && Grown(p, symbols, k)
    ensures forall l :: l in symbols ==> l in Extended(p, symbols, k)
  {
    hide Symbolized, Extended, Invented, K.LabelsUpTo, Addr;
  }

  /** The labels of a statement, before and after. */
  lemma {:induction false} StatementLabels(p: Source, symbols: Asm.Symbols, k: nat)
    requires Assembles(p, symbols) && Relocate.Fresh(p, symbols) && k < |p|
    ensures
      var a := Old(p, k);
      if Generated(p, a) then
        a < 0x1000 && (if Existing(p, a, |p|).Some? then NameAt(p, a) in symbols && Symbolized(p)[k].labels == p[k].labels
          else NameAt(p, a) == GeneratedName(a) && Symbolized(p)[k].labels == [GeneratedName(a)] + p[k].labels)
      else Symbolized(p)[k].labels == p[k].labels
  {
    hide Addr, Generated, Existing, GeneratedName, Renamed, NameAt, Encodes, Relocate.Fresh, Numeral, Index, Placed;
    AssemblesFits(p, symbols);
    LinkedIs(p, p[k]);
    AnchoredIs(p, Old(p, k), Linked(p, p[k]));
    if Generated(p, Old(p, k)) { NameValue(p, symbols, Old(p, k)); }
  }

  // ----------------------------------------------------- the whole optimizer

  /** A source for the optimizer: no signed numbers, no generated name in use, room
      for its labels and lines, symbolized too. */
  ghost predicate Fit(p: Source, symbols: Asm.Symbols, tail: seq<string>)
  {
    && |p| > 0 && Assembles(p, symbols) && Relocate.Fresh(p, symbols) && AllPlain(p)
    && Listed(p, symbols, tail) && Spelt(p, symbols) && DataLabels(p, symbols)
    && |Extended(p, symbols, |p|)| <= Asm.MAX_SYMBOLS
    && K.Short(K.Canonical(p, UNCHANGED, tail)) && K.Short(K.Canonical(Symbolized(p), UNCHANGED, tail))
  }

  lemma {:induction false} SymbolizedListed(p: Source, symbols: Asm.Symbols, tail: seq<string>)
    requires Assembles(p, symbols) && Relocate.Fresh(p, symbols) && Listed(p, symbols, tail) && (forall j :: 0 <= j < |p| ==> p[j].Size() > 0)
    requires |Extended(p, symbols, |p|)| <= Asm.MAX_SYMBOLS
    ensures Listed(Symbolized(p), Extended(p, symbols, |p|), tail)
  {
    hide Symbolized, Extended, Addr, K.LabelsUpTo, K.NoRepeats, Assembles, Relocate.Fresh, Invented, Generated, NameAt, Asm.IsName;
    AssemblesFits(p, symbols);
    var q, m := Symbolized(p), Extended(p, symbols, |p|);
    SymbolizedGrown(p, symbols, |p|);
    SameLayout(p, |p|);
    AllListed(p, symbols, tail);
    OldValues(p, symbols);
  }

  lemma AllListed(p: Source, symbols: Asm.Symbols, tail: seq<string>)
    requires Fits(p) && Listed(p, symbols, tail) && Grown(p, symbols, |p|)
    ensures
      var m, ls := Extended(p, symbols, |p|), K.LabelsUpTo(Symbolized(p), |p|) + tail;
      m.Keys == (set l | l in ls) && |ls| == |m|
  {
    hide Symbolized, Extended, Addr, K.LabelsUpTo, Invented;
    SetSum(K.LabelsUpTo(p, |p|), tail);
    SetSum(K.LabelsUpTo(Symbolized(p), |p|), tail);
  }

  lemma {:induction false} OldValues(p: Source, symbols: Asm.Symbols)
    requires Assembles(p, symbols) && Relocate.Fresh(p, symbols)
    ensures forall l :: l in symbols ==> l in Extended(p, symbols, |p|) && Extended(p, symbols, |p|)[l] == symbols[l]
  {
    hide Extended, Addr, Assembles, Relocate.Fresh, Generated, NameAt, Asm.IsName;
    ExtendedHas(p, symbols, |p|);
  }

  lemma GeneratedUpper(v: address)
    ensures C.IsUpper(GeneratedName(v)) && Tokenizing.Plain(GeneratedName(v))
  {
    DigitBack(v / 256);
    DigitBack(v / 16 % 16);
    DigitBack(v % 16);
  }

  lemma {:induction false} ExtendedUpper(p: Source, symbols: Asm.Symbols)
    requires Assembles(p, symbols) && Relocate.Fresh(p, symbols) && Spelt(p, symbols) && (forall j :: 0 <= j < |p| ==> p[j].Size() > 0)
    ensures forall l :: l in Extended(p, symbols, |p|) ==> C.IsUpper(l)
  {
    hide Symbolized, Extended, Addr, K.LabelsUpTo, Assembles, Relocate.Fresh, Generated, GeneratedName, Existing, C.IsUpper, K.Readable;
    AssemblesFits(p, symbols);
    SymbolizedGrown(p, symbols, |p|);
    forall l | l in Extended(p, symbols, |p|) ensures C.IsUpper(l) {
      if l !in symbols {
        assert Invented(p, |p|, l);
        var k :| 0 <= k < |p| && InventedAt(p, k, l);
        GeneratedUpper(Old(p, k));
      }
    }
  }

  lemma {:induction false} NamePlainly(l: string)
    requires Asm.IsName(l)
    ensures Tokenizing.Plain(l)
  {}

  /** A statement with its last word replaced by a label. */
  lemma {:induction false} ReadableRenamed(t: seq<string>, name: string)
    requires K.Readable(t) && Asm.IsName(name) && C.IsUpper(name)
    ensures K.Readable(t[..|t| - 1] + [name])
  {
    hide Tokenizing.Plain, C.IsUpper, Asm.IsName;
    NamePlainly(name);
  }

  lemma {:induction false} StatementSpelt(p: Source, symbols: Asm.Symbols, i: nat)
    requires Assembles(p, symbols) && Relocate.Fresh(p, symbols) && Spelt(p, symbols) && i < |p|
    requires forall l :: l in Extended(p, symbols, |p|) ==> C.IsUpper(l)
    ensures K.Readable(Symbolized(p)[i].text)
  {
    hide Symbolized, Extended, Extends, Addr, Assembles, Relocate.Fresh, Generated, NameAt, C.IsUpper, K.Readable, Numeral, Asm.IsName, OriginNumber, Hit, Index, GeneratedName;
    AssemblesFits(p, symbols);
    SymbolizedAt(p, i);
    assert K.Readable(p[i].text);
    if Hit(p, p[i]) {
      HitGenerated(p, p[i]);
      ExtendedHas(p, symbols, |p|);
      NameReads(p, symbols, Extended(p, symbols, |p|), Numeral(p[i]).value);
      ReadableRenamed(p[i].text, NameAt(p, Numeral(p[i]).value));
    }
  }

  /** The data lists keep labels in the last place only. */
  lemma {:induction false} StatementData(p: Source, symbols: Asm.Symbols, i: nat)
    requires Assembles(p, symbols) && Relocate.Fresh(p, symbols) && AllPlain(p) && DataLabels(p, symbols) && i < |p| && p[i].Data?
    ensures DataLabelsAt(Symbolized(p)[i], Extended(p, symbols, |p|))
  {
    hide Symbolized, Extended, Extends, Addr, Relocate.Fresh, Generated, NameAt, Numeral, Asm.IsName, Hit, Index, GeneratedName, AllPlain, Encodes, Asm.Data, Asm.Value, Names, Addressing;
    var s, t, m := p[i], Symbolized(p)[i], Extended(p, symbols, |p|);
    SymbolizedAt(p, i);
    ExtendedHas(p, symbols, |p|);
    assert Placed(p, symbols, i) && DataLabelsAt(s, symbols);
    DataWords(s, Old(p, i), symbols);
    forall j | 0 <= j < |s.text| && (j < |s.text| - 1 || !Hit(p, s)) ensures s.text[j] in m ==> s.text[j] in symbols {
      if j == 0 { DirectiveNoName(s.text[0]); MNamed(p, symbols, m); } else {
        ListValueAt(s.text[1..], s.text[0] == ".WORD", symbols, j - 1);
        if s.text[j] in m { NoNewName(p, symbols, m, s.text[j]); }
      }
    }
    assert forall j :: 0 <= j < |t.text| - 1 ==> t.text[j] == s.text[j];
  }

  lemma DirectiveNoName(w: string)
    requires w in {".BYTE", ".WORD"}
    ensures !Asm.IsName(w)
  {}

  lemma MNamed(p: Source, symbols: Asm.Symbols, m: Asm.Symbols)
    requires Assembles(p, symbols) && Extends(p, symbols, m, |p|)
    ensures forall l :: l in m ==> Asm.IsName(l)
  {
    hide Asm.IsName, Generated, NameAt, Placed, Addr, EncodesAt;
  }

  lemma {:induction false} ListValueAt(ts: seq<string>, wide: bool, symbols: Asm.Symbols, j: nat)
    requires Asm.Data(ts, wide, symbols, true).Ok? && j < |ts|
    ensures Asm.Value(ts[j], symbols, true).Ok?
  {
    hide Asm.Value;
    if j > 0 { ListValueAt(ts[1..], wide, symbols, j - 1); }
  }

  /** What the optimizer compacts is ready for it, and its ROM is that of the source. */
  lemma {:induction false} SymbolizedReady(p: Source, symbols: Asm.Symbols, tail: seq<string>)
    requires Fit(p, symbols, tail) && Accepted(Symbolized(p))
    ensures Ready(Symbolized(p), Extended(p, symbols, |p|), tail)
    ensures Asm.Assemble(TextOf(Symbolized(p), UNCHANGED, tail)) == Asm.Assemble(TextOf(p, UNCHANGED, tail))
  {
    hide Symbolized, Extended, Addr, K.LabelsUpTo, K.NoRepeats, Assembles, Relocate.Fresh, C.IsUpper, K.Readable, DataLabelsAt, OriginNumber, Listed, K.Short, AllPlain,
      K.Code, TextOf, Asm.Assemble, Asm.Line, DataLabels;
    AssemblesFits(p, symbols);
    var q, m := Symbolized(p), Extended(p, symbols, |p|);
    SymbolizedAssembles(p, symbols);
    forall i | 0 <= i < |p| ensures p[i].Size() > 0 && !q[i].Org? { NoOrigin(p, i); }
    SymbolizedListed(p, symbols, tail);
    ExtendedUpper(p, symbols);
    forall i | 0 <= i < |p| ensures K.Readable(q[i].text) { StatementSpelt(p, symbols, i); }
    assert DataLabels(q, m) by { DataStays(p, symbols); }
    CanonicalKept(p, symbols, tail);
    CanonicalKept(q, m, tail);
    SameCode(p, symbols, |p|);
  }

  lemma DataStays(p: Source, symbols: Asm.Symbols)
    requires Assembles(p, symbols) && Relocate.Fresh(p, symbols) && AllPlain(p) && DataLabels(p, symbols)
    ensures DataLabels(Symbolized(p), Extended(p, symbols, |p|))
  {
    hide Symbolized, Extended, Addr, Assembles, Relocate.Fresh, AllPlain, DataLabelsAt;
    AssemblesFits(p, symbols);
    forall i | 0 <= i < |p| && Symbolized(p)[i].Data? ensures DataLabelsAt(Symbolized(p)[i], Extended(p, symbols, |p|)) {
      SymbolizedAt(p, i) by { hide DataLabels; }
      StatementData(p, symbols, i);
    }
  }

  lemma NoOrigin(p: Source, i: nat)
    requires Fits(p) && Accepted(Symbolized(p)) && i < |p|
    ensures p[i].Size() > 0 && !p[i].Org? && !Symbolized(p)[i].Org?
  {
    hide Symbolized, Addr, Hit, Generated, GeneratedName, NameAt, Index;
    SymbolizedAt(p, i);
    assert StmtOk(Symbolized(p), Symbolized(p)[i]);
  }

  lemma {:induction false} SameCode(p: Source, symbols: Asm.Symbols, n: nat)
    requires Assembles(p, symbols) && Relocate.Fresh(p, symbols) && AllPlain(p) && n <= |p|
    ensures K.Code(Symbolized(p), UNCHANGED, Extended(p, symbols, |p|), n) == K.Code(p, UNCHANGED, symbols, n)
  {
    hide Symbolized, Extended, Addr, Assembles, Relocate.Fresh, AllPlain, Asm.Line, NewText;
    AssemblesFits(p, symbols);
    if n > 0 {
      SameCode(p, symbols, n - 1);
      SymbolizedAssembles(p, symbols);
      UnchangedText(p, n - 1);
      UnchangedText(Symbolized(p), n - 1);
    }
  }

  /** Fed some of `inps`, the ROM of the text that is returned agrees with that of
      the source fed all of them. */
  ghost predicate Follows(p: Source, e: Edit, was: Side, now: Side, inps: seq<Input>, path: seq<nat>)
  {
    exists fed :: SomeOf(fed, inps) && FollowsFed(p, e, was, now, inps, path, fed)
  }

  ghost predicate FollowsFed(p: Source, e: Edit, was: Side, now: Side, inps: seq<Input>, path: seq<nat>, fed: seq<Input>)
  {
    && |path| == |inps| + 1 && path[|inps|] <= |p| && RunWith(inps, was).Some? && RunWith(fed, now).Some?
    && Agrees(p, e, path[|inps|], BaseAt(p, path), RunWith(inps, was).value, RunWith(fed, now).value)
  }

  lemma {:induction false} Compacted(p: Source, symbols: Asm.Symbols, tail: seq<string>, e: Edit)
    requires Fit(p, symbols, tail)
    requires var q := Symbolized(p); Accepted(q) && Planned(q, e) && Legal(q, e)
    ensures
      var q, was, now := Symbolized(p), Asm.Assemble(TextOf(p, UNCHANGED, tail)), Asm.Assemble(TextOf(Symbolized(p), e, tail));
      && was.Ok? && now.Ok? && |now.value| + 2 * |e.drop| == |was.value|
      && (Sound(q, e) ==> forall inps, path :: Passes(q, e, Reset(TextOf(p, UNCHANGED, tail)), inps, path) ==>
            Follows(q, e, Reset(TextOf(p, UNCHANGED, tail)), Reset(TextOf(q, e, tail)), inps, path))
  {
    hide Symbolized, Extended, Addr, Fit, Accepted, Planned, Legal, Sound, TextOf, Asm.Assemble, Ready, Agrees, Passes, D.Image, SomeOf, Holds;
    FitPlain(p, symbols, tail);
    var q := Symbolized(p);
    SymbolizedReady(p, symbols, tail);
    ReturnedAssembles(q, e, Extended(p, symbols, |p|), tail);
    var was, now := Reset(TextOf(p, UNCHANGED, tail)), Reset(TextOf(q, e, tail));
    assert was == Reset(TextOf(q, UNCHANGED, tail));
    if Sound(q, e) {
      forall inps, path | Passes(q, e, was, inps, path) ensures Follows(q, e, was, now, inps, path) {
        var fed := EndToEnd(q, e, Extended(p, symbols, |p|), tail, inps, path);
        assert FollowsFed(q, e, was, now, inps, path, fed);
      }
    }
  }

  /** The optimize command: the new text, unless the source is refused. It assembles,
      to two bytes less for every statement dropped, and its ROM does what the ROM of
      the source does. */
  method OptimizeText(p: Source, symbols: Asm.Symbols, tail: seq<string>) returns (lines: Option<seq<string>>, e: Edit)
    requires Assembles(p, symbols)
    ensures lines.Some? ==> Planned(Symbolized(p), e) && lines.value == K.Canonical(Symbolized(p), e, tail)
    ensures
      var q := Symbolized(p);
      lines.Some? && Fit(p, symbols, tail) && "I" !in symbols ==>
        var was, now := Asm.Assemble(TextOf(p, UNCHANGED, tail)), Asm.Assemble(D.Flatten(lines.value));
        && was.Ok? && now.Ok? && |now.value| + 2 * |e.drop| == |was.value|
        && (Sound(q, e) ==> forall inps, path :: Passes(q, e, Reset(TextOf(p, UNCHANGED, tail)), inps, path) ==>
              Follows(q, e, Reset(TextOf(p, UNCHANGED, tail)), Reset(D.Flatten(lines.value)), inps, path))
  {
    hide Symbolized, Extended, Addr, Fit, Accepted, Planned, Legal, Sound, TextOf, Asm.Assemble, Reset, Follows, Passes, K.Canonical, D.Flatten, AllPlain, Relocate.Fresh,
      F.ReadAs, A.Analyzed, A.IntoPayload, A.OfPayload, F.Rigid, F.WritesCode, F.Computes, F.Unfounded, Assembles, Plan, F.Pinned, R.Turnable;
    var q, labels, insns, edit, r;
    ghost var inc;
    q, labels, insns, edit, r, inc := F.OptimizeSource(p, symbols);
    if edit.None? {
      lines, e := None, UNCHANGED;
      return;
    }
    e := edit.value;
    var text := K.Canonicalize(q, edit.value, tail);
    lines := Some(text);
    if Fit(p, symbols, tail) && "I" !in symbols {
      FitPlain(p, symbols, tail);
      Compacted(p, symbols, tail, e);
      assert TextOf(q, e, tail) == D.Flatten(text) by { TextIs(q, e, tail); }
    }
  }

  lemma FitPlain(p: Source, symbols: Asm.Symbols, tail: seq<string>)
    requires Fit(p, symbols, tail)
    ensures Fits(p) && AllPlain(p) && Relocate.Fresh(p, symbols)
  {}

  lemma TextIs(p: Source, e: Edit, tail: seq<string>)
    ensures TextOf(p, e, tail) == D.Flatten(K.Canonical(p, e, tail))
  {}

  // ------------------------------------------- the missed read, from its text

  ghost predicate ReadsBack(w: string) { Tokenizing.Plain(w) && C.IsUpper(w) && |w| <= 8 }

  lemma MovedNames()
    ensures ReadsBack("LD") && ReadsBack("JP") && ReadsBack("ADD") && ReadsBack("LOOP") && ReadsBack("I") && ReadsBack("[I]")
    ensures ReadsBack("V0") && ReadsBack("V1") && ReadsBack("0XAE")
  {}

  /** The words of the program that Missed follows. */
  lemma {:induction false} MovedWords(i: nat)
    requires i < 7
    ensures C.Printable(M.MOVED[i].text) && K.Readable(M.MOVED[i].text)
  {
    MovedNames();
    hide Tokenizing.Plain, C.IsUpper;
  }

  lemma {:induction false} StatementFew(t: seq<string>)
    requires C.Printable(t)
    ensures |K.StatementText(t)| < 200
  {
    hide C.Printable;
    RT.RenderShort(t);
  }

  lemma {:induction false} MovedLines(n: nat)
    requires n <= 7
    ensures K.Short(K.LinesUpTo(M.MOVED, UNCHANGED, n))
  {
    hide K.StatementText, K.Short;
    if n == 0 {
      NoneShort();
    } else {
      var ls, ts := K.LabelTexts(M.MOVED[n - 1].labels), K.StatementTexts(M.MOVED, UNCHANGED, n - 1);
      MovedLines(n - 1);
      MovedWords(n - 1);
      StatementFew(M.MOVED[n - 1].text);
      assert K.Short(ls) && K.Short(ts) by { MovedShort(n - 1); }
      ShortBoth(K.LinesUpTo(M.MOVED, UNCHANGED, n - 1), ls);
      ShortBoth(K.LinesUpTo(M.MOVED, UNCHANGED, n - 1) + ls, ts);
    }
  }

  lemma NoneShort()
    ensures K.Short(K.LinesUpTo(M.MOVED, UNCHANGED, 0))
  {}

  lemma MovedShort(i: nat)
    requires i < 7 && |K.StatementText(M.MOVED[i].text)| < 200
    ensures K.Short(K.LabelTexts(M.MOVED[i].labels)) && K.Short(K.StatementTexts(M.MOVED, UNCHANGED, i))
  {
    hide K.StatementText;
    assert K.LabelTexts(["LOOP"]) == [K.LabelText("LOOP")];
  }

  lemma {:induction false} MovedListed()
    ensures Listed(M.MOVED, M.MOVED_SYMBOLS, [])
  {
    hide K.LabelsUpTo, Addr;
    MovedLabels(7);
    var ls := K.LabelsUpTo(M.MOVED, 7) + [];
    assert ls == ["LOOP"];
    assert M.MOVED_SYMBOLS.Keys == {"LOOP"} == set l | l in ls;
    assert |M.MOVED_SYMBOLS| == |M.MOVED_SYMBOLS.Keys|;
  }

  lemma {:induction false} MovedSpelt()
    ensures Spelt(M.MOVED, M.MOVED_SYMBOLS)
  {
    hide K.Readable, C.IsUpper;
    forall i | 0 <= i < 7 ensures K.Readable(M.MOVED[i].text) && M.MOVED[i].Insn? { MovedWords(i); }
    assert C.IsUpper("LOOP") by { MovedNames(); }
  }

  lemma MovedData()
    ensures DataLabels(M.MOVED, M.MOVED_SYMBOLS)
  {
    assert forall i :: 0 <= i < 7 ==> M.MOVED[i].Insn?;
  }

  lemma {:induction false} MovedLabels(n: nat)
    requires n <= 7
    ensures K.LabelsUpTo(M.MOVED, n) == if n == 7 then ["LOOP"] else []
  {
    if n > 0 { MovedLabels(n - 1); }
  }

  lemma {:induction false} MovedFit()
    ensures Fit(M.MOVED, M.MOVED_SYMBOLS, []) && Symbolized(M.MOVED) == M.MOVED && Ready(M.MOVED, M.MOVED_SYMBOLS, [])
  {
    hide Symbolized, Extended, Addr, Accepted, Assembles, Relocate.Fresh, Listed, Spelt, DataLabels, K.Short, Fixed, Refers, AllPlain, Encodes;
    M.MovedSource();
    MovedListed();
    MovedSpelt();
    MovedData();
    MovedLines(7);
    M.MovedReads();
    M.NothingSymbolized(M.MOVED, M.MOVED_SYMBOLS);
    assert K.Canonical(M.MOVED, UNCHANGED, []) == K.LinesUpTo(M.MOVED, UNCHANGED, 7);
    assert |M.MOVED_SYMBOLS.Keys| == 1;
  }

  lemma {:induction false} MovedEdit()
    ensures Planned(M.MOVED, M.GONE) && Legal(M.MOVED, M.GONE) && Sound(M.MOVED, M.GONE)
  {
    hide Addr, Protected, Top, X, Y, N, KK;
    M.MovedOps();
    NoneProtected(M.MOVED, 1);
  }

  /** The texts of the program of Missed, before and after: the one ROM gets 0xF0, the
      other 0x12. The step that does it reads through an I that no LD I set. */
  lemma {:induction false} MovedTexts()
    ensures
      var was, now := Reset(TextOf(M.MOVED, UNCHANGED, [])), Reset(TextOf(M.MOVED, M.GONE, []));
      var s, t := RunWith(M.Quiet(6), was), RunWith(M.Quiet(5), now);
      s.Some? && t.Some? && s.value.core.regs[0] == 0xF0 && t.value.core.regs[0] == 0x12
  {
    hide TextOf, RomOf, Ready, Fit, Planned, Legal, Addr, Accepted, Loaded, SameData, RunWith, OpAt, D.Image, Unpatched;
    MovedFit();
    MovedEdit();
    RunStarts(M.MOVED, M.GONE, M.MOVED_SYMBOLS, []);
    var z := Reset(TextOf(M.MOVED, M.GONE, [])).core;
    assert R.Sites(M.MOVED, M.GONE) == {};
    assert Recalled(M.MOVED, M.GONE, z) == z by { NothingTurned(z.mem); }
    M.MissedReadMoves(Reset(TextOf(M.MOVED, UNCHANGED, [])).core, z);
  }

  lemma NothingTurned(mem: Memory)
    ensures Unpatched({}, mem) == mem
  {
    assert forall b :: 0 <= b < 0x1000 ==> Unpatched({}, mem)[b] == mem[b];
  }
}
