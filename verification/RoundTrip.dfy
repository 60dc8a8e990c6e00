/** Assembling what the disassembler prints gives the ROM back. */
module RoundTrip {
  import opened Chip8
  import opened Text
  import opened Asm
  import opened Disas
  import opened Tokenizing
  import opened Printed
  import opened Encoding

  // ----------------------------------------------------- one printed line

  /** Nothing, or a comment set off by a space. */
  ghost predicate Quiet(r: string, max: nat)
  {
    && |r| <= max
    && (r == "" || (|r| >= 2 && r[0] == ' ' && r[1] == ';'))
    && forall i :: 0 <= i < |r| ==> r[i] != '\n'
  }

  lemma {:induction false} QuietLiterals()
    ensures Quiet("", 80) && Quiet(" ; data (unreachable)", 80) && Quiet(" ; unrecognized opcode", 80) && Quiet(" ; unreachable", 20)
  {}

  lemma {:induction false} QuietWarning()
    ensures Quiet(WARNING, 80)
  {
    var a, b := " ; WARNING: indirect jump, ", "block analysis may be incomplete";
    assert forall i :: 0 <= i < |a| ==> a[i] != '\n';
    assert forall i :: 0 <= i < |b| ==> b[i] != '\n';
    assert WARNING == a + b;
  }

  lemma {:induction false} QuietSum(a: string, b: string)
    requires Quiet(a, 80) && Quiet(b, 20)
    ensures Quiet(a + b, 100)
  {}

  lemma {:induction false} QuietTail(r: string)
    requires Quiet(r, 100)
    ensures Tail(r + "\n")
  {
    NewlineTail();
    if r != "" {
      CommentTail(r[2..] + "\n");
      assert r + "\n" == " ;" + (r[2..] + "\n");
    }
    hide Tokens, Tail;
    assert r == "" ==> r + "\n" == "" + "\n";
  }

  lemma {:induction false} RemarkTail(v: View, k: nat)
    requires v.Valid() && 2 * k + 1 < v.size
    ensures Tail(Remark(v, k) + "\n") && Quiet(Remark(v, k), 100)
  {
    hide OpAt, Statement, Top, Quiet;
    QuietLiterals();
    QuietWarning();
    QuietSum("", "");
    QuietNone();
    if !v.all && !v.reach[0x200 + 2 * k] {
      QuietSum(" ; data (unreachable)", "");
      assert " ; data (unreachable)" + "" == " ; data (unreachable)";
    } else {
      var first := if Statement(v.Op(k), v.leader).None? then " ; unrecognized opcode"
        else if Top(v.Op(k)) == 0xB then WARNING
        else "";
      QuietSum(first, if v.reach[0x200 + 2 * k] then "" else " ; unreachable");
    }
    QuietTail(Remark(v, k));
  }

  lemma QuietNone()
    ensures Quiet("", 20)
  {}

  lemma {:induction false} NewlineTail()
    ensures "" + "\n" == "\n" && Tail("\n")
  {
    TakeBlank('\n', "");
    assert ['\n'] + "" == "\n";
  }

  lemma {:induction false} CommentTail(rest: string)
    ensures Tail(" ;" + rest)
  {
    TakeBlank(' ', ";" + rest);
    MarkFirst(';', rest);
    assert " ;" + rest == [' '] + (";" + rest) && ";" + rest == [';'] + rest;
    hide Tokens;
  }

  lemma {:induction false} WordsPrintable(v: View, k: nat)
    requires v.Valid() && 2 * k + 1 < v.size
    ensures Printable(Words(v, k))
  {
    hide OpAt, Statement, Printable, RawWord;
    DataPrintable(v.Op(k), 0);
    if Statement(v.Op(k), v.leader).Some? { StatementPrintable(v.Op(k), v.leader); }
  }

  /** The tokens of a printed word are its words, upper-cased, whatever its
      comment. */
  lemma {:induction false} WordLineTokens(v: View, k: nat)
    requires v.Valid() && 2 * k + 1 < v.size
    ensures Tokens(WordLine(v, k)) == UpperAll(Words(v, k))
  {
    hide Words, Remark, Tail, Tokens, Render, UpperAll;
    WordsPrintable(v, k);
    RemarkTail(v, k);
    LineTokens(Words(v, k), Remark(v, k) + "\n");
    assert WordLine(v, k) == INDENT + Render(Words(v, k)) + (Remark(v, k) + "\n");
  }

  lemma {:induction false} WordEncodes(v: View, k: nat, pc: nat, m: Symbols, resolve: bool)
    requires v.Valid() && 2 * k + 1 < v.size && Resolves(m, v.leader, resolve)
    ensures !Labelled(UpperAll(Words(v, k)))
    ensures
      var r := Line(UpperAll(Words(v, k)), pc, m, resolve);
      r.Ok? && |r.value| == 2 && (resolve ==> r == Ok(BigEndian(v.Op(k))))
  {
    hide OpAt, Statement, Upper, Resolves, Instruction, RawWord;
    var op := v.Op(k);
    RawEncodes(op, pc, m, resolve);
    StatementEncodes(op, v.leader, m, resolve);
  }

  lemma {:induction false} RawEncodes(w: word, pc: nat, m: Symbols, resolve: bool)
    ensures !Labelled(UpperAll(RawWord(w))) && Line(UpperAll(RawWord(w)), pc, m, resolve) == Ok(BigEndian(w))
  {
    hide HexDigit, Number, Instruction, Org;
    HexTexts(0, 0, 0, w);
    UpperOperand(0, Hex4(w), 0);
    Upper2(".word", Literal(Hex4(w)));
    assert Upper(".word") == ".WORD";
    WordRoundTrip(w);
    DataOne(Capital(Hex4(w)), true, m, resolve);
    assert [".WORD", Capital(Hex4(w))][1..] == [Capital(Hex4(w))];
  }

  lemma {:induction false} ByteEncodes(b: byte, pc: nat, m: Symbols, resolve: bool)
    ensures Tokens(TrailingLine(b)) == UpperAll([".byte", Literal(Hex2(b))])
    ensures !Labelled(UpperAll([".byte", Literal(Hex2(b))]))
    ensures Line(UpperAll([".byte", Literal(Hex2(b))]), pc, m, resolve) == Ok([b])
  {
    hide HexDigit, Number, Instruction, Org, Tokens, Render;
    DataPrintable(0, b);
    NewlineTail();
    LineTokens([".byte", Literal(Hex2(b))], "\n");
    HexTexts(0, b, 0, 0);
    UpperOperand(0, Hex2(b), 0);
    Upper2(".byte", Literal(Hex2(b)));
    assert Upper(".byte") == ".BYTE";
    ByteRoundTrip(b);
    DataOne(Capital(Hex2(b)), false, m, resolve);
    assert [".BYTE", Capital(Hex2(b))][1..] == [Capital(Hex2(b))];
  }

  lemma {:induction false} DataOne(s: string, wide: bool, m: Symbols, resolve: bool)
    requires Number(s).Some? && Number(s).value <= if wide then 0xFFFF else 0xFF
    ensures Data([s], wide, m, resolve) == Ok(if wide then BigEndian(Number(s).value) else [Number(s).value])
  {
    hide Number;
    assert [s][1..] == [];
    assert Data([], wide, m, resolve) == Ok([]);
    var v: word := Number(s).value;
    assert Ranged(s, if wide then 0xFFFF else 0xFF, m, resolve) == Ok(v);
    assert BigEndian(v) + [] == BigEndian(v) && [v] + [] == [v];
  }

  /** A label line defines the label and takes no room. */
  lemma {:induction false} LabelTokens(a: address)
    ensures Tokens(LabelLine(a)) == [Name(a) + ":"]
    ensures IsName(Name(a))
  {
    hide HexDigit, Tokens;
    HexTexts(0, 0, a, 0);
    PlainHex(Hex3(a));
    WordThen(Label(a) + ":", "\n");
    assert LabelLine(a) == Label(a) + ":" + "\n";
    NewlineTail();
    UpperOperand(0, Hex3(a), a);
    assert Upper(Label(a) + ":") == Upper(Label(a)) + ":";
    DigitBack(a / 256);
    DigitBack(a / 16 % 16);
    DigitBack(a % 16);
  }

  // --------------------------------------------------------- the first pass

  /** Labels only where the printer puts one: on a word of the ROM or on its
      trailing byte (an empty ROM prints nothing at all). */
  ghost predicate WellLed(v: View)
    requires v.Valid()
  {
    forall a: address :: v.leader[a] && v.size > 0 ==> 0x200 <= a < 0x200 + v.size && a % 2 == 0
  }

  /** The symbol table holds exactly the labels below `hi`, at their own
      addresses. */
  ghost predicate MapIs(m: Symbols, leader: seq<bool>, hi: int)
    requires |leader| == 0x1000
  {
    && (forall a: address :: 0x200 <= a < hi && leader[a] ==> Name(a) in m && m[Name(a)] == a)
    && (forall s :: s in m ==> exists a: address :: 0x200 <= a < hi && leader[a] && s == Name(a))
  }

  lemma {:induction false} MapResolves(m: Symbols, v: View, hi: int, resolve: bool)
    requires v.Valid() && MapIs(m, v.leader, hi)
    requires resolve ==> WellLed(v) && 0 < v.size && 0x200 + v.size <= hi
    ensures Resolves(m, v.leader, resolve)
  {
    hide Name;
    forall a: address | v.leader[a] ensures if Name(a) in m then m[Name(a)] == a else !resolve {
      if Name(a) in m {
        var b: address :| 0x200 <= b < hi && v.leader[b] && Name(a) == Name(b);
        NameOnce(a, b);
      }
    }
  }

  lemma {:induction false} MapMore(m: Symbols, leader: seq<bool>, a: address)
    requires |leader| == 0x1000 && MapIs(m, leader, a) && a >= 0x200
    requires a + 1 < 0x1000 ==> !leader[a + 1]
    ensures !leader[a] ==> MapIs(m, leader, a + 2)
    ensures leader[a] ==> Name(a) !in m && MapIs(m[Name(a) := a], leader, a + 2)
  {
    hide Name;
    if leader[a] {
      if Name(a) in m {
        var b: address :| 0x200 <= b < a && leader[b] && Name(a) == Name(b);
        NameOnce(a, b);
        assert false;
      }
      MapUpdate(m, leader, a);
    }
  }

  lemma {:induction false} MapUpdate(m: Symbols, leader: seq<bool>, a: address)
    requires |leader| == 0x1000 && MapIs(m, leader, a) && a >= 0x200 && leader[a] && Name(a) !in m
    requires a + 1 < 0x1000 ==> !leader[a + 1]
    ensures MapIs(m[Name(a) := a], leader, a + 2)
  {
    hide Name;
    var n := m[Name(a) := a];
    forall b: address | 0x200 <= b < a + 2 && leader[b] ensures Name(b) in n && n[Name(b)] == b {
      assert b == a || b < a;
    }
    forall s | s in n ensures exists b: address :: 0x200 <= b < a + 2 && leader[b] && s == Name(b) {
      if s in m {
        var b: address :| 0x200 <= b < a && leader[b] && s == Name(b);
        assert b < a + 2;
      } else {
        assert s == Name(a);
      }
    }
  }

  lemma {:induction false} PassOneSnoc(lines: seq<string>, line: string)
    ensures PassOne(lines + [line]) == match PassOne(lines) case Ok(s) => StepOne(s, line) case Fail(e) => Fail(e)
  {
    assert (lines + [line])[..|lines|] == lines;
    hide StepOne;
  }

  lemma {:induction false} StepLabel(s: State, a: address)
    requires s.pc == a && Name(a) !in s.symbols && |s.symbols| < MAX_SYMBOLS
    ensures StepOne(s, LabelLine(a)) == Ok(State(s.symbols[Name(a) := a], a))
  {
    LabelTokens(a);
    hide LabelLine, Name, Tokens, IsName;
    var t := [Name(a) + ":"];
    assert LabelName(t) == Name(a);
    assert Unlabelled(t) == [];
  }

  /** A line without a label in the first pass. */
  lemma {:induction false} StepPlain(s: State, line: string, t: seq<string>)
    requires Tokens(line) == t && !Labelled(t) && |t| <= 4
    requires Line(t, s.pc, s.symbols, false).Ok? && s.pc + |Line(t, s.pc, s.symbols, false).value| <= MEMORY_SIZE
    ensures StepOne(s, line) == Ok(s.(pc := s.pc + |Line(t, s.pc, s.symbols, false).value|))
  {
    hide Tokens, Line;
  }

  /** The label, if any, that is printed before address `a`. */
  lemma {:induction false} LabelsPassOne(v: View, lines: seq<string>, a: address)
    requires v.Valid() && a >= 0x200 && (a + 1 < 0x1000 ==> !v.leader[a + 1])
    requires PassOne(lines).Ok? && PassOne(lines).value.pc == a
    requires MapIs(PassOne(lines).value.symbols, v.leader, a) && |PassOne(lines).value.symbols| < MAX_SYMBOLS
    ensures PassOne(lines + LabelLines(v, a)).Ok?
    ensures
      var s := PassOne(lines + LabelLines(v, a)).value;
      s.pc == a && MapIs(s.symbols, v.leader, a + 2) && |s.symbols| <= |PassOne(lines).value.symbols| + 1
  {
    hide PassOne, StepOne, MapIs, LabelLine, Name;
    var s := PassOne(lines).value;
    MapMore(s.symbols, v.leader, a);
    if v.leader[a] {
      PassOneSnoc(lines, LabelLine(a));
      StepLabel(s, a);
    } else {
      assert lines + LabelLines(v, a) == lines;
    }
  }

  /** After `k` printed words the first pass stands at word `k` and knows the
      labels before it. */
  lemma {:induction false} ListingPassOne(v: View, k: nat)
    requires v.Valid() && WellLed(v) && 2 * k <= v.size
    ensures PassOne(Listing(v, k)).Ok?
    ensures
      var s := PassOne(Listing(v, k)).value;
      s.pc == 0x200 + 2 * k && MapIs(s.symbols, v.leader, s.pc) && |s.symbols| <= k
  {
    hide PassOne, StepOne, MapIs, WordLine, LabelLines, Words, Line, Tokens, OpAt;
    if k == 0 {
      NothingYet(v);
    } else {
      ListingPassOne(v, k - 1);
      var a := 0x200 + 2 * (k - 1);
      var lines := Listing(v, k - 1) + LabelLines(v, a);
      LabelsPassOne(v, Listing(v, k - 1), a);
      var s := PassOne(lines).value;
      MapResolves(s.symbols, v, a + 2, false);
      WordLineTokens(v, k - 1);
      WordEncodes(v, k - 1, a, s.symbols, false);
      WordsPrintable(v, k - 1);
      StepPlain(s, WordLine(v, k - 1), UpperAll(Words(v, k - 1)));
      PassOneSnoc(lines, WordLine(v, k - 1));
    }
  }

  lemma {:induction false} NothingYet(v: View)
    requires v.Valid()
    ensures PassOne([]) == Ok(START) && MapIs(START.symbols, v.leader, 0x200) && START.pc == 0x200
  {}

  /** The first pass succeeds on the whole listing and knows every label. */
  lemma {:induction false} AllPassOne(v: View)
    requires v.Valid() && WellLed(v) && v.size > 0
    ensures PassOne(AllLines(v)).Ok? && Resolves(PassOne(AllLines(v)).value.symbols, v.leader, true)
  {
    hide PassOne, StepOne, MapIs, TrailingLine, LabelLines, Line, Tokens, OpAt, Resolves, Listing;
    var k := v.size / 2;
    ListingPassOne(v, k);
    if v.size % 2 == 0 {
      assert AllLines(v) == Listing(v, k);
      MapResolves(PassOne(AllLines(v)).value.symbols, v, 0x200 + v.size, true);
    } else {
      var a := 0x200 + v.size - 1;
      var lines := Listing(v, k) + LabelLines(v, a);
      LabelsPassOne(v, Listing(v, k), a);
      var s, b := PassOne(lines).value, TrailingByte(v);
      ByteEncodes(b, a, s.symbols, false);
      StepPlain(s, TrailingLine(b), UpperAll([".byte", Literal(Hex2(b))]));
      PassOneSnoc(lines, TrailingLine(b));
      assert AllLines(v) == lines + [TrailingLine(b)];
      MapResolves(s.symbols, v, a + 2, true);
    }
  }

  // -------------------------------------------------------- the second pass

  lemma {:induction false} PassTwoSnoc(m: Symbols, lines: seq<string>, line: string, out: seq<byte>, bytes: seq<byte>)
    requires PassTwo(m, lines) == Ok(out) && StepTwo(m, 0x200 + |out|, line) == Ok(bytes)
    ensures PassTwo(m, lines + [line]) == Ok(out + bytes)
  {
    hide StepTwo;
    var all := lines + [line];
    assert all[..|all| - 1] == lines && all[|all| - 1] == line;
  }

  lemma {:induction false} StepTwoPlain(m: Symbols, pc: nat, line: string, t: seq<string>)
    requires Tokens(line) == t && !Labelled(t) && |t| <= 4
    ensures StepTwo(m, pc, line) == Line(t, pc, m, true)
  {
    hide Tokens, Line;
  }

  lemma {:induction false} LabelsPassTwo(v: View, m: Symbols, lines: seq<string>, a: address)
    requires v.Valid() && PassTwo(m, lines).Ok?
    ensures PassTwo(m, lines + LabelLines(v, a)) == PassTwo(m, lines)
  {
    hide PassTwo, StepTwo, LabelLine;
    if v.leader[a] {
      StepTwoLabel(m, 0x200 + |PassTwo(m, lines).value|, a);
      PassTwoSnoc(m, lines, LabelLine(a), PassTwo(m, lines).value, []);
      assert PassTwo(m, lines).value + [] == PassTwo(m, lines).value;
    } else {
      assert lines + LabelLines(v, a) == lines;
    }
  }

  lemma {:induction false} StepTwoLabel(m: Symbols, pc: nat, a: address)
    ensures StepTwo(m, pc, LabelLine(a)) == Ok([])
  {
    LabelTokens(a);
    hide LabelLine, Name, Tokens, IsName;
    assert Unlabelled([Name(a) + ":"]) == [];
  }

  lemma {:induction false} WordBytes(v: View, k: nat)
    requires v.Valid() && 2 * k + 1 < v.size
    ensures v.mem[0x200..0x200 + 2 * k] + BigEndian(v.Op(k)) == v.mem[0x200..0x200 + 2 * (k + 1)]
  {
    var high: int, low: int := v.mem[0x200 + 2 * k], v.mem[0x200 + 2 * k + 1];
    assert Wrap(0x200 + 2 * k) == 0x200 + 2 * k && Wrap(0x200 + 2 * k + 1) == 0x200 + 2 * k + 1;
    assert v.Op(k) == high * 0x100 + low;
    assert BigEndian(v.Op(k)) == [high, low];
  }

  lemma {:induction false} StepTwoWord(v: View, m: Symbols, k: nat)
    requires v.Valid() && Resolves(m, v.leader, true) && 2 * k + 1 < v.size
    ensures StepTwo(m, 0x200 + 2 * k, WordLine(v, k)) == Ok(BigEndian(v.Op(k)))
  {
    hide StepTwo, WordLine, Words, Line, Tokens, OpAt, Resolves, BigEndian, UpperAll, Labelled;
    WordLineTokens(v, k);
    WordEncodes(v, k, 0x200 + 2 * k, m, true);
    WordsPrintable(v, k);
    assert |UpperAll(Words(v, k))| <= 4;
    StepTwoPlain(m, 0x200 + 2 * k, WordLine(v, k), UpperAll(Words(v, k)));
  }

  lemma {:induction false} ListingTwoMore(v: View, m: Symbols, k: nat)
    requires v.Valid() && Resolves(m, v.leader, true) && 2 * k + 1 < v.size
    requires PassTwo(m, Listing(v, k)) == Ok(v.mem[0x200..0x200 + 2 * k])
    ensures PassTwo(m, Listing(v, k) + LabelLines(v, 0x200 + 2 * k) + [WordLine(v, k)]) == Ok(v.mem[0x200..0x200 + 2 * (k + 1)])
  {
    hide PassTwo, StepTwo, WordLine, LabelLines, OpAt, Resolves, BigEndian, Listing;
    LabelsPassTwo(v, m, Listing(v, k), 0x200 + 2 * k);
    StepTwoWord(v, m, k);
    WordBytes(v, k);
    PassTwoSnoc(m, Listing(v, k) + LabelLines(v, 0x200 + 2 * k), WordLine(v, k), v.mem[0x200..0x200 + 2 * k], BigEndian(v.Op(k)));
  }

  lemma {:induction false} ListingPassTwo(v: View, m: Symbols, k: nat)
    requires v.Valid() && Resolves(m, v.leader, true) && 2 * k <= v.size
    ensures PassTwo(m, Listing(v, k)) == Ok(v.mem[0x200..0x200 + 2 * k])
  {
    hide PassTwo, WordLine, LabelLines, Resolves;
    if k == 0 {
      NothingOut(m);
      assert v.mem[0x200..0x200] == [];
    } else {
      ListingPassTwo(v, m, k - 1);
      ListingTwoMore(v, m, k - 1);
    }
  }

  lemma NothingOut(m: Symbols)
    ensures PassTwo(m, []) == Ok([])
  {}

  lemma {:induction false} AllPassTwo(v: View, m: Symbols)
    requires v.Valid() && Resolves(m, v.leader, true)
    ensures PassTwo(m, AllLines(v)) == Ok(v.mem[0x200..0x200 + v.size])
  {
    hide PassTwo, StepTwo, TrailingLine, LabelLines, Line, Tokens, OpAt, Resolves, Listing;
    var k := v.size / 2;
    ListingPassTwo(v, m, k);
    if v.size % 2 == 0 {
      assert AllLines(v) == Listing(v, k);
    } else {
      var a := 0x200 + v.size - 1;
      var lines := Listing(v, k) + LabelLines(v, a);
      LabelsPassTwo(v, m, Listing(v, k), a);
      var b := TrailingByte(v);
      ByteEncodes(b, a, m, true);
      StepTwoPlain(m, a, TrailingLine(b), UpperAll([".byte", Literal(Hex2(b))]));
      PassTwoSnoc(m, lines, TrailingLine(b), v.mem[0x200..a], [b]);
      assert AllLines(v) == lines + [TrailingLine(b)];
      assert v.mem[0x200..a] + [b] == v.mem[0x200..a + 1];
    }
  }

  // --------------------------------------------------------- the whole text

  lemma {:induction false} RenderWhole(ws: seq<string>, remark: string)
    requires Printable(ws) && Quiet(remark, 100)
    ensures Whole(INDENT + Render(ws) + remark + "\n")
  {
    RenderShort(ws);
    hide Render, Printable, Quiet;
    RemarkShort(remark);
    var s := INDENT + Render(ws) + remark;
    forall i | 0 <= i < |s| ensures s[i] != '\n' {
      assert i >= 8 + |Render(ws)| ==> s[i] == remark[i - 8 - |Render(ws)|];
      assert 8 <= i < 8 + |Render(ws)| ==> s[i] == Render(ws)[i - 8];
    }
  }

  lemma RemarkShort(remark: string)
    requires Quiet(remark, 100)
    ensures |remark| <= 100 && '\n' !in remark
  {}

  lemma {:induction false} PlainLine(w: string)
    requires Plain(w)
    ensures '\n' !in w
  {}

  lemma {:induction false} SeparatedShort(ws: seq<string>)
    requires AllPlain(ws) && forall i :: 0 <= i < |ws| ==> |ws[i]| <= 8
    ensures |Separated(ws)| <= 10 * |ws| && '\n' !in Separated(ws)
  {
    if ws != [] {
      PlainLine(ws[0]);
      SeparatedShort(ws[1..]);
    }
    hide Plain;
  }

  lemma {:induction false} RenderShort(ws: seq<string>)
    requires Printable(ws)
    ensures |Render(ws)| <= 100 && '\n' !in Render(ws)
  {
    PlainLine(ws[0]);
    if |ws| > 1 {
      PlainLine(ws[1]);
      SeparatedShort(ws[2..]);
    }
    hide Plain;
  }

  lemma {:induction false} LabelWhole(a: address)
    ensures Whole(LabelLine(a))
  {
    hide HexDigit;
    HexTexts(0, 0, a, 0);
    PlainHex(Hex3(a));
    PlainLine(Hex3(a));
  }

  lemma {:induction false} WordLineWhole(v: View, k: nat)
    requires v.Valid() && 2 * k + 1 < v.size
    ensures Whole(WordLine(v, k))
  {
    hide Words, Remark, Render, Whole, Printable, Quiet;
    WordsPrintable(v, k);
    RemarkTail(v, k);
    RenderWhole(Words(v, k), Remark(v, k));
  }

  ghost predicate AllWhole(lines: seq<string>)
  {
    forall i :: 0 <= i < |lines| ==> Whole(lines[i])
  }

  lemma {:induction false} WholeMore(lines: seq<string>, labels: seq<string>, line: string)
    requires AllWhole(lines) && AllWhole(labels) && Whole(line)
    ensures AllWhole(lines + labels + [line])
  {
    hide Whole;
  }

  lemma NoneWhole()
    ensures AllWhole([])
  {}

  lemma {:induction false} LabelsWhole(v: View, a: address)
    requires v.Valid()
    ensures AllWhole(LabelLines(v, a))
  {
    LabelWhole(a);
    hide Whole, LabelLine;
  }

  lemma {:induction false} ListingWhole(v: View, k: nat)
    requires v.Valid() && 2 * k <= v.size
    ensures AllWhole(Listing(v, k))
  {
    hide WordLine, LabelLines, AllWhole, Whole;
    if k == 0 {
      NoneWhole();
    } else {
      ListingWhole(v, k - 1);
      LabelsWhole(v, 0x200 + 2 * (k - 1));
      WordLineWhole(v, k - 1);
      WholeMore(Listing(v, k - 1), LabelLines(v, 0x200 + 2 * (k - 1)), WordLine(v, k - 1));
    }
  }

  lemma {:induction false} AllLinesWhole(v: View)
    requires v.Valid()
    ensures AllWhole(AllLines(v))
  {
    hide Listing, LabelLines, AllWhole, Whole, TrailingLine, TrailingByte;
    ListingWhole(v, v.size / 2);
    if v.size % 2 == 1 {
      LabelsWhole(v, 0x200 + v.size - 1);
      QuietWhole(TrailingByte(v));
      WholeMore(Listing(v, v.size / 2), LabelLines(v, 0x200 + v.size - 1), TrailingLine(TrailingByte(v)));
      assert Listing(v, v.size / 2) + (LabelLines(v, 0x200 + v.size - 1) + [TrailingLine(TrailingByte(v))])
          == Listing(v, v.size / 2) + LabelLines(v, 0x200 + v.size - 1) + [TrailingLine(TrailingByte(v))];
    } else {
      assert Listing(v, v.size / 2) + [] == Listing(v, v.size / 2);
    }
  }

  lemma {:induction false} QuietWhole(b: byte)
    ensures Whole(TrailingLine(b))
  {
    hide Render, Printable, HexDigit;
    DataPrintable(0, b);
    assert Quiet("", 100);
    RenderWhole([".byte", Literal(Hex2(b))], "");
    var s := INDENT + Render([".byte", Literal(Hex2(b))]);
    assert s + "" + "\n" == s + "\n";
  }

  /** Whatever the reachability analysis says: if labels sit where the printer
      puts them, the printed text assembles to the bytes it was printed from. */
  lemma {:induction false} PrintedAssembles(v: View)
    requires v.Valid() && WellLed(v)
    ensures Assemble(Flatten(AllLines(v))) == Ok(v.mem[0x200..0x200 + v.size])
  {
    hide PassOne, PassTwo, Flatten, Whole, Resolves, WellLed;
    AllLinesWhole(v);
    LinesOf(AllLines(v));
    if v.size == 0 {
      NoLines(v);
      assert v.mem[0x200..0x200] == [];
    } else {
      AllPassOne(v);
      AllPassTwo(v, PassOne(AllLines(v)).value.symbols);
    }
  }

  lemma {:induction false} NoLines(v: View)
    requires v.Valid() && v.size == 0
    ensures AllLines(v) == [] && PassOne([]) == Ok(START) && PassTwo(START.symbols, []) == Ok([])
  {}

  // -------------------------------------------------------- the disassembly

  /** The leader analysis only marks word addresses inside the ROM, and gluing
      adds none outside it. */
  lemma {:induction false} ViewWellLed(rom: Rom, all: bool)
    ensures WellLed(ViewOf(rom, all))
  {
    hide Leads, Reachable, Glued;
    var v := ViewOf(rom, all);
    var leader := seq(0x1000, a requires 0 <= a < 0x1000 => Leads(v.mem, v.size, a));
    forall a: address | v.leader[a] && v.size > 0 ensures 0x200 <= a < 0x200 + v.size && a % 2 == 0 {
      assert Glued(leader, v.reach, v.size, a);
      GluedInside(leader, v.reach, v.mem, v.size, a);
    }
  }

  lemma {:induction false} GluedInside(leader: seq<bool>, reach: seq<bool>, mem: Memory, size: nat, a: address)
    requires |leader| == |reach| == 0x1000 && size > 0 && leader[a] == Leads(mem, size, a)
    requires Glued(leader, reach, size, a)
    ensures 0x200 <= a < 0x200 + size && a % 2 == 0
  {
    if leader[a] { LeadsInside(mem, size, a); }
    hide Leads;
  }

  lemma {:induction false} LeadsInside(mem: Memory, size: nat, a: int)
    requires Leads(mem, size, a) && size > 0
    ensures 0x200 <= a < 0x200 + size && a % 2 == 0
  {
    hide OpAt, Top, NNN, N, KK;
  }

  /** The law of the pair of tools: for every ROM that fits, of any size, with
      dead words decoded or not, the assembler accepts the disassembler's output
      and returns the ROM, byte for byte. */
  lemma {:induction false} RoundTrip(rom: Rom, all: bool)
    ensures Assemble(Disassembly(rom, all)) == Ok(rom)
  {
    hide Assemble, AllLines, Flatten, WellLed;
    var v := ViewOf(rom, all);
    ViewWellLed(rom, all);
    PrintedAssembles(v);
    assert v.mem == Image(rom) && v.size == |rom|;
    assert Image(rom)[0x200..0x200 + |rom|] == rom;
  }
}
