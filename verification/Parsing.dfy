/** How the optimizer reads a source text, and when it lays it out as the assembler
    does: the tokens of a line, the size of a statement, the first pass. */
module Parsing {
  import opened Chip8
  import opened Text
  import opened Numbers
  import opened Tokenizing
  import Asm

  // ------------------------------------------------------------ the tokens

  /** What str.split takes for white space, of the ASCII characters. */
  predicate PySpace(c: char) { IsSpace(c) || '\U{1c}' <= c <= '\U{1f}' }

  predicate PyBlank(c: char) { PySpace(c) || c == ',' }

  function PyLength(s: string): (n: nat)
    ensures n <= |s| && (s != "" && !PyBlank(s[0]) ==> n > 0)
  {
    if s == "" || PyBlank(s[0]) then 0 else 1 + PyLength(s[1..])
  }

  /** The words between blanks and commas, in upper case. */
  function PyWords(s: string): seq<string>
    decreases |s|
  {
    if s == "" then []
    else if PyBlank(s[0]) then PyWords(s[1..])
    else [Upper(s[..PyLength(s)])] + PyWords(s[PyLength(s)..])
  }

  /** The text before the first mark. */
  function Cut(s: string, mark: char): (r: string)
    ensures r <= s && mark !in r && (|r| < |s| ==> s[|r|] == mark)
  {
    if s == "" || s[0] == mark then "" else [s[0]] + Cut(s[1..], mark)
  }

  /** tokens, with the words upper-cased, as its caller does. */
  function PyTokens(line: string): seq<string>
  {
    PyWords(Cut(Cut(line, ';'), '#'))
  }

  /** ASCII characters that mean the same to both. */
  predicate Shared(line: string)
  {
    forall i :: 0 <= i < |line| ==> '\0' < line[i] < '\U{80}' && (PySpace(line[i]) <==> IsSpace(line[i]))
  }

  lemma {:induction false} SameLength(s: string)
    requires Shared(s) && NoComment(s)
    ensures Asm.WordLength(s) == PyLength(s)
  {
    if s != "" {
      assert Asm.Delimits(s[0]) == PyBlank(s[0]);
      SameLength(s[1..]);
    }
  }

  lemma {:induction false} PyAfter(s: string)
    requires s != "" && PyBlank(s[0])
    ensures PyWords(s) == PyWords(s[1..])
  {}

  /** Without a mark both find the same words. */
  lemma {:induction false} WordsAgree(s: string)
    requires Shared(s) && NoComment(s)
    ensures PyWords(s) == Asm.Tokens(s)
    decreases |s|
  {
    if s != "" {
      if PyBlank(s[0]) {
        WordsAgree(s[1..]);
      } else {
        var n := PyLength(s);
        SameLength(s);
        LengthEnds(s);
        WordsAgree(Asm.AfterWord(s, n));
        if n < |s| { PyAfter(s[n..]); }
      }
    }
    hide Upper, PyLength, Asm.WordLength;
  }

  lemma {:induction false} LengthEnds(s: string)
    ensures PyLength(s) < |s| ==> PyBlank(s[PyLength(s)])
  {
    if s != "" && !PyBlank(s[0]) { LengthEnds(s[1..]); }
  }

  /** The text before the first mark of either kind. */
  function Before(line: string): string { Cut(Cut(line, ';'), '#') }

  lemma {:induction false} FirstMark(line: string)
    requires Shared(line)
    ensures Before(line) <= line && NoComment(Before(line)) && Shared(Before(line))
    ensures |Before(line)| < |line| ==> Asm.Comment(line[|Before(line)|])
  {}

  /** What the assembler would read behind the first mark. */
  function Behind(line: string): string
  {
    if |Before(line)| < |line| then line[|Before(line)| + 1..] else ""
  }

  /** Both find the same words in a line exactly when the first comment mark does
      not touch a word, or nothing but blanks and comments follow it. */
  lemma {:induction false} TokensAgree(line: string)
    requires Shared(line)
    ensures PyTokens(line) == Asm.Tokens(line) <==> BetweenTokens(Before(line)) || Asm.Tokens(Behind(line)) == []
  {
    FirstMark(line);
    var a := Before(line);
    WordsAgree(a);
    hide Asm.Tokens, PyWords, Cut, BetweenTokens, Shared, NoComment;
    if |a| < |line| {
      var mark, rest := line[|a|], line[|a| + 1..];
      assert line == a + [mark] + rest;
      CommentIgnored(a, mark, rest);
    } else {
      assert line == a && Asm.Tokens("") == [] by { NoTokens(); }
    }
  }

  lemma NoTokens()
    ensures Asm.Tokens("") == []
  {}

  lemma {:induction false} CutAt(a: string, mark: char, rest: string)
    requires mark !in a
    ensures Cut(a + [mark] + rest, mark) == a && Cut(a, mark) == a
  {
    if a != "" {
      assert (a + [mark] + rest)[1..] == a[1..] + [mark] + rest;
      CutAt(a[1..], mark, rest);
    }
  }

  /** A comment that touches the last value: a byte to the optimizer, two to the
      assembler. */
  lemma {:induction false} ByteTaken()
    ensures PyTokens(".byte 1;2") == [".BYTE", "1"] && Asm.Tokens(".byte 1;2") == [".BYTE", "1", "2"]
  {
    hide Asm.Tokens, PyWords, Cut, Upper;
    var a := ".byte 1";
    assert ".byte 1;2" == a + [';'] + "2";
    ByteWords();
    CommentAt(a, ';', "2");
    OneToken("2");
    DigitsUpper();
    CutAt(a, ';', "2");
    CutAt(a, '#', "");
    WordsAgree(a);
  }

  lemma {:induction false} ByteWords()
    ensures Asm.Tokens(".byte 1") == [".BYTE", "1"]
  {
    hide Asm.Tokens, Upper;
    assert ".byte" + [' '] + "1" == ".byte 1";
    TakeWord(".byte", ' ', "1");
    OneToken("1");
    DigitsUpper();
  }

  lemma DigitsUpper()
    ensures Upper("1") == "1" && Upper("2") == "2" && Upper(".byte") == ".BYTE"
  {}

  // ------------------------------------------------------------ the layout

  /** The labels and the address parse_source has come to. */
  datatype PyState = PyState(labels: map<string, int>, pc: int)

  /** The size of a statement; None is an exception. */
  function PySize(t: seq<string>, pc: int): Option<int>
  {
    if t == [] then Some(0)
    else if t[0] == ".ORG" then
      if |t| != 2 then None
      else match ParseNumber(t[1])
        case None => None
        case Some(v) => if v < pc || v < ENTRYPOINT || v >= 0x1000 then None else Some(v - pc)
    else if t[0] == ".BYTE" then Some(|t| - 1)
    else if t[0] == ".WORD" then Some(2 * (|t| - 1))
    else Some(2)
  }

  /** One turn of the loop of parse_source. */
  function PyStep(s: PyState, line: string): Option<PyState>
  {
    var t := PyTokens(line);
    if Asm.Labelled(t) && (Asm.LabelName(t) == "" || Asm.LabelName(t) in s.labels) then None
    else
      var labels := if Asm.Labelled(t) then s.labels[Asm.LabelName(t) := s.pc] else s.labels;
      match PySize(Asm.Unlabelled(t), s.pc)
      case None => None
      case Some(n) => if s.pc + n > 0x1000 then None else Some(PyState(labels, s.pc + n))
  }

  function PyLines(lines: seq<string>): Option<PyState>
  {
    if lines == [] then Some(PyState(map[], ENTRYPOINT))
    else match PyLines(lines[..|lines| - 1])
      case None => None
      case Some(s) => PyStep(s, lines[|lines| - 1])
  }

  /** The words of the line are the assembler's. */
  predicate SameWords(line: string)
  {
    Shared(line) && (BetweenTokens(Before(line)) || Asm.Tokens(Behind(line)) == [])
  }

  /** The words of a directive .org name the address by a plain number. */
  predicate PlainOrg(t: seq<string>)
  {
    |t| == 2 && t[0] == ".ORG" ==> Number(t[1]).Some? && PlainNumber(t[1])
  }

  /** An accepted statement has the size the optimizer gives it exactly when the
      address of an .org is a plain number. */
  lemma {:induction false} SizesAgree(t: seq<string>, pc: word, symbols: Asm.Symbols)
    requires WellNamed(symbols) && Asm.Line(t, pc, symbols, false).Ok?
    ensures PySize(t, pc) == Some(|Asm.Line(t, pc, symbols, false).value|) <==> PlainOrg(t)
  {
    hide Asm.Data, Asm.Instruction, Number, ParseNumber, PlainNumber, Asm.IsName;
    if t != [] && t[0] == ".ORG" {
      OrgValue(t[1], symbols);
    }
  }

  /** A label is no number to the optimizer. */
  lemma {:induction false} OrgValue(w: string, symbols: Asm.Symbols)
    requires WellNamed(symbols) && Asm.Value(w, symbols, false).Ok? && Asm.Value(w, symbols, false).value > 0
    ensures ParseNumber(w) == Some(Asm.Value(w, symbols, false).value as int) <==> Number(w).Some? && PlainNumber(w)
  {
    hide Number, ParseNumber, PlainNumber, Asm.IsName;
    if Number(w).Some? { NumbersAgree(w); } else if w in symbols { NameNoNumber(w); }
  }

  ghost predicate SameState(s: Asm.State, t: PyState)
  {
    t.pc == s.pc as int && t.labels.Keys == s.symbols.Keys && forall l :: l in s.symbols ==> t.labels[l] == s.symbols[l] as int
  }

  /** A line the assembler's first pass accepts: the optimizer accepts it too, with
      the same size and label, exactly when an .org in it is plain. */
  lemma {:induction false} LineAgrees(s: Asm.State, t: PyState, line: string)
    requires SameState(s, t) && WellNamed(s.symbols) && Asm.StepOne(s, line).Ok? && SameWords(line)
    ensures WellNamed(Asm.StepOne(s, line).value.symbols)
    ensures
      (PyStep(t, line).Some? && SameState(Asm.StepOne(s, line).value, PyStep(t, line).value)) <==> PlainOrg(Asm.Unlabelled(Asm.Tokens(line)))
  {
    hide Asm.Tokens, PyWords, Cut, Asm.Line, PySize, Shared, PlainOrg, Asm.IsName, BetweenTokens;
    TokensAgree(line);
    var w := Asm.Tokens(line);
    var symbols := if Asm.Labelled(w) then s.symbols[Asm.LabelName(w) := s.pc] else s.symbols;
    if Asm.Labelled(w) { NameNonempty(Asm.LabelName(w)); }
    SizesAgree(Asm.Unlabelled(w), s.pc, symbols);
  }

  lemma NameNonempty(w: string)
    ensures Asm.IsName(w) ==> w != ""
  {}

  /** The layout of a source the first pass accepts is the optimizer's, with the same
      labels, if in no line a comment mark hides words from one of the two, and every
      .org is plain. */
  lemma {:induction false} LayoutAgrees(lines: seq<string>)
    requires Asm.PassOne(lines).Ok?
    requires forall i :: 0 <= i < |lines| ==> SameWords(lines[i]) && PlainOrg(Asm.Unlabelled(Asm.Tokens(lines[i])))
    ensures PyLines(lines).Some? && SameState(Asm.PassOne(lines).value, PyLines(lines).value)
    ensures WellNamed(Asm.PassOne(lines).value.symbols)
  {
    hide Asm.StepOne, PyStep, SameWords, PlainOrg, Asm.Tokens, Asm.IsName;
    if lines != [] {
      var front, last := lines[..|lines| - 1], lines[|lines| - 1];
      LayoutAgrees(front);
      LineAgrees(Asm.PassOne(front).value, PyLines(front).value, last);
    }
  }
}
