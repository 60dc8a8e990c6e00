/** How the assembler reads the lines the disassembler prints: the tokens of a
    printed line, and the lines of the whole printed text. */
module Printed {
  import opened Chip8
  import opened Text
  import opened Asm
  import opened Disas
  import opened Tokenizing

  // ------------------------------------------------------- tokens of a line

  /** The end of a line, behind the last word: blank, then at most a comment. */
  ghost predicate Tail(t: string)
  {
    t != "" && Blank(t[0]) && Tokens(t) == []
  }

  ghost predicate AllPlain(ws: seq<string>)
  {
    forall i :: 0 <= i < |ws| ==> Plain(ws[i])
  }

  lemma {:induction false} SkipBlanks(blanks: string, s: string)
    requires forall i :: 0 <= i < |blanks| ==> Blank(blanks[i])
    ensures Tokens(blanks + s) == Tokens(s)
  {
    hide Tokens, Blank;
    if blanks == "" {
      assert blanks + s == s;
    } else {
      TakeBlank(blanks[0], blanks[1..] + s);
      assert blanks + s == [blanks[0]] + (blanks[1..] + s);
      SkipBlanks(blanks[1..], s);
    }
  }

  /** A word followed by text that starts with a blank. */
  lemma {:induction false} WordThen(w: string, s: string)
    requires Plain(w) && s != "" && Blank(s[0])
    ensures Tokens(w + s) == [Upper(w)] + Tokens(s)
  {
    hide Tokens, Blank;
    assert w + s == w + [s[0]] + s[1..];
    assert s == [s[0]] + s[1..];
    TakeWord(w, s[0], s[1..]);
    TakeBlank(s[0], s[1..]);
  }

  lemma {:induction false} UpperMore(w: string, ws: seq<string>)
    ensures UpperAll([w] + ws) == [Upper(w)] + UpperAll(ws) && UpperAll([]) == []
  {}

  lemma {:induction false} SeparatedTokens(ws: seq<string>, tail: string)
    requires AllPlain(ws) && Tail(tail)
    ensures Tokens(Separated(ws) + tail) == UpperAll(ws)
    ensures Separated(ws) + tail != "" && Blank((Separated(ws) + tail)[0])
  {
    hide Tokens, Plain, Upper, UpperAll;
    if ws == [] {
      assert Separated(ws) + tail == tail;
      UpperMore("", []);
    } else {
      var rest := Separated(ws[1..]) + tail;
      SeparatedTokens(ws[1..], tail);
      SeparatedWord(ws[0], rest);
      assert Separated(ws) + tail == ", " + (ws[0] + rest);
      UpperMore(ws[0], ws[1..]);
      assert ws == [ws[0]] + ws[1..];
    }
  }

  lemma {:induction false} SeparatedWord(w: string, rest: string)
    requires Plain(w) && rest != "" && Blank(rest[0])
    ensures Tokens(", " + (w + rest)) == [Upper(w)] + Tokens(rest)
  {
    hide Tokens, Plain, Upper;
    SkipBlanks(", ", w + rest);
    WordThen(w, rest);
  }

  lemma {:induction false} OneWord(w: string, tail: string)
    requires Plain(w) && Tail(tail)
    ensures Tokens(Render([w]) + tail) == UpperAll([w])
  {
    hide Tokens, Plain, Upper, UpperAll;
    WordThen(w, tail);
    UpperMore(w, []);
    assert [w] + [] == [w];
  }

  lemma {:induction false} MoreWords(w: string, x: string, ws: seq<string>, tail: string)
    requires Plain(w) && Plain(x) && AllPlain(ws) && Tail(tail)
    ensures Tokens(w + (" " + (x + (Separated(ws) + tail)))) == UpperAll([w] + ([x] + ws))
  {
    hide Tokens, Plain, Upper, UpperAll, Separated;
    var rest := Separated(ws) + tail;
    SeparatedTokens(ws, tail);
    WordThen(x, rest);
    SkipBlanks(" ", x + rest);
    WordThen(w, " " + (x + rest));
    UpperMore(x, ws);
    UpperMore(w, [x] + ws);
  }

  lemma {:induction false} RenderTokens(ws: seq<string>, tail: string)
    requires ws != [] && AllPlain(ws) && Tail(tail)
    ensures Tokens(Render(ws) + tail) == UpperAll(ws)
  {
    hide Tokens, Plain, Upper, UpperAll, Separated, Tail;
    if |ws| == 1 {
      OneWord(ws[0], tail);
      assert ws == [ws[0]];
    } else {
      MoreWords(ws[0], ws[1], ws[2..], tail);
      RenderMore(ws, tail);
    }
  }

  lemma RenderMore(ws: seq<string>, tail: string)
    requires |ws| > 1
    ensures Render(ws) + tail == ws[0] + (" " + (ws[1] + (Separated(ws[2..]) + tail)))
    ensures ws == [ws[0]] + ([ws[1]] + ws[2..])
  {
    hide Separated;
  }

  /** The tokens of a printed line are its words, upper-cased; its comment adds
      none. */
  lemma {:induction false} LineTokens(ws: seq<string>, tail: string)
    requires ws != [] && AllPlain(ws) && Tail(tail)
    ensures Tokens(INDENT + Render(ws) + tail) == UpperAll(ws)
  {
    hide Tokens, Plain, Upper, UpperAll, Render, Tail;
    RenderTokens(ws, tail);
    SkipBlanks(INDENT, Render(ws) + tail);
    assert INDENT + Render(ws) + tail == INDENT + (Render(ws) + tail);
  }

  // ------------------------------------------------------ lines of the text

  /** A line that one fgets call takes, and takes whole. */
  ghost predicate Whole(line: string)
  {
    && 0 < |line| < MAX_LINE
    && line[|line| - 1] == '\n'
    && forall i :: 0 <= i < |line| - 1 ==> line[i] != '\n'
  }

  lemma {:induction false} FgetsLine(line: string, rest: string, room: nat)
    requires 0 < |line| <= room && line[|line| - 1] == '\n'
    requires forall i :: 0 <= i < |line| - 1 ==> line[i] != '\n'
    ensures FgetsLength(line + rest, room) == |line|
  {
    assert (line + rest)[0] == line[0];
    if |line| > 1 {
      FgetsLine(line[1..], rest, room - 1);
      assert (line + rest)[1..] == line[1..] + rest;
    }
  }

  lemma {:induction false} LinesOf(lines: seq<string>)
    requires forall i :: 0 <= i < |lines| ==> Whole(lines[i])
    ensures Lines(Flatten(lines)) == lines
  {
    FlattenFew("");
    if lines != [] {
      FlattenFew(lines[0]);
      FlattenMore([lines[0]], lines[1..]);
      assert [lines[0]] + lines[1..] == lines;
      LinesOf(lines[1..]);
      FgetsLine(lines[0], Flatten(lines[1..]), MAX_LINE - 1);
      var text := lines[0] + Flatten(lines[1..]);
      assert text[..|lines[0]|] == lines[0] && text[|lines[0]|..] == Flatten(lines[1..]);
    }
    hide Flatten, FgetsLength;
  }
}
