/** What the tokenizer makes of a line: words separated by blanks, and where a
    comment is recognised. */
module Tokenizing {
  import opened Text
  import opened Asm

  lemma {:induction false} WordLengthIs(s: string, k: nat)
    requires k <= |s| && (k < |s| ==> Delimits(s[k]))
    requires forall i :: 0 <= i < k ==> !Delimits(s[i])
    ensures WordLength(s) == k
  {
    if k > 0 {
      forall i | 0 <= i < k - 1 ensures !Delimits(s[1..][i]) {
        assert s[1..][i] == s[i + 1];
      }
      WordLengthIs(s[1..], k - 1);
    }
    hide Delimits;
  }

  /** A printable operand or mnemonic: something one token can hold. */
  ghost predicate Plain(w: string)
  {
    w != "" && forall i :: 0 <= i < |w| ==> !Delimits(w[i])
  }

  lemma {:induction false} TakeBlank(c: char, rest: string)
    requires Blank(c)
    ensures Tokens([c] + rest) == Tokens(rest)
  {
    assert ([c] + rest)[1..] == rest;
  }

  lemma {:induction false} TakeWord(w: string, c: char, rest: string)
    requires Plain(w) && Blank(c)
    ensures Tokens(w + [c] + rest) == [Upper(w)] + Tokens(rest)
  {
    var s := w + [c] + rest;
    WordLengthIs(s, |w|);
    assert s[..|w|] == w && s[|w| + 1..] == rest;
    assert s[0] == w[0];
  }

  // --------------------------------------------------------------- comments

  ghost predicate NoComment(a: string)
  {
    forall i :: 0 <= i < |a| ==> !Comment(a[i]) && a[i] != '\0'
  }

  /** Whether a mark placed after `a` finds the tokenizer between two tokens. */
  predicate BetweenTokens(a: string)
  {
    a == "" || Blank(a[|a| - 1])
  }

  lemma {:induction false} CommentAtBlank(a: string, mark: char, rest: string)
    requires a != "" && Blank(a[0])
    ensures Tokens(a) == Tokens(a[1..]) && Tokens(a + [mark] + rest) == Tokens(a[1..] + [mark] + rest)
    ensures a[1..] != "" ==> BetweenTokens(a[1..]) == BetweenTokens(a)
    ensures a[1..] == "" ==> BetweenTokens(a)
  {
    assert (a + [mark] + rest)[1..] == a[1..] + [mark] + rest;
  }

  lemma {:induction false} CommentAtWord(a: string, k: nat, mark: char, rest: string)
    requires NoComment(a) && Comment(mark) && a != "" && !Blank(a[0])
    requires k == WordLength(a)
    ensures 0 < k <= |a|
    ensures k == |a| ==> !BetweenTokens(a) && Tokens(a) == [Upper(a)] && Tokens(a + [mark] + rest) == [Upper(a)] + Tokens(rest)
    ensures k < |a| ==> Blank(a[k])
    ensures k < |a| ==>
      && Tokens(a) == [Upper(a[..k])] + Tokens(a[k + 1..])
      && Tokens(a + [mark] + rest) == [Upper(a[..k])] + Tokens(a[k + 1..] + [mark] + rest)
  {
    var s := a + [mark] + rest;
    assert s[0] == a[0];
    WordLengthIs(s, k);
    assert s[..k] == a[..k];
    if k == |a| {
      assert s[k + 1..] == rest && a[..k] == a;
    } else {
      assert s[k + 1..] == a[k + 1..] + [mark] + rest;
    }
  }

  /** A comment mark is only seen between tokens: one that ends a token is
      overwritten like any other delimiter, and the text behind it is read. */
  lemma {:induction false} CommentAt(a: string, mark: char, rest: string)
    requires NoComment(a) && Comment(mark)
    ensures Tokens(a + [mark] + rest) == Tokens(a) + if BetweenTokens(a) then [] else Tokens(rest)
    decreases |a|
  {
    hide Tokens, Blank, Comment, BetweenTokens, WordLength;
    if a == "" {
      MarkFirst(mark, rest);
      assert a + [mark] + rest == [mark] + rest;
    } else if Blank(a[0]) {
      CommentAtBlank(a, mark, rest);
      CommentAt(a[1..], mark, rest);
      MarkFirst(mark, rest);
    } else {
      var k := WordLength(a);
      CommentAtWord(a, k, mark, rest);
      if k < |a| {
        CommentAt(a[k + 1..], mark, rest);
        MarkFirst(mark, rest);
        CommentAtEnd(a, k);
        var tail := if BetweenTokens(a) then [] else Tokens(rest);
        assert [Upper(a[..k])] + (Tokens(a[k + 1..]) + tail) == [Upper(a[..k])] + Tokens(a[k + 1..]) + tail;
      }
    }
  }

  lemma {:induction false} CommentAtEnd(a: string, k: nat)
    requires k < |a| && Blank(a[k])
    ensures BetweenTokens(a[k + 1..]) == BetweenTokens(a)
  {}

  lemma {:induction false} MarkFirst(mark: char, rest: string)
    requires Comment(mark)
    ensures Tokens([mark] + rest) == [] && Tokens("") == [] && BetweenTokens("")
  {
    assert ([mark] + rest)[0] == mark;
  }

  /** The documented rule, that `;` and `#` start comments, holds exactly when
      the mark does not end a token or nothing but blanks and comments follow. */
  lemma {:induction false} CommentIgnored(a: string, mark: char, rest: string)
    requires NoComment(a) && Comment(mark)
    ensures Tokens(a + [mark] + rest) == Tokens(a) <==> BetweenTokens(a) || Tokens(rest) == []
  {
    CommentAt(a, mark, rest);
    hide Tokens;
    assert Tokens(rest) != [] ==> |Tokens(a) + Tokens(rest)| > |Tokens(a)|;
  }

  /** A comment that touches the mnemonic is read as an operand, and the line
      is rejected. */
  lemma {:induction false} CommentTaken()
    ensures Tokens("CLS;x") == ["CLS", "X"] && Tokens("CLS ;x") == ["CLS"]
    ensures forall pc, symbols, resolve :: Line(["CLS", "X"], pc, symbols, resolve) == Fail(OperandCount)
  {
    hide Tokens;
    CommentAt("CLS", ';', "x");
    assert "CLS" + [';'] + "x" == "CLS;x";
    CommentAt("CLS ", ';', "x");
    assert "CLS " + [';'] + "x" == "CLS ;x";
    TakeWord("CLS", ' ', "");
    assert "CLS" + [' '] + "" == "CLS ";
    MarkFirst(';', "");
    OneToken("CLS");
    OneToken("x");
    assert Upper("CLS") == "CLS" && Upper("x") == "X";
  }

  lemma {:induction false} OneToken(w: string)
    requires Plain(w)
    ensures Tokens(w) == [Upper(w)]
  {
    WordLengthIs(w, |w|);
    assert w[..|w|] == w;
  }
}
