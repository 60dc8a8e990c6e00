/** The assembler in its own form: a symbol table and a location counter updated
    line by line, twice over the same text. */
module AsmEngine {
  import opened Chip8
  import opened Text
  import opened Asm
  import opened TwoPass
  import opened Output

  class Assembler {
    var symbols: Symbols
    var pc: word

    constructor ()
      ensures State(symbols, pc) == START
    {
      symbols, pc := map[], ENTRYPOINT;
    }

    static method WordEnd(line: string, start: nat) returns (p: nat)
      requires start <= |line|
      ensures start <= p <= |line| && p - start == WordLength(line[start..])
    {
      p := start;
      while p < |line| && !Delimits(line[p])
        invariant start <= p <= |line|
        invariant WordLength(line[start..]) == p - start + WordLength(line[p..])
      {
        assert line[p..][1..] == line[p + 1..];
        p := p + 1;
      }
    }

    /** tokenize: split at blanks, overwriting the delimiter of each token, and
        upper-case every token. */
    static method SplitLine(line: string) returns (r: Result<seq<string>>)
      ensures r == Tokenize(line)
    {
      hide Tokens, Blank, Comment, WordLength;
      var tokens: seq<string> := [];
      var p := 0;
      assert line[0..] == line;
      while p < |line| && line[p] != '\0' && !Comment(line[p])
        invariant p <= |line| && |tokens| <= MAX_TOKENS
        invariant Tokens(line) == tokens + Tokens(line[p..])
      {
        NextToken(line, p);
        if Blank(line[p]) {
          p := p + 1;
        } else {
          if |tokens| == MAX_TOKENS {
            return Fail(TooManyTokens);
          }
          var end := WordEnd(line, p);
          tokens := tokens + [Upper(line[p..end])];
          p := if end < |line| && line[end] != '\0' then end + 1 else end;
        }
      }
      LastToken(line, p);
      assert tokens + [] == tokens;
      return Ok(tokens);
    }

    method DefineLabel(name: string) returns (failed: Result<()>)
      modifies this`symbols
      ensures match Define(old(symbols), name, pc)
        case Ok(s) => failed.Ok? && symbols == s
        case Fail(e) => failed == Fail(e) && symbols == old(symbols)
    {
      if !IsName(name) {
        return Fail(InvalidLabel);
      }
      if name in symbols {
        return Fail(DuplicateLabel);
      }
      if |symbols| == MAX_SYMBOLS {
        return Fail(TooManyLabels);
      }
      symbols := symbols[name := pc];
      return Ok(());
    }

    /** One line of the first pass. */
    method ScanLine(line: string) returns (failed: Result<()>)
      modifies this
      ensures match StepOne(State(old(symbols), old(pc)), line)
        case Ok(s) => failed.Ok? && State(symbols, pc) == s
        case Fail(e) => failed == Fail(e)
    {
      hide Define, Line, Tokenize;
      var t :- SplitLine(line);
      if Labelled(t) {
        var _ :- DefineLabel(LabelName(t));
        t := t[1..];
      }
      var bytes :- Line(t, pc, symbols, false);
      if pc + |bytes| > MEMORY_SIZE {
        return Fail(ProgramTooLarge);
      }
      pc := pc + |bytes|;
      return Ok(());
    }

    /** The first pass: every label gets the address of its line. */
    method FirstPass(text: string) returns (failed: Result<()>)
      requires State(symbols, pc) == START
      modifies this
      ensures match PassOne(Lines(text))
        case Ok(s) => failed.Ok? && State(symbols, pc) == s
        case Fail(e) => failed == Fail(e)
    {
      hide StepOne, FgetsLength;
      var rest := text;
      ghost var before: seq<string> := [];
      while rest != ""
        invariant Lines(text) == before + Lines(rest)
        invariant PassOne(before) == Ok(State(symbols, pc))
        decreases |rest|
      {
        var n := FgetsLength(rest, MAX_LINE - 1);
        ghost var now := before + [rest[..n]];
        assert now[..|before|] == before;
        assert Lines(text) == now + Lines(rest[n..]);
        PassOneFails(now, Lines(rest[n..]));
        var _ :- ScanLine(rest[..n]);
        before, rest := now, rest[n..];
      }
      assert Lines(text) == before;
      return Ok(());
    }

    /** The second pass: the bytes of every line, with all labels known. */
    method SecondPass(text: string) returns (r: Result<seq<byte>>)
      modifies this`pc
      requires PassOne(Lines(text)).Ok? && symbols == PassOne(Lines(text)).value.symbols
      ensures r == PassTwo(symbols, Lines(text))
    {
      hide StepTwo, FgetsLength, PassOne;
      var out: seq<byte> := [];
      var rest := text;
      ghost var before: seq<string> := [];
      pc := ENTRYPOINT;
      while rest != ""
        invariant Lines(text) == before + Lines(rest)
        invariant PassTwo(symbols, before) == Ok(out)
        invariant pc == 0x200 + |out|
        decreases |rest|
      {
        var n := FgetsLength(rest, MAX_LINE - 1);
        ghost var now := before + [rest[..n]];
        assert now[..|before|] == before;
        assert Lines(text) == now + Lines(rest[n..]);
        PassTwoFails(symbols, now, Lines(rest[n..]));
        InStep(Lines(text), now);
        var bytes :- EmitLine(rest[..n]);
        out := out + bytes;
        pc := pc + |bytes|;
        before, rest := now, rest[n..];
      }
      assert Lines(text) == before;
      return Ok(out);
    }

    /** The values of a `.byte` or `.word` line, one after the other. */
    method EmitList(t: seq<string>, wide: bool) returns (r: Result<seq<byte>>)
      requires t != []
      ensures r == Data(t[1..], wide, symbols, true)
    {
      hide Ranged, Data, Behind;
      var out: seq<byte> := [];
      NoneBefore(Data(t[1..], wide, symbols, true));
      for i := 1 to |t|
        invariant Data(t[1..], wide, symbols, true) == Behind(out, Data(t[i..], wide, symbols, true))
      {
        ListStep(t, i, wide, symbols, out);
        var v :- Ranged(t[i], if wide then 0xFFFF else 0xFF, symbols, true);
        out := out + if wide then [v / 0x100, v % 0x100] else [v];
      }
      ListEnd(t, wide, symbols, out);
      return Ok(out);
    }

    /** line_size with an output buffer, and the zeros of an .org. */
    method EmitLine(line: string) returns (r: Result<seq<byte>>)
      ensures r == StepTwo(symbols, pc, line)
      ensures r.Ok? ==> Spells(Unlabelled(Tokens(line)), pc, symbols, r.value)
    {
      hide Data, Org, Instruction, Tokenize, Spells;
      var t :- SplitLine(line);
      if Labelled(t) {
        t := t[1..];
      }
      assert t == Unlabelled(Tokens(line)) by { TokenizeIs(line); }
      if t != [] && t[0] in {".BYTE", ".WORD"} {
        if |t| < 2 {
          return Fail(NeedsValue);
        }
        r := EmitList(t, t[0] == ".WORD");
      } else {
        r := Line(t, pc, symbols, true);
      }
      if r.Ok? { LineSpelled(t, pc, symbols); }
    }

    method AssembleText(text: string) returns (r: Result<seq<byte>>)
      requires State(symbols, pc) == START
      modifies this
      ensures r == Assemble(text)
      ensures r.Ok? ==> Spelled(text, r.value)
    {
      hide PassOne, PassTwo, Spelled;
      var _ :- FirstPass(text);
      r := SecondPass(text);
      if r.Ok? { AssembledSpelled(text); }
    }
  }

  /** `r` with the bytes that were there before it. */
  function Behind(out: seq<byte>, r: Result<seq<byte>>): Result<seq<byte>>
  {
    match r case Ok(rest) => Ok(out + rest) case Fail(e) => Fail(e)
  }

  lemma NoneBefore(r: Result<seq<byte>>)
    ensures Behind([], r) == r
  {
    if r.Ok? { assert [] + r.value == r.value; }
  }

  lemma {:induction false} ListStep(t: seq<string>, i: nat, wide: bool, symbols: Symbols, out: seq<byte>)
    requires 0 < i < |t|
    ensures
      var v := Ranged(t[i], if wide then 0xFFFF else 0xFF, symbols, true);
      match v
      case Fail(e) => Behind(out, Data(t[i..], wide, symbols, true)) == Fail(e)
      case Ok(w) =>
        Behind(out, Data(t[i..], wide, symbols, true))
        == Behind(out + (if wide then [w / 0x100, w % 0x100] else [w]), Data(t[i + 1..], wide, symbols, true))
  {
    hide Ranged;
    assert t[i..][0] == t[i] && t[i..][1..] == t[i + 1..];
    var v, rest := Ranged(t[i], if wide then 0xFFFF else 0xFF, symbols, true), Data(t[i + 1..], wide, symbols, true);
    if v.Ok? && rest.Ok? {
      var bytes: seq<byte> := if wide then [v.value / 0x100, v.value % 0x100] else [v.value];
      assert Data(t[i..], wide, symbols, true) == Ok(bytes + rest.value);
      assert out + (bytes + rest.value) == out + bytes + rest.value;
    }
  }

  lemma ListEnd(t: seq<string>, wide: bool, symbols: Symbols, out: seq<byte>)
    requires t != []
    ensures Behind(out, Data(t[|t|..], wide, symbols, true)) == Ok(out)
  {
    assert t[|t|..] == [] && out + [] == out;
  }

  lemma TokenizeIs(line: string)
    ensures Tokenize(line).Ok? ==> Tokenize(line).value == Tokens(line)
  {}

  lemma {:induction false} NextToken(line: string, p: nat)
    requires p < |line| && line[p] != '\0' && !Comment(line[p])
    ensures Blank(line[p]) ==> Tokens(line[p..]) == Tokens(line[p + 1..])
    ensures !Blank(line[p]) ==>
      var end := p + WordLength(line[p..]);
      && p < end <= |line|
      && Tokens(line[p..]) == [Upper(line[p..end])] + Tokens(line[if end < |line| && line[end] != '\0' then end + 1 else end..])
  {
    var s := line[p..];
    assert s[0] == line[p] && s[1..] == line[p + 1..];
    if !Blank(line[p]) {
      AfterToken(line, p, WordLength(s));
      assert Tokens(s) == [Upper(s[..WordLength(s)])] + Tokens(AfterWord(s, WordLength(s)));
    }
  }

  lemma {:induction false} AfterToken(line: string, p: nat, k: nat)
    requires p + k <= |line|
    ensures line[p..][..k] == line[p..p + k]
    ensures Tokens(AfterWord(line[p..], k)) == Tokens(line[if p + k < |line| && line[p + k] != '\0' then p + k + 1 else p + k..])
  {
    var s, end := line[p..], p + k;
    if end < |line| {
      assert s[k] == line[end];
      if line[end] != '\0' {
        assert s[k + 1..] == line[end + 1..];
      } else {
        LastToken(line, end);
      }
    }
  }

  lemma {:induction false} LastToken(line: string, p: nat)
    requires p <= |line| && (p < |line| ==> line[p] == '\0' || Comment(line[p]))
    ensures Tokens(line[p..]) == []
  {
    if p < |line| { assert line[p..][0] == line[p]; }
  }

  lemma {:induction false} PassOneFails(now: seq<string>, rest: seq<string>)
    ensures PassOne(now).Fail? ==> PassOne(now + rest) == PassOne(now)
    decreases |rest|
  {
    hide StepOne;
    if rest == [] {
      assert now + rest == now;
    } else {
      PassOneFails(now, rest[..|rest| - 1]);
      assert (now + rest)[..|now + rest| - 1] == now + rest[..|rest| - 1];
    }
  }

  lemma {:induction false} PassTwoFails(symbols: Symbols, now: seq<string>, rest: seq<string>)
    ensures PassTwo(symbols, now).Fail? ==> PassTwo(symbols, now + rest) == PassTwo(symbols, now)
    decreases |rest|
  {
    hide StepTwo;
    if rest == [] {
      assert now + rest == now;
    } else {
      PassTwoFails(symbols, now, rest[..|rest| - 1]);
      assert (now + rest)[..|now + rest| - 1] == now + rest[..|rest| - 1];
    }
  }

  /** The location counter of the second pass stays inside memory. */
  lemma {:induction false} InStep(lines: seq<string>, now: seq<string>)
    requires PassOne(lines).Ok? && now <= lines
    ensures
      var all := PassOne(lines).value.symbols;
      PassTwo(all, now).Ok? ==> 0x200 + |PassTwo(all, now).value| <= MEMORY_SIZE
  {
    hide PassTwo, PassOne, Extends;
    assert lines[..|now|] == now;
    PassOnePrefix(lines, |now|);
    PassesAgree(now, PassOne(lines).value.symbols);
    FinalPc(now);
  }
}
