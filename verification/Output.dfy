/** The bytes the assembler puts out, operand by operand: what stands at the place
    of every line of the text. */
module Output {
  import opened Chip8
  import opened Text
  import opened Asm
  import opened TwoPass

  /** Operand `s` has the value `v`. */
  predicate Is(s: string, symbols: Symbols, v: int)
  {
    Value(s, symbols, true).Ok? && Value(s, symbols, true).value == v
  }

  /** `bytes` are what a line with the words `t` at address `pc` stands for: the
      values of a .byte list, one byte each; of a .word list, high byte first; zeros
      up to the address of an .org; the opcode of an instruction. */
  ghost predicate Spells(t: seq<string>, pc: nat, symbols: Symbols, bytes: seq<byte>)
  {
    if t == [] then bytes == []
    else if t[0] == ".BYTE" then |t| > 1 && |bytes| == |t| - 1 && forall j :: 0 <= j < |t| - 1 ==> Is(t[j + 1], symbols, bytes[j])
    else if t[0] == ".WORD" then |t| > 1 && |bytes| == 2 * (|t| - 1) && forall j :: 0 <= j < |t| - 1 ==> WordIs(t[j + 1], symbols, bytes, 2 * j)
    else if t[0] == ".ORG" then
      && |t| == 2 && pc + |bytes| < MEMORY_SIZE && Is(t[1], symbols, pc + |bytes|) && pc + |bytes| >= ENTRYPOINT
      && forall j :: 0 <= j < |bytes| ==> bytes[j] == 0
    else |bytes| == 2 && Instruction(t, symbols, true).Ok? && Instruction(t, symbols, true).value == Pair(bytes, 0)
  }

  function Pair(bytes: seq<byte>, j: nat): int
    requires j + 1 < |bytes|
  {
    var high: int := bytes[j];
    0x100 * high + bytes[j + 1]
  }

  predicate WordIs(s: string, symbols: Symbols, bytes: seq<byte>, j: nat)
    requires j + 1 < |bytes|
  {
    Is(s, symbols, Pair(bytes, j))
  }

  lemma {:induction false} BytesSpelled(ts: seq<string>, symbols: Symbols, j: nat)
    requires Data(ts, false, symbols, true).Ok? && j < |ts|
    ensures Is(ts[j], symbols, Data(ts, false, symbols, true).value[j])
  {
    hide Value;
    if j > 0 { BytesSpelled(ts[1..], symbols, j - 1); }
  }

  lemma {:induction false} WordsSpelled(ts: seq<string>, symbols: Symbols, j: nat)
    requires Data(ts, true, symbols, true).Ok? && j < |ts|
    ensures WordIs(ts[j], symbols, Data(ts, true, symbols, true).value, 2 * j)
  {
    hide Value;
    var bytes, rest := Data(ts, true, symbols, true).value, Data(ts[1..], true, symbols, true).value;
    if j > 0 {
      WordsSpelled(ts[1..], symbols, j - 1);
      assert bytes[2 * j] == rest[2 * j - 2] && bytes[2 * j + 1] == rest[2 * j - 1];
    }
  }

  /** A line of the second pass. */
  lemma {:induction false} LineSpelled(t: seq<string>, pc: nat, symbols: Symbols)
    requires Line(t, pc, symbols, true).Ok?
    ensures Spells(t, pc, symbols, Line(t, pc, symbols, true).value)
  {
    hide Value, Instruction, Data;
    if t == [] {
    } else if t[0] == ".BYTE" {
      forall j | 0 <= j < |t| - 1 ensures Is(t[j + 1], symbols, Line(t, pc, symbols, true).value[j]) { BytesSpelled(t[1..], symbols, j); }
    } else if t[0] == ".WORD" {
      forall j | 0 <= j < |t| - 1 ensures WordIs(t[j + 1], symbols, Line(t, pc, symbols, true).value, 2 * j) { WordsSpelled(t[1..], symbols, j); }
    }
  }

  /** What is spelled is all there is: the bytes of a line are determined. */
  lemma {:induction false} SpellsOnce(t: seq<string>, pc: nat, symbols: Symbols, a: seq<byte>, b: seq<byte>)
    requires Spells(t, pc, symbols, a) && Spells(t, pc, symbols, b)
    ensures a == b
  {
    hide Value, Instruction;
    assert |a| == |b|;
    forall j | 0 <= j < |a| ensures a[j] == b[j] {
      if t[0] == ".BYTE" {
        assert Is(t[j + 1], symbols, a[j]) && Is(t[j + 1], symbols, b[j]);
      } else if t[0] == ".WORD" {
        assert WordIs(t[j / 2 + 1], symbols, a, 2 * (j / 2)) && WordIs(t[j / 2 + 1], symbols, b, 2 * (j / 2));
        assert j == 2 * (j / 2) || j == 2 * (j / 2) + 1;
      }
    }
  }

  /** The words of line `k`, and the address the first pass gave it. */
  function Words(lines: seq<string>, k: nat): seq<string>
    requires k < |lines|
  {
    Unlabelled(Tokens(lines[k]))
  }

  ghost predicate SpelledAt(lines: seq<string>, symbols: Symbols, out: seq<byte>, k: nat)
    requires k < |lines|
  {
    && PassOne(lines[..k]).Ok? && PassOne(lines[..k + 1]).Ok?
    && var from, to := PassOne(lines[..k]).value.pc - 0x200, PassOne(lines[..k + 1]).value.pc - 0x200;
       0 <= from <= to <= |out| && Spells(Words(lines, k), 0x200 + from, symbols, out[from..to])
  }

  /** Every line stands in the output, at the address its label has, as what its
      operands stand for. */
  ghost predicate Spelled(text: string, out: seq<byte>)
  {
    var lines := Lines(text);
    && PassOne(lines).Ok? && PassOne(lines).value.pc == 0x200 + |out|
    && forall k :: 0 <= k < |lines| ==> SpelledAt(lines, PassOne(lines).value.symbols, out, k)
  }

  lemma {:induction false} PassTwoStep(symbols: Symbols, lines: seq<string>, k: nat)
    requires PassTwo(symbols, lines).Ok? && k < |lines|
    ensures PassTwo(symbols, lines[..k]).Ok? && PassTwo(symbols, lines[..k + 1]).Ok?
    ensures
      var a, b := PassTwo(symbols, lines[..k]).value, PassTwo(symbols, lines[..k + 1]).value;
      && a <= b <= PassTwo(symbols, lines).value
      && Line(Words(lines, k), 0x200 + |a|, symbols, true) == Ok(b[|a|..])
  {
    hide Line, Tokens;
    PassTwoPrefix(symbols, lines, k);
    PassTwoPrefix(symbols, lines, k + 1);
    assert lines[..k + 1][..k] == lines[..k];
  }

  /** Every successful assembly is spelled by its text. */
  lemma {:induction false} AssembledSpelled(text: string)
    requires Assemble(text).Ok?
    ensures Spelled(text, Assemble(text).value)
  {
    hide PassOne, PassTwo, Line, Tokens, Spells, Lines;
    var lines, out := Lines(text), Assemble(text).value;
    var symbols := PassOne(lines).value.symbols;
    OutputSize(lines);
    forall k | 0 <= k < |lines| ensures SpelledAt(lines, symbols, out, k) {
      PrefixSize(lines, k);
      PrefixSize(lines, k + 1);
      PassTwoStep(symbols, lines, k);
      var a, b := PassTwo(symbols, lines[..k]).value, PassTwo(symbols, lines[..k + 1]).value;
      assert out[|a|..|b|] == b[|a|..];
      LineSpelled(Words(lines, k), 0x200 + |a|, symbols);
    }
  }

  lemma {:induction false} OutputSize(lines: seq<string>)
    requires PassOne(lines).Ok? && PassTwo(PassOne(lines).value.symbols, lines).Ok?
    ensures PassOne(lines).value.pc == 0x200 + |PassTwo(PassOne(lines).value.symbols, lines).value|
  {
    PassesAgree(lines, PassOne(lines).value.symbols);
    hide PassOne, PassTwo;
  }

  lemma {:induction false} PrefixSize(lines: seq<string>, k: nat)
    requires PassOne(lines).Ok? && PassTwo(PassOne(lines).value.symbols, lines).Ok? && k <= |lines|
    ensures PassOne(lines[..k]).Ok? && PassTwo(PassOne(lines).value.symbols, lines[..k]).Ok?
    ensures PassOne(lines[..k]).value.pc == 0x200 + |PassTwo(PassOne(lines).value.symbols, lines[..k]).value|
  {
    var all := PassOne(lines).value.symbols;
    PassOnePrefix(lines, k);
    PassesAgree(lines[..k], all);
    PassTwoPrefix(all, lines, k);
    hide PassOne, PassTwo;
  }

  /** `.org` takes exactly the addresses from 0x200 through 0xFFF that are not behind
      the location counter. */
  lemma {:induction false} OrgExact(w: string, pc: nat, symbols: Symbols, resolve: bool)
    ensures Line([".ORG", w], pc, symbols, resolve).Ok? <==>
      Value(w, symbols, resolve).Ok? && 0x200 <= Value(w, symbols, resolve).value <= 0xFFF && pc <= Value(w, symbols, resolve).value
  {
    hide Value;
  }
}
