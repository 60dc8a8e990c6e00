/** The two-pass assembler: tokens, operand values, instruction encoding, and
    the two passes over the lines of a source text. Every `fail` of the
    original is a `Fail` here. */
module Asm {
  import opened Chip8
  import opened Text

  const MAX_SYMBOLS: int := 2048
  const MAX_TOKENS: int := 260
  const MAX_LINE: int := 1024

  datatype Error =
    | TooManyTokens | InvalidLabel | DuplicateLabel | TooManyLabels
    | NumberTooLarge | UndefinedSymbol | BadRegister | OutOfRange
    | OperandCount | NeedsV0 | UnknownInstruction
    | OrgNeedsAddress | OrgOutsideMemory | OrgBackwards | NeedsValue | ProgramTooLarge

  datatype Result<+T> = Ok(value: T) | Fail(error: Error) {
    predicate IsFailure() { Fail? }

    function PropagateFailure<U>(): Result<U>
      requires Fail?
    {
      Fail(error)
    }

    function Extract(): T
      requires Ok?
    {
      value
    }
  }

  type Symbols = map<string, word>

  // ------------------------------------------------------------- tokenizer

  predicate Blank(c: char) { IsSpace(c) || c == ',' }

  predicate Comment(c: char) { c == ';' || c == '#' }

  predicate Delimits(c: char) { Blank(c) || Comment(c) || c == '\0' }

  /** The length of the token at the start of `s`. */
  function WordLength(s: string): (n: nat)
    ensures n <= |s|
    ensures forall i :: 0 <= i < n ==> !Delimits(s[i])
    ensures n < |s| ==> Delimits(s[n])
  {
    if s == "" || Delimits(s[0]) then 0 else 1 + WordLength(s[1..])
  }

  /** The text after a token of length `n`: the delimiter is overwritten with
      the token's terminating zero, whatever it was. */
  function AfterWord(s: string, n: nat): (r: string)
    requires n <= |s|
    ensures n > 0 ==> |r| < |s| || s == ""
  {
    if n == |s| || s[n] == '\0' then "" else s[n + 1..]
  }

  function Tokens(s: string): (t: seq<string>)
    ensures forall w :: w in t ==> w != ""
    decreases |s|
  {
    if s == "" || s[0] == '\0' || Comment(s[0]) then []
    else if Blank(s[0]) then Tokens(s[1..])
    else [Upper(s[..WordLength(s)])] + Tokens(AfterWord(s, WordLength(s)))
  }

  function Tokenize(line: string): Result<seq<string>>
  {
    if |Tokens(line)| > MAX_TOKENS then Fail(TooManyTokens) else Ok(Tokens(line))
  }

  // --------------------------------------------------------------- symbols

  predicate NameStart(c: char) { IsAlpha(c) || c == '_' }

  predicate IsName(s: string)
  {
    s != "" && NameStart(s[0]) && forall i :: 1 <= i < |s| ==> NameStart(s[i]) || IsDigit(s[i])
  }

  function Define(symbols: Symbols, name: string, pc: word): Result<Symbols>
  {
    if !IsName(name) then Fail(InvalidLabel)
    else if name in symbols then Fail(DuplicateLabel)
    else if |symbols| == MAX_SYMBOLS then Fail(TooManyLabels)
    else Ok(symbols[name := pc])
  }

  /** A number, or a symbol; in the first pass an unknown symbol reads as 0. */
  function Value(s: string, symbols: Symbols, resolve: bool): Result<word>
  {
    match Number(s)
    case Some(n) => if n > 0xFFFF then Fail(NumberTooLarge) else Ok(n)
    case None =>
      if s in symbols then Ok(symbols[s])
      else if resolve then Fail(UndefinedSymbol)
      else Ok(0)
  }

  function Ranged(s: string, max: nat, symbols: Symbols, resolve: bool): (r: Result<word>)
    ensures r.Ok? ==> r.value <= max
  {
    var v :- Value(s, symbols, resolve);
    if v > max then Fail(OutOfRange) else Ok(v)
  }

  function Register(s: string): (r: Result<nibble>)
  {
    if |s| != 2 || s[0] != 'V' || DigitValue(s[1]) == 16 || 'a' <= s[1] then Fail(BadRegister)
    else Ok(DigitValue(s[1]))
  }

  predicate LooksLikeRegister(s: string) { s != "" && s[0] == 'V' }

  // ---------------------------------------------------------- instructions

  function Encode(base: word, x: nibble, low: byte): word
    requires base % 0x1000 < 0x100 && base + low < 0xF100
  {
    var b: int, r: int := base, x;
    b + 0x100 * r + low
  }

  function Bare(t: seq<string>, op: word): Result<word>
  {
    if |t| != 1 then Fail(OperandCount) else Ok(op)
  }

  function WithAddress(s: string, base: word, symbols: Symbols, resolve: bool): Result<word>
    requires base <= 0xF000
  {
    var z :- Ranged(s, 0xFFF, symbols, resolve);
    Ok(base + z)
  }

  function WithByte(x: nibble, s: string, base: word, symbols: Symbols, resolve: bool): Result<word>
    requires base % 0x1000 == 0
  {
    var z :- Ranged(s, 0xFF, symbols, resolve);
    Ok(Encode(base, x, z))
  }

  /** An opcode whose only operand is a register in the x position. */
  function WithX(s: string, base: word): Result<word>
    requires base % 0x1000 < 0x100 && base < 0xF100
  {
    var x :- Register(s);
    Ok(Encode(base, x, 0))
  }

  function WithXY(x: nibble, s: string, base: word): Result<word>
    requires base % 0x1000 < 0x10 && base <= 0xF000
  {
    var y :- Register(s);
    Ok(Encode(base, x, 0x10 * y))
  }

  function Jump(t: seq<string>, symbols: Symbols, resolve: bool): Result<word>
  {
    if |t| == 2 then WithAddress(t[1], 0x1000, symbols, resolve)
    else if |t| != 3 then Fail(OperandCount)
    else if t[1] != "V0" then Fail(NeedsV0)
    else WithAddress(t[2], 0xB000, symbols, resolve)
  }

  function CallTo(t: seq<string>, symbols: Symbols, resolve: bool): Result<word>
  {
    if |t| != 2 then Fail(OperandCount) else WithAddress(t[1], 0x2000, symbols, resolve)
  }

  /** SE and SNE, and the register or byte form of LD and ADD: two opcodes for
      the two kinds of second operand. */
  function RegisterOrByte(x: nibble, s: string, reg: word, byt: word, symbols: Symbols, resolve: bool): Result<word>
    requires reg % 0x1000 < 0x10 && reg <= 0xF000 && byt % 0x1000 == 0
  {
    if LooksLikeRegister(s) then WithXY(x, s, reg) else WithByte(x, s, byt, symbols, resolve)
  }

  function Skip(t: seq<string>, equal: bool, symbols: Symbols, resolve: bool): Result<word>
  {
    if |t| != 3 then Fail(OperandCount) else
    var x :- Register(t[1]);
    if equal then RegisterOrByte(x, t[2], 0x5000, 0x3000, symbols, resolve)
    else RegisterOrByte(x, t[2], 0x9000, 0x4000, symbols, resolve)
  }

  function LoadTo(t: seq<string>, symbols: Symbols, resolve: bool): Result<word>
  {
    if |t| != 3 then Fail(OperandCount)
    else if t[1] == "I" then WithAddress(t[2], 0xA000, symbols, resolve)
    else if t[1] == "DT" then WithX(t[2], 0xF015)
    else if t[1] == "ST" then WithX(t[2], 0xF018)
    else if t[1] == "F" then WithX(t[2], 0xF029)
    else if t[1] == "B" then WithX(t[2], 0xF033)
    else if t[1] == "[I]" then WithX(t[2], 0xF055)
    else LoadRegister(t, symbols, resolve)
  }

  function LoadRegister(t: seq<string>, symbols: Symbols, resolve: bool): Result<word>
    requires |t| == 3
  {
    var x :- Register(t[1]);
    if t[2] == "DT" then Ok(Encode(0xF007, x, 0))
    else if t[2] == "K" then Ok(Encode(0xF00A, x, 0))
    else if t[2] == "[I]" then Ok(Encode(0xF065, x, 0))
    else RegisterOrByte(x, t[2], 0x8000, 0x6000, symbols, resolve)
  }

  function Add(t: seq<string>, symbols: Symbols, resolve: bool): Result<word>
  {
    if |t| != 3 then Fail(OperandCount)
    else if t[1] == "I" then WithX(t[2], 0xF01E)
    else
      var x :- Register(t[1]);
      RegisterOrByte(x, t[2], 0x8004, 0x7000, symbols, resolve)
  }

  function Logic(t: seq<string>, low: nibble): Result<word>
  {
    if |t| != 3 then Fail(OperandCount) else
    var x :- Register(t[1]);
    WithXY(x, t[2], 0x8000 + low)
  }

  /** SHR and SHL: the second operand is optional and keeps the y nibble. */
  function Shift(t: seq<string>, low: nibble): Result<word>
  {
    if |t| != 2 && |t| != 3 then Fail(OperandCount) else
    var x :- Register(t[1]);
    if |t| == 3 then WithXY(x, t[2], 0x8000 + low) else Ok(Encode(0x8000 + low, x, 0))
  }

  function Random(t: seq<string>, symbols: Symbols, resolve: bool): Result<word>
  {
    if |t| != 3 then Fail(OperandCount) else
    var x :- Register(t[1]);
    WithByte(x, t[2], 0xC000, symbols, resolve)
  }

  function Draw(t: seq<string>, symbols: Symbols, resolve: bool): Result<word>
  {
    if |t| != 4 then Fail(OperandCount) else
    var x :- Register(t[1]);
    var y :- Register(t[2]);
    var z :- Ranged(t[3], 0xF, symbols, resolve);
    Ok(Encode(0xD000, x, 0x10 * y + z))
  }

  function SkipKey(t: seq<string>, base: word): Result<word>
    requires base % 0x1000 < 0x100 && base < 0xF100
  {
    if |t| != 2 then Fail(OperandCount) else WithX(t[1], base)
  }

  function Instruction(t: seq<string>, symbols: Symbols, resolve: bool): Result<word>
    requires t != []
  {
    match t[0]
    case "CLS" => Bare(t, 0x00E0)
    case "RET" => Bare(t, 0x00EE)
    case "JP" => Jump(t, symbols, resolve)
    case "CALL" => CallTo(t, symbols, resolve)
    case "SE" => Skip(t, true, symbols, resolve)
    case "SNE" => Skip(t, false, symbols, resolve)
    case "LD" => LoadTo(t, symbols, resolve)
    case "ADD" => Add(t, symbols, resolve)
    case "OR" => Logic(t, 1)
    case "AND" => Logic(t, 2)
    case "XOR" => Logic(t, 3)
    case "SUB" => Logic(t, 5)
    case "SUBN" => Logic(t, 7)
    case "SHR" => Shift(t, 6)
    case "SHL" => Shift(t, 0xE)
    case "RND" => Random(t, symbols, resolve)
    case "DRW" => Draw(t, symbols, resolve)
    case "SKP" => SkipKey(t, 0xE09E)
    case "SKNP" => SkipKey(t, 0xE0A1)
    case _ => Fail(UnknownInstruction)
  }

  // ----------------------------------------------------------------- lines

  function BigEndian(w: word): (r: seq<byte>)
    ensures |r| == 2
  {
    [w / 0x100, w % 0x100]
  }

  /** The bytes of a `.byte` or `.word` list. */
  function Data(ts: seq<string>, wide: bool, symbols: Symbols, resolve: bool): (r: Result<seq<byte>>)
    ensures r.Ok? ==> |r.value| == |ts| * if wide then 2 else 1
  {
    if ts == [] then Ok([]) else
    var v :- Ranged(ts[0], if wide then 0xFFFF else 0xFF, symbols, resolve);
    var rest :- Data(ts[1..], wide, symbols, resolve);
    Ok((if wide then BigEndian(v) else [v]) + rest)
  }

  function Org(t: seq<string>, pc: nat, symbols: Symbols, resolve: bool): Result<seq<byte>>
  {
    if |t| != 2 then Fail(OrgNeedsAddress) else
    var p :- Value(t[1], symbols, resolve);
    if p < ENTRYPOINT || p >= MEMORY_SIZE then Fail(OrgOutsideMemory)
    else if p < pc then Fail(OrgBackwards)
    else Ok(seq(p - pc, _ => 0))
  }

  /** line_size and the bytes it writes, for a line without its label. */
  function Line(t: seq<string>, pc: nat, symbols: Symbols, resolve: bool): Result<seq<byte>>
  {
    if t == [] then Ok([])
    else if t[0] == ".ORG" then Org(t, pc, symbols, resolve)
    else if t[0] == ".BYTE" then (if |t| < 2 then Fail(NeedsValue) else Data(t[1..], false, symbols, resolve))
    else if t[0] == ".WORD" then (if |t| < 2 then Fail(NeedsValue) else Data(t[1..], true, symbols, resolve))
    else
      var op :- Instruction(t, symbols, resolve);
      Ok(BigEndian(op))
  }

  predicate Labelled(t: seq<string>)
  {
    t != [] && t[0] != "" && t[0][|t[0]| - 1] == ':'
  }

  function LabelName(t: seq<string>): string
    requires Labelled(t)
  {
    t[0][..|t[0]| - 1]
  }

  function Unlabelled(t: seq<string>): seq<string>
  {
    if Labelled(t) then t[1..] else t
  }

  // ---------------------------------------------------------------- passes

  datatype State = State(symbols: Symbols, pc: word)

  const START: State := State(map[], 0x200)

  function StepOne(s: State, line: string): Result<State>
  {
    var t :- Tokenize(line);
    var symbols :- if Labelled(t) then Define(s.symbols, LabelName(t), s.pc) else Ok(s.symbols);
    var bytes :- Line(Unlabelled(t), s.pc, symbols, false);
    if s.pc + |bytes| > MEMORY_SIZE then Fail(ProgramTooLarge) else Ok(State(symbols, s.pc + |bytes|))
  }

  function StepTwo(symbols: Symbols, pc: nat, line: string): Result<seq<byte>>
  {
    var t :- Tokenize(line);
    Line(Unlabelled(t), pc, symbols, true)
  }

  function PassOne(lines: seq<string>): Result<State>
  {
    if lines == [] then Ok(START) else
    var s :- PassOne(lines[..|lines| - 1]);
    StepOne(s, lines[|lines| - 1])
  }

  function PassTwo(symbols: Symbols, lines: seq<string>): Result<seq<byte>>
  {
    if lines == [] then Ok([]) else
    var out :- PassTwo(symbols, lines[..|lines| - 1]);
    var bytes :- StepTwo(symbols, 0x200 + |out|, lines[|lines| - 1]);
    Ok(out + bytes)
  }

  /** How much of `text` one fgets call into the line buffer takes. */
  function FgetsLength(text: string, room: nat): (n: nat)
    ensures n <= |text|
    ensures text != "" && room > 0 ==> n > 0
  {
    if text == "" || room == 0 then 0
    else if text[0] == '\n' then 1
    else 1 + FgetsLength(text[1..], room - 1)
  }

  function Lines(text: string): seq<string>
    decreases |text|
  {
    if text == "" then [] else
    var n := FgetsLength(text, MAX_LINE - 1);
    [text[..n]] + Lines(text[n..])
  }

  function Assemble(text: string): Result<seq<byte>>
  {
    var s :- PassOne(Lines(text));
    PassTwo(s.symbols, Lines(text))
  }
}
