/** The two readings of a number in the source: the assembler's, which is
    strtoul with base 0, and the optimizer's, which is Python's int with a base
    chosen by the first characters. */
module Numbers {
  import opened Chip8
  import opened Text
  import Asm

  // ------------------------------------------------------------ Python's int

  /** Digits with single underscores between them. */
  predicate Grouped(s: string, base: nat)
  {
    && s != "" && s[0] != '_' && s[|s| - 1] != '_'
    && (forall i :: 0 <= i < |s| ==> s[i] == '_' || DigitValue(s[i]) < base)
    && forall i :: 0 <= i < |s| - 1 ==> s[i] != '_' || s[i + 1] != '_'
  }

  function Bare(s: string): string
  {
    if s == "" then "" else Bare(s[..|s| - 1]) + if s[|s| - 1] == '_' then "" else [s[|s| - 1]]
  }

  predicate Signed(s: string)
  {
    s != "" && (s[0] == '+' || s[0] == '-')
  }

  /** The text behind the base's own prefix, if it is there: 0x or 0o, and one
      underscore. */
  function Unprefixed(s: string, base: nat): string
  {
    if |s| > 1 && s[0] == '0' && ((base == 16 && ToUpper(s[1]) == 'X') || (base == 8 && ToUpper(s[1]) == 'O')) then
      if |s| > 2 && s[2] == '_' then s[3..] else s[2..]
    else s
  }

  /** int(s, base) for a base of 8, 10 or 16 and a word without blanks; None is
      ValueError. */
  function PyInt(s: string, base: nat): Option<int>
  {
    var digits := Unprefixed(if Signed(s) then s[1..] else s, base);
    if !Grouped(digits, base) then None
    else if Signed(s) && s[0] == '-' then Some(-(Magnitude(Bare(digits), base) as int))
    else Some(Magnitude(Bare(digits), base) as int)
  }

  /** parse_number. */
  function ParseNumber(w: string): Option<int>
  {
    if |w| > 1 && w[0] == '0' && ToUpper(w[1]) == 'X' then PyInt(w[2..], 16)
    else if |w| > 1 && w[0] == '0' then PyInt(w, 8)
    else PyInt(w, 10)
  }

  // ------------------------------------------------ when the readings agree

  /** A number without a sign, or one whose sign cannot matter: behind a plus
      decimal digits that do not start with zero or are worth less than eight,
      behind a minus nothing but zeros. */
  predicate PlainNumber(w: string)
  {
    !Signed(w) || (
      && AllDigits(w[1..], 10)
      && if w[0] == '+' then w[1..] != "" && (w[1] != '0' || Magnitude(w[1..], 10) < 8) else Magnitude(w[1..], 10) == 0)
  }

  lemma {:induction false} BareDigits(s: string, base: nat)
    requires base <= 16 && AllDigits(s, base)
    ensures Bare(s) == s
  {
    if s != "" {
      assert DigitValue(s[|s| - 1]) < base && DigitValue('_') == 16;
      BareDigits(s[..|s| - 1], base);
    }
  }

  lemma {:induction false} DigitsGrouped(s: string, base: nat)
    requires base <= 16 && AllDigits(s, base) && s != ""
    ensures Grouped(s, base) && Unprefixed(s, base) == s && !Signed(s)
    ensures PyInt(s, base) == Some(Magnitude(s, base) as int)
  {
    BareDigits(s, base);
    assert DigitValue('_') == 16 && DigitValue('+') == 16 && DigitValue('-') == 16 && DigitValue('X') == 16 && DigitValue('x') == 16;
    assert DigitValue('O') == 16 && DigitValue('o') == 16;
    assert DigitValue(s[0]) < base && DigitValue(s[|s| - 1]) < base;
    assert |s| > 1 ==> DigitValue(s[1]) < base;
  }

  /** Octal digits read as decimal are worth more, unless there is only one that
      counts. */
  lemma {:induction false} OctalBelow(s: string)
    requires AllDigits(s, 8)
    ensures if Magnitude(s, 10) < 8 then Magnitude(s, 8) == Magnitude(s, 10) else Magnitude(s, 8) < Magnitude(s, 10)
  {
    if s != "" {
      assert DigitValue(s[|s| - 1]) < 8;
      OctalBelow(s[..|s| - 1]);
    }
  }

  lemma AllDigitsMore(s: string, a: nat, b: nat)
    requires a <= b && AllDigits(s, a)
    ensures AllDigits(s, b)
  {}

  lemma {:induction false} UnsignedAgree(w: string)
    requires Number(w).Some? && !Signed(w)
    ensures ParseNumber(w) == Some(Number(w).value as int)
  {
    hide Magnitude, Grouped, Bare, PyInt, Unprefixed;
    var base := if w[0] == '0' then (if |w| > 1 && ToUpper(w[1]) == 'X' then 16 else 8) else 10;
    var digits := if base == 16 then w[2..] else w;
    DigitsGrouped(digits, base);
    if w == "0" { ZeroAlone(); }
  }

  lemma ZeroAlone()
    ensures ParseNumber("0") == Some(0) && Number("0") == Some(0)
  {
    assert Magnitude("0", 10) == 0 == Magnitude("0", 8);
    DigitsGrouped("0", 10);
  }

  lemma {:induction false} SignedParse(w: string)
    requires Signed(w)
    ensures AllDigits(w[1..], 10) && w[1..] != "" ==>
      ParseNumber(w) == Some(if w[0] == '-' then -(Magnitude(w[1..], 10) as int) else Magnitude(w[1..], 10) as int)
  {
    if AllDigits(w[1..], 10) && w[1..] != "" { DigitsGrouped(w[1..], 10); }
    hide Magnitude, Grouped, Bare;
  }

  /** A hexadecimal number behind a sign is none to Python. */
  lemma {:induction false} SignedHex(w: string)
    requires Signed(w) && |w| > 2 && w[1] == '0' && ToUpper(w[2]) == 'X'
    ensures ParseNumber(w) == None && !AllDigits(w[1..], 10)
  {
    assert w[1..][1] == w[2] && DigitValue(w[2]) == 16;
    hide Magnitude, Bare;
  }

  /** The assembler's number is the optimizer's exactly when it is plain. */
  lemma {:induction false} NumbersAgree(w: string)
    requires Number(w).Some? && Number(w).value <= 0xFFFF
    ensures ParseNumber(w) == Some(Number(w).value as int) <==> PlainNumber(w)
  {
    hide Magnitude, ParseNumber, PyInt;
    if !Signed(w) {
      UnsignedAgree(w);
    } else {
      var body := w[1..];
      SignedParse(w);
      if |body| > 1 && body[0] == '0' && ToUpper(body[1]) == 'X' {
        SignedHex(w);
      } else {
        if body[0] == '0' {
          AllDigitsMore(body, 8, 10);
          OctalBelow(body);
        }
      }
    }
  }

  /** A zero is a zero to both. */
  lemma {:induction false} ZeroAgrees(w: string)
    requires Number(w).Some? && Number(w).value <= 0xFFFF && ParseNumber(w) == Some(0)
    ensures Number(w).value == 0
  {
    hide Magnitude, ParseNumber, PyInt;
    if !Signed(w) {
      UnsignedAgree(w);
    } else {
      var body := w[1..];
      if |body| > 1 && body[0] == '0' && ToUpper(body[1]) == 'X' {
        SignedHex(w);
      } else if body[0] == '0' {
        AllDigitsMore(body, 8, 10);
        SignedParse(w);
        OctalBelow(body);
      } else {
        SignedParse(w);
      }
    }
  }

  /** A label name is no number to either. */
  lemma {:induction false} NameNoNumber(w: string)
    requires Asm.IsName(w)
    ensures Number(w) == None && ParseNumber(w) == None && !Signed(w)
  {
    assert DigitValue(w[0]) >= 10;
    hide Magnitude, Bare;
  }

  // ------------------------------------------------------------- operands

  /** The symbol table of an accepted source. */
  ghost predicate WellNamed(labels: map<string, int>)
  {
    forall name :: name in labels ==> Asm.IsName(name)
  }

  /** The optimizer's reading of an operand: a label, else a number. */
  function Resolve(w: string, labels: map<string, int>): Option<int>
  {
    if w in labels then Some(labels[w]) else ParseNumber(w)
  }

  /** The optimizer and the assembler read an operand alike. */
  predicate Alike(w: string, symbols: Asm.Symbols)
  {
    Asm.Value(w, symbols, true).Ok? && Resolve(w, symbols) == Some(Asm.Value(w, symbols, true).value as int)
  }

  /** They do exactly for labels and plain numbers. */
  lemma {:induction false} AlikeExact(w: string, symbols: Asm.Symbols)
    requires WellNamed(symbols) && Asm.Value(w, symbols, true).Ok?
    ensures Alike(w, symbols) <==> w in symbols || PlainNumber(w)
  {
    hide Number, ParseNumber, PlainNumber, Asm.IsName;
    if w in symbols { NameNoNumber(w); } else { NumbersAgree(w); }
  }

  /** Two words the assembler accepts and the optimizer reads otherwise. */
  lemma {:induction false} ReadOtherwise()
    ensures Number("+010") == Some(8) && ParseNumber("+010") == Some(10)
    ensures Number("+0X300") == Some(0x300) && ParseNumber("+0X300") == None
  {
    OneTen();
    HexWord();
  }

  lemma {:induction false} OneTen()
    ensures Number("+010") == Some(8) && ParseNumber("+010") == Some(10)
  {
    var s := "010";
    assert "+010"[1..] == s;
    assert s[..2] == "01" && "01"[..1] == "0" && "0"[..0] == "";
    assert Magnitude("0", 8) == 0 == Magnitude("0", 10) && Magnitude("01", 8) == 1 == Magnitude("01", 10);
    assert Magnitude(s, 8) == 8 && Magnitude(s, 10) == 10;
    SignedParse("+010");
  }

  lemma {:induction false} HexWord()
    ensures Number("+0X300") == Some(0x300) && ParseNumber("+0X300") == None
  {
    var s := "+0X300";
    assert s[1..] == "0X300" && "0X300"[2..] == "300";
    assert "300"[..2] == "30" && "30"[..1] == "3" && "3"[..0] == "";
    assert Magnitude("3", 16) == 3 && Magnitude("30", 16) == 0x30 && Magnitude("300", 16) == 0x300;
    SignedHex(s);
  }
}
