/** Every statement the disassembler prints encodes to the opcode it was printed
    for. */
module Encoding {
  import opened Chip8
  import opened Text
  import opened Asm
  import opened Disas
  import opened Tokenizing
  import opened Printed

  // ------------------------------------------------------------- operands

  /** What the tokenizer makes of a label. */
  function Name(a: address): string { "BLOCK" + Hex3(a) }

  function Capital(digits: string): string { "0X" + digits }

  function Operand(leader: seq<bool>, a: address): string
    requires |leader| == 0x1000
  {
    if leader[a] then Name(a) else Capital(Hex3(a))
  }

  /** The symbol table knows the labels it must: all of them in the second pass,
      none wrongly in the first. */
  ghost predicate Resolves(m: Symbols, leader: seq<bool>, resolve: bool)
    requires |leader| == 0x1000
  {
    forall a: address :: leader[a] ==> if Name(a) in m then m[Name(a)] == a else !resolve
  }

  lemma {:induction false} UpperOperand(x: nibble, digits: string, a: address)
    requires HexText(digits)
    ensures Upper(V(x)) == V(x)
    ensures Upper(Literal(digits)) == Capital(digits)
    ensures Upper(Label(a)) == Name(a)
  {
    DigitBack(x);
    DigitBack(a / 256);
    DigitBack(a / 16 % 16);
    DigitBack(a % 16);
    forall i | 0 <= i < |digits| ensures ToUpper(digits[i]) == digits[i] {
      var n: nibble :| digits[i] == HexDigit(n);
      DigitBack(n);
    }
    hide HexDigit;
    assert Upper(V(x)) == V(x);
    assert Upper(Literal(digits)) == Capital(digits);
    assert Upper(Label(a)) == Name(a);
  }

  lemma {:induction false} RegisterBack(x: nibble)
    ensures Register(V(x)) == Ok(x) && LooksLikeRegister(V(x))
    ensures V(x) !in ["I", "DT", "ST", "F", "B", "[I]", "K"]
  {
    DigitBack(x);
  }

  lemma {:induction false} NumberBack(n: nibble, b: byte, a: address, m: Symbols, resolve: bool)
    ensures Ranged(Capital([HexDigit(n)]), 0xF, m, resolve) == Ok(n)
    ensures Ranged(Capital(Hex2(b)), 0xFF, m, resolve) == Ok(b)
    ensures Ranged(Capital(Hex3(a)), 0xFFF, m, resolve) == Ok(a)
  {
    hide Number, HexDigit;
    NibbleRoundTrip(n);
    ByteRoundTrip(b);
    AddressRoundTrip(a);
  }

  lemma {:induction false} CapitalShape(digits: string)
    ensures !LooksLikeRegister(Capital(digits)) && Capital(digits) !in ["DT", "K", "[I]"]
  {
    assert Capital(digits)[0] == '0';
  }

  lemma {:induction false} NotANumber(a: address)
    ensures Number(Name(a)) == None
  {
    assert Name(a)[0] == 'B';
    assert DigitValue('B') == 11;
  }

  lemma {:induction false} OperandBack(m: Symbols, leader: seq<bool>, a: address, resolve: bool)
    requires |leader| == 0x1000 && Resolves(m, leader, resolve)
    ensures Ranged(Operand(leader, a), 0xFFF, m, resolve).Ok?
    ensures resolve ==> Ranged(Operand(leader, a), 0xFFF, m, resolve) == Ok(a)
  {
    hide Number, HexDigit;
    NotANumber(a);
    NumberBack(0, 0, a, m, resolve);
  }

  /** Two labels that read alike are one. */
  lemma {:induction false} NameOnce(a: address, b: address)
    requires Name(a) == Name(b)
    ensures a == b
  {
    hide Number, HexDigit;
    AddressRoundTrip(a);
    AddressRoundTrip(b);
    assert Name(a)[5..] == Hex3(a) && Name(b)[5..] == Hex3(b);
  }

  // --------------------------------------------------------- instructions

  lemma Fields(op: word)
    ensures op == 0x1000 * Top(op) + 0x100 * X(op) + KK(op)
    ensures KK(op) == 0x10 * Y(op) + N(op)
    ensures NNN(op) == 0x100 * X(op) + KK(op)
  {
    var v: int := op;
    assert v / 0x100 == v / 0x1000 * 0x10 + v / 0x100 % 0x10;
    assert v % 0x100 == v / 0x10 % 0x10 * 0x10 + v % 0x10;
    assert v % 0x1000 == v / 0x100 % 0x10 * 0x100 + v % 0x100;
  }

  /** `t` encodes to `op`, or at least to some opcode while labels are open. */
  ghost predicate Encodes(t: seq<string>, op: word, m: Symbols, resolve: bool)
    requires t != []
  {
    && Instruction(t, m, resolve).Ok?
    && (resolve ==> Instruction(t, m, resolve) == Ok(op))
    && t[0] !in [".ORG", ".BYTE", ".WORD", ""] && t[0][|t[0]| - 1] != ':'
  }

  lemma {:induction false} EncodesByte(op: word, m: Symbols, resolve: bool)
    requires Top(op) in {3, 4, 6, 7, 0xC}
    ensures
      var mnemonic := match Top(op) case 3 => "SE" case 4 => "SNE" case 6 => "LD" case 7 => "ADD" case _ => "RND";
      Encodes([mnemonic, V(X(op)), Capital(Hex2(KK(op)))], op, m, resolve)
  {
    hide Top, X, KK, Y, N, NNN, Register, LooksLikeRegister, Ranged, Hex2, V, Capital;
    Fields(op);
    RegisterBack(X(op));
    NumberBack(0, KK(op), 0, m, resolve);
    CapitalShape(Hex2(KK(op)));
  }

  lemma {:induction false} EncodesCompare(op: word, m: Symbols, resolve: bool)
    requires Top(op) in {5, 9} && N(op) == 0
    ensures Encodes([if Top(op) == 5 then "SE" else "SNE", V(X(op)), V(Y(op))], op, m, resolve)
  {
    hide Top, X, KK, Y, N, NNN, Register, LooksLikeRegister, Ranged, V;
    Fields(op);
    RegisterBack(X(op));
    RegisterBack(Y(op));
  }

  lemma {:induction false} EncodesArith(op: word, m: Symbols, resolve: bool)
    requires Top(op) == 8 && ArithStatement(op).Some?
    ensures Encodes(ArithStatement(op).value, op, m, resolve)
  {
    hide Top, X, KK, Y, N, NNN, Register, LooksLikeRegister, Ranged, V;
    Fields(op);
    RegisterBack(X(op));
    RegisterBack(Y(op));
  }

  lemma {:induction false} EncodesMisc(op: word, m: Symbols, resolve: bool)
    requires Top(op) == 0xF && MiscStatement(op).Some?
    ensures Encodes(MiscStatement(op).value, op, m, resolve)
  {
    hide Top, X, KK, Y, N, NNN, Register, LooksLikeRegister, Ranged, V;
    Fields(op);
    RegisterBack(X(op));
  }

  lemma {:induction false} EncodesDraw(op: word, m: Symbols, resolve: bool)
    requires Top(op) == 0xD
    ensures Encodes(["DRW", V(X(op)), V(Y(op)), Capital([HexDigit(N(op))])], op, m, resolve)
  {
    hide Top, X, KK, Y, N, NNN, Register, Ranged, V, Capital, HexDigit;
    Fields(op);
    RegisterBack(X(op));
    RegisterBack(Y(op));
    NumberBack(N(op), 0, 0, m, resolve);
  }

  lemma {:induction false} EncodesKey(op: word, m: Symbols, resolve: bool)
    requires Top(op) == 0xE && KK(op) in {0x9E, 0xA1}
    ensures Encodes([if KK(op) == 0x9E then "SKP" else "SKNP", V(X(op))], op, m, resolve)
  {
    hide Top, X, KK, Y, N, NNN, Register, V;
    Fields(op);
    RegisterBack(X(op));
  }

  lemma {:induction false} EncodesBare(m: Symbols, resolve: bool)
    ensures Encodes(["CLS"], 0x00E0, m, resolve) && Encodes(["RET"], 0x00EE, m, resolve)
  {}

  lemma {:induction false} EncodesAddress(op: word, leader: seq<bool>, m: Symbols, resolve: bool)
    requires |leader| == 0x1000 && Resolves(m, leader, resolve)
    ensures Top(op) == 1 ==> Encodes(["JP", Operand(leader, NNN(op))], op, m, resolve)
    ensures Top(op) == 2 ==> Encodes(["CALL", Operand(leader, NNN(op))], op, m, resolve)
    ensures Top(op) == 0xA ==> Encodes(["LD", "I", Operand(leader, NNN(op))], op, m, resolve)
    ensures Top(op) == 0xB ==> Encodes(["JP", "V0", Capital(Hex3(NNN(op)))], op, m, resolve)
  {
    hide Top, X, KK, Y, N, NNN, Ranged, Operand, Capital, Hex3, Resolves;
    Fields(op);
    OperandBack(m, leader, NNN(op), resolve);
    NumberBack(0, 0, NNN(op), m, resolve);
  }

  // ----------------------------------------------- printed words, upper-cased

  lemma {:induction false} HexTexts(n: nibble, b: byte, a: address, w: word)
    ensures HexText([HexDigit(n)]) && HexText(Hex2(b)) && HexText(Hex3(a)) && HexText(Hex4(w))
  {
    hide HexDigit;
  }

  lemma {:induction false} Upper2(a: string, b: string)
    ensures UpperAll([a, b]) == [Upper(a), Upper(b)]
  {}

  lemma {:induction false} Upper3(a: string, b: string, c: string)
    ensures UpperAll([a, b, c]) == [Upper(a), Upper(b), Upper(c)]
  {}

  lemma {:induction false} Upper4(a: string, b: string, c: string, d: string)
    ensures UpperAll([a, b, c, d]) == [Upper(a), Upper(b), Upper(c), Upper(d)]
  {}

  /** A word without lower-case letters. */
  ghost predicate IsUpper(w: string)
  {
    forall i :: 0 <= i < |w| ==> ToUpper(w[i]) == w[i]
  }

  lemma {:induction false} UpperSame(w: string)
    requires IsUpper(w)
    ensures Upper(w) == w
  {}

  ghost predicate AllUpper(ws: seq<string>)
  {
    forall i :: 0 <= i < |ws| ==> IsUpper(ws[i])
  }

  lemma {:induction false} UpperAllSame(ws: seq<string>)
    requires AllUpper(ws)
    ensures UpperAll(ws) == ws
  {
    forall i | 0 <= i < |ws| ensures Upper(ws[i]) == ws[i] { UpperSame(ws[i]); }
    hide IsUpper;
    assert UpperAll(ws) == ws;
  }

  lemma {:induction false} UpperWord(x: nibble)
    ensures IsUpper(V(x))
  {
    DigitBack(x);
  }

  lemma {:induction false} ArithUpper(op: word)
    requires ArithStatement(op).Some?
    ensures AllUpper(ArithStatement(op).value)
  {
    hide X, Y, N, V;
    UpperWord(X(op));
    UpperWord(Y(op));
  }

  lemma {:induction false} MiscUpper(op: word)
    requires MiscStatement(op).Some?
    ensures AllUpper(MiscStatement(op).value)
  {
    hide X, KK, V;
    UpperWord(X(op));
  }

  lemma {:induction false} UpperTarget(leader: seq<bool>, a: address)
    requires |leader| == 0x1000
    ensures Upper(Target(leader, a)) == Operand(leader, a)
  {
    hide Upper, HexDigit, HexText;
    HexTexts(0, 0, a, 0);
    UpperOperand(0, Hex3(a), a);
  }

  lemma {:induction false} UpperMnemonic(w: string)
    requires w in ["CLS", "RET", "JP", "CALL", "SE", "SNE", "LD", "ADD", "RND", "DRW", "SKP", "SKNP", "I", "V0"]
    ensures Upper(w) == w
  {
    UpperSame(w);
  }

  lemma {:induction false} TokensByte(op: word, leader: seq<bool>, m: Symbols, resolve: bool)
    requires |leader| == 0x1000 && Top(op) in {3, 4, 6, 7, 0xC}
    ensures Statement(op, leader).Some? && Encodes(UpperAll(Statement(op, leader).value), op, m, resolve)
  {
    hide Top, X, KK, Y, N, NNN, V, Literal, Capital, Hex2, HexText, Encodes, UpperAll, Upper;
    NotSystem(op);
    EncodesByte(op, m, resolve);
    HexTexts(0, KK(op), 0, 0);
    UpperOperand(X(op), Hex2(KK(op)), 0);
    var mnemonic := match Top(op) case 3 => "SE" case 4 => "SNE" case 6 => "LD" case 7 => "ADD" case _ => "RND";
    UpperMnemonic(mnemonic);
    Upper3(mnemonic, V(X(op)), Literal(Hex2(KK(op))));
  }

  lemma {:induction false} TokensAddress(op: word, leader: seq<bool>, m: Symbols, resolve: bool)
    requires |leader| == 0x1000 && Top(op) in {1, 2, 0xA, 0xB} && Resolves(m, leader, resolve)
    ensures Statement(op, leader).Some? && Encodes(UpperAll(Statement(op, leader).value), op, m, resolve)
  {
    hide Top, X, KK, Y, N, NNN, V, Literal, Capital, Hex3, HexText, Encodes, UpperAll, Upper, Target, Operand, Resolves;
    NotSystem(op);
    EncodesAddress(op, leader, m, resolve);
    UpperTarget(leader, NNN(op));
    HexTexts(0, 0, NNN(op), 0);
    UpperOperand(0, Hex3(NNN(op)), 0);
    UpperMnemonic(if Top(op) in {1, 0xB} then "JP" else if Top(op) == 2 then "CALL" else "LD");
    UpperMnemonic("I");
    UpperMnemonic("V0");
    Upper2("JP", Target(leader, NNN(op)));
    Upper2("CALL", Target(leader, NNN(op)));
    Upper3("LD", "I", Target(leader, NNN(op)));
    Upper3("JP", "V0", Literal(Hex3(NNN(op))));
  }

  lemma {:induction false} TokensCompare(op: word, leader: seq<bool>, m: Symbols, resolve: bool)
    requires |leader| == 0x1000 && Top(op) in {5, 9} && N(op) == 0
    ensures Statement(op, leader).Some? && Encodes(UpperAll(Statement(op, leader).value), op, m, resolve)
  {
    hide Top, X, KK, Y, N, NNN, V, HexText, Encodes, UpperAll, Upper;
    NotSystem(op);
    EncodesCompare(op, m, resolve);
    HexTexts(0, 0, 0, 0);
    UpperOperand(X(op), Hex2(0), 0);
    UpperOperand(Y(op), Hex2(0), 0);
    UpperMnemonic("SE");
    UpperMnemonic("SNE");
    Upper3("SE", V(X(op)), V(Y(op)));
    Upper3("SNE", V(X(op)), V(Y(op)));
  }

  lemma {:induction false} TokensDraw(op: word, leader: seq<bool>, m: Symbols, resolve: bool)
    requires |leader| == 0x1000 && Top(op) == 0xD
    ensures Statement(op, leader).Some? && Encodes(UpperAll(Statement(op, leader).value), op, m, resolve)
  {
    hide Top, X, KK, Y, N, NNN, V, Literal, Capital, HexDigit, HexText, Encodes, UpperAll, Upper;
    NotSystem(op);
    EncodesDraw(op, m, resolve);
    HexTexts(N(op), 0, 0, 0);
    UpperOperand(X(op), [HexDigit(N(op))], 0);
    UpperOperand(Y(op), [HexDigit(N(op))], 0);
    UpperMnemonic("DRW");
    Upper4("DRW", V(X(op)), V(Y(op)), Literal([HexDigit(N(op))]));
  }

  lemma {:induction false} TokensKey(op: word, leader: seq<bool>, m: Symbols, resolve: bool)
    requires |leader| == 0x1000 && Top(op) == 0xE && KK(op) in {0x9E, 0xA1}
    ensures Statement(op, leader).Some? && Encodes(UpperAll(Statement(op, leader).value), op, m, resolve)
  {
    hide Top, X, KK, Y, N, NNN, V, HexText, Encodes, UpperAll, Upper;
    NotSystem(op);
    EncodesKey(op, m, resolve);
    HexTexts(0, 0, 0, 0);
    UpperOperand(X(op), Hex2(0), 0);
    UpperMnemonic("SKP");
    UpperMnemonic("SKNP");
    Upper2("SKP", V(X(op)));
    Upper2("SKNP", V(X(op)));
  }

  lemma {:induction false} TokensBare(op: word, leader: seq<bool>, m: Symbols, resolve: bool)
    requires |leader| == 0x1000 && op in {0x00E0, 0x00EE}
    ensures Statement(op, leader).Some? && Encodes(UpperAll(Statement(op, leader).value), op, m, resolve)
  {
    hide Top, X, KK, Y, N, NNN, V, Encodes;
    EncodesBare(m, resolve);
    UpperAllSame(["CLS"]);
    UpperAllSame(["RET"]);
    hide UpperAll, Upper;
  }

  /** A statement is printed for the valid opcodes and no others, and it
      encodes back to the opcode. */
  lemma {:induction false} StatementEncodes(op: word, leader: seq<bool>, m: Symbols, resolve: bool)
    requires |leader| == 0x1000 && Resolves(m, leader, resolve)
    ensures Statement(op, leader).Some? <==> ValidOpcode(op)
    ensures Statement(op, leader).Some? ==> Encodes(UpperAll(Statement(op, leader).value), op, m, resolve)
  {
    hide Top, X, KK, Y, N, NNN, V, Literal, Target, Encodes, UpperAll, Resolves;
    NotSystem(op);
    if op in {0x00E0, 0x00EE} { TokensBare(op, leader, m, resolve); }
    else if Top(op) in {3, 4, 6, 7, 0xC} { TokensByte(op, leader, m, resolve); }
    else if Top(op) in {1, 2, 0xA, 0xB} { TokensAddress(op, leader, m, resolve); }
    else if Top(op) in {5, 9} { if N(op) == 0 { TokensCompare(op, leader, m, resolve); } }
    else if Top(op) == 0xD { TokensDraw(op, leader, m, resolve); }
    else if Top(op) == 0xE { if KK(op) in {0x9E, 0xA1} { TokensKey(op, leader, m, resolve); } }
    else if Top(op) == 8 { if ArithStatement(op).Some? {
      EncodesArith(op, m, resolve);
      ArithUpper(op);
      UpperAllSame(ArithStatement(op).value);
    } }
    else if Top(op) == 0xF { if MiscStatement(op).Some? {
      EncodesMisc(op, m, resolve);
      MiscUpper(op);
      UpperAllSame(MiscStatement(op).value);
    } }
  }

  // ------------------------------------------------------- printable words

  /** Words that fit on a line and hold no blank or comment mark. */
  ghost predicate Printable(ws: seq<string>)
  {
    0 < |ws| <= 4 && AllPlain(ws) && forall i :: 0 <= i < |ws| ==> |ws[i]| <= 8
  }

  lemma {:induction false} PlainHex(digits: string)
    requires HexText(digits)
    ensures Plain(digits) && |digits| <= 4
  {
    forall i | 0 <= i < |digits| ensures !Delimits(digits[i]) {
      var n: nibble :| digits[i] == HexDigit(n);
      DigitBack(n);
    }
  }

  lemma {:induction false} PlainOperands(x: nibble, digits: string, leader: seq<bool>, a: address)
    requires HexText(digits) && |leader| == 0x1000
    ensures Plain(V(x)) && |V(x)| == 2
    ensures Plain(Literal(digits)) && |Literal(digits)| <= 6
    ensures Plain(Target(leader, a)) && |Target(leader, a)| <= 8
  {
    hide HexDigit, HexText;
    HexTexts(x, 0, a, 0);
    PlainHex([HexDigit(x)]);
    PlainHex(digits);
    PlainHex(Hex3(a));
    assert V(x) == "V" + [HexDigit(x)];
  }

  lemma {:induction false} ArithPrintable(op: word)
    requires ArithStatement(op).Some?
    ensures Printable(ArithStatement(op).value)
  {
    hide X, Y, N, V, HexText, Target;
    HexTexts(0, 0, 0, 0);
    PlainOperands(X(op), Hex2(0), seq(0x1000, _ => false), 0);
    PlainOperands(Y(op), Hex2(0), seq(0x1000, _ => false), 0);
  }

  lemma {:induction false} MiscPrintable(op: word)
    requires MiscStatement(op).Some?
    ensures Printable(MiscStatement(op).value)
  {
    hide X, KK, V, HexText, Target;
    HexTexts(0, 0, 0, 0);
    PlainOperands(X(op), Hex2(0), seq(0x1000, _ => false), 0);
  }

  lemma {:induction false} StatementPrintable(op: word, leader: seq<bool>)
    requires |leader| == 0x1000 && Statement(op, leader).Some?
    ensures Printable(Statement(op, leader).value)
  {
    hide Top, X, KK, Y, N, NNN, V, Literal, Target, HexText, Hex2, Hex3, HexDigit, ArithStatement, MiscStatement;
    HexTexts(N(op), KK(op), NNN(op), 0);
    PlainOperands(X(op), Hex2(KK(op)), leader, NNN(op));
    PlainOperands(Y(op), Hex3(NNN(op)), leader, NNN(op));
    PlainOperands(Y(op), [HexDigit(N(op))], leader, NNN(op));
    if Top(op) == 8 && ArithStatement(op).Some? { ArithPrintable(op); }
    if Top(op) == 0xF && MiscStatement(op).Some? { MiscPrintable(op); }
  }

  lemma {:induction false} DataPrintable(w: word, b: byte)
    ensures Printable(RawWord(w)) && Printable([".byte", Literal(Hex2(b))])
  {
    hide HexText, Target, Literal, Hex2, Hex4;
    HexTexts(0, b, 0, w);
    PlainOperands(0, Hex2(b), seq(0x1000, _ => false), 0);
    PlainOperands(0, Hex4(w), seq(0x1000, _ => false), 0);
  }
}
