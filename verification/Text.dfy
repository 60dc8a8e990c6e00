/** The parts of the C library both tools lean on: character classes in the C
    locale, upper-casing, hexadecimal output, and `strtoul` with base 0
    (sections 7.4 and 7.22.1.4 of ISO/IEC 9899:2011). */
module Text {
  import opened Chip8

  predicate IsSpace(c: char) { c == ' ' || '\t' <= c <= '\r' }

  predicate IsDigit(c: char) { '0' <= c <= '9' }

  predicate IsAlpha(c: char) { 'A' <= c <= 'Z' || 'a' <= c <= 'z' }

  function ToUpper(c: char): char
  {
    if 'a' <= c <= 'z' then (c as int - 32) as char else c
  }

  function Upper(s: string): (r: string)
    ensures |r| == |s|
    ensures forall i :: 0 <= i < |s| ==> r[i] == ToUpper(s[i])
  {
    seq(|s|, i requires 0 <= i < |s| => ToUpper(s[i]))
  }

  function UpperAll(ws: seq<string>): (r: seq<string>)
    ensures |r| == |ws|
    ensures forall i :: 0 <= i < |ws| ==> r[i] == Upper(ws[i])
  {
    seq(|ws|, i requires 0 <= i < |ws| => Upper(ws[i]))
  }

  // ------------------------------------------------------------- output

  /** %X of one digit. */
  function HexDigit(n: nibble): char
  {
    if n < 10 then ('0' as int + n) as char else ('A' as int + (n - 10)) as char
  }

  /** %02X of a byte. */
  function Hex2(v: byte): (r: string)
    ensures |r| == 2
  {
    [HexDigit(v / 16), HexDigit(v % 16)]
  }

  /** %03X of an address. */
  function Hex3(v: address): (r: string)
    ensures |r| == 3
  {
    [HexDigit(v / 256), HexDigit(v / 16 % 16), HexDigit(v % 16)]
  }

  /** %04X of a word. */
  function Hex4(v: word): (r: string)
    ensures |r| == 4
  {
    [HexDigit(v / 4096), HexDigit(v / 256 % 16), HexDigit(v / 16 % 16), HexDigit(v % 16)]
  }

  // ------------------------------------------------------------- strtoul

  const ULONG: int := 0x1_0000_0000_0000_0000

  /** The value of a digit in bases up to sixteen; 16 when it is none. */
  function DigitValue(c: char): (d: nat)
  {
    if IsDigit(c) then c as int - '0' as int
    else if 'A' <= c <= 'F' then c as int - 'A' as int + 10
    else if 'a' <= c <= 'f' then c as int - 'a' as int + 10
    else 16
  }

  predicate AllDigits(s: string, base: nat)
  {
    forall i :: 0 <= i < |s| ==> DigitValue(s[i]) < base
  }

  function Magnitude(s: string, base: nat): nat
  {
    if s == "" then 0 else Magnitude(s[..|s| - 1], base) * base + DigitValue(s[|s| - 1])
  }

  /** strtoul (s, &end, 0) when it consumes all of a non-empty `s` that does not
      start with white space and does not overflow; None otherwise. */
  function Number(s: string): Option<nat>
  {
    if s == "" then None else
    var body := if s[0] == '-' || s[0] == '+' then s[1..] else s;
    var base := if |body| > 0 && body[0] == '0' then (if |body| > 1 && ToUpper(body[1]) == 'X' then 16 else 8) else 10;
    var digits := if base == 16 then body[2..] else body;
    if digits == "" || !AllDigits(digits, base) || Magnitude(digits, base) >= ULONG then None
    else if s[0] == '-' then Some((ULONG - Magnitude(digits, base)) % ULONG)
    else Some(Magnitude(digits, base))
  }

  // --------------------------------------------------------------- lemmas

  /** Reading back a digit that was printed. */
  lemma {:induction false} DigitBack(n: nibble)
    ensures DigitValue(HexDigit(n)) == n
    ensures ToUpper(HexDigit(n)) == HexDigit(n)
    ensures IsDigit(HexDigit(n)) || IsAlpha(HexDigit(n))
    ensures !IsSpace(HexDigit(n)) && HexDigit(n) !in ",;#:\0"
  {}

  lemma {:induction false} MagnitudeMore(s: string, n: nibble)
    ensures Magnitude(s + [HexDigit(n)], 16) == Magnitude(s, 16) * 16 + n
  {
    DigitBack(n);
    assert (s + [HexDigit(n)])[..|s|] == s;
  }

  lemma {:induction false} Magnitude4(a: nibble, b: nibble, c: nibble, d: nibble)
    ensures Magnitude([HexDigit(d)], 16) == d
    ensures Magnitude([HexDigit(c), HexDigit(d)], 16) == 0x10 * c + d
    ensures Magnitude([HexDigit(b), HexDigit(c), HexDigit(d)], 16) == 0x100 * b + 0x10 * c + d
    ensures Magnitude([HexDigit(a), HexDigit(b), HexDigit(c), HexDigit(d)], 16) == 0x1000 * a + 0x100 * b + 0x10 * c + d
  {
    hide HexDigit;
    Magnitude2(c, d);
    Magnitude2(b, c);
    Magnitude2(a, b);
    MagnitudeMore([HexDigit(b), HexDigit(c)], d);
    assert [HexDigit(b), HexDigit(c)] + [HexDigit(d)] == [HexDigit(b), HexDigit(c), HexDigit(d)];
    MagnitudeMore([HexDigit(a), HexDigit(b)], c);
    assert [HexDigit(a), HexDigit(b)] + [HexDigit(c)] == [HexDigit(a), HexDigit(b), HexDigit(c)];
    MagnitudeMore([HexDigit(a), HexDigit(b), HexDigit(c)], d);
    assert [HexDigit(a), HexDigit(b), HexDigit(c)] + [HexDigit(d)] == [HexDigit(a), HexDigit(b), HexDigit(c), HexDigit(d)];
  }

  lemma {:induction false} Magnitude2(c: nibble, d: nibble)
    ensures Magnitude([HexDigit(d)], 16) == d
    ensures Magnitude([HexDigit(c), HexDigit(d)], 16) == 0x10 * c + d
  {
    hide HexDigit;
    MagnitudeMore("", c);
    assert "" + [HexDigit(c)] == [HexDigit(c)];
    MagnitudeMore("", d);
    assert "" + [HexDigit(d)] == [HexDigit(d)];
    MagnitudeMore([HexDigit(c)], d);
    assert [HexDigit(c)] + [HexDigit(d)] == [HexDigit(c), HexDigit(d)];
  }

  lemma {:induction false} ReadHex(digits: string)
    requires digits != "" && AllDigits(digits, 16) && Magnitude(digits, 16) < ULONG
    ensures Number("0X" + digits) == Some(Magnitude(digits, 16))
  {
    var s := "0X" + digits;
    assert s[2..] == digits;
  }

  /** What the assembler reads is what the disassembler printed. */
  lemma {:induction false} NibbleRoundTrip(n: nibble)
    ensures Number("0X" + [HexDigit(n)]) == Some(n)
  {
    hide HexDigit, Magnitude, Number;
    HexRead([HexDigit(n)]);
    Magnitude4(0, 0, 0, n);
  }

  lemma {:induction false} ByteRoundTrip(b: byte)
    ensures Number("0X" + Hex2(b)) == Some(b)
  {
    hide HexDigit, Magnitude, Number;
    HexRead(Hex2(b));
    Magnitude4(0, 0, b / 16, b % 16);
  }

  lemma {:induction false} AddressRoundTrip(a: address)
    ensures Number("0X" + Hex3(a)) == Some(a)
  {
    hide HexDigit, Magnitude, Number;
    HexRead(Hex3(a));
    Magnitude4(0, a / 256, a / 16 % 16, a % 16);
  }

  lemma {:induction false} WordRoundTrip(w: word)
    ensures Number("0X" + Hex4(w)) == Some(w)
  {
    var a: int, b: int, c: int, d: int := w / 4096, w / 256 % 16, w / 16 % 16, w % 16;
    WordDigits(w);
    FourRead(a, b, c, d);
    hide HexDigit, Magnitude, Number;
  }

  lemma WordDigits(w: word)
    ensures 0x1000 * (w / 4096) + 0x100 * (w / 256 % 16) + 0x10 * (w / 16 % 16) + w % 16 == w
  {
    var v: int := w;
    assert v / 256 == v / 4096 * 16 + v / 256 % 16;
    assert v / 16 == v / 256 * 16 + v / 16 % 16;
  }

  lemma {:induction false} FourRead(a: nibble, b: nibble, c: nibble, d: nibble)
    ensures Number("0X" + [HexDigit(a), HexDigit(b), HexDigit(c), HexDigit(d)]) == Some(0x1000 * a + 0x100 * b + 0x10 * c + d)
  {
    hide HexDigit, Magnitude, Number;
    HexRead([HexDigit(a), HexDigit(b), HexDigit(c), HexDigit(d)]);
    Magnitude4(a, b, c, d);
  }

  ghost predicate HexText(s: string)
  {
    0 < |s| <= 4 && forall i :: 0 <= i < |s| ==> exists n: nibble :: s[i] == HexDigit(n)
  }

  lemma {:induction false} MagnitudeBound(s: string)
    requires AllDigits(s, 16)
    ensures |s| <= 4 ==> Magnitude(s, 16) < 0x10000
    ensures |s| <= 3 ==> Magnitude(s, 16) < 0x1000
    ensures |s| <= 2 ==> Magnitude(s, 16) < 0x100
    ensures |s| <= 1 ==> Magnitude(s, 16) < 0x10
    ensures |s| == 0 ==> Magnitude(s, 16) == 0
  {
    if s != "" { MagnitudeBound(s[..|s| - 1]); }
  }

  lemma {:induction false} HexRead(s: string)
    requires HexText(s)
    ensures Number("0X" + s) == Some(Magnitude(s, 16))
  {
    forall i | 0 <= i < |s| ensures DigitValue(s[i]) < 16 {
      var n: nibble :| s[i] == HexDigit(n);
      DigitBack(n);
    }
    MagnitudeBound(s);
    ReadHex(s);
  }
}
