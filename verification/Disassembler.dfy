/** The disassembler's static analysis and its assembler-source output: which
    words are instructions, where control can go, which addresses get a label,
    and the text printed for them. */
module Disas {
  import opened Chip8
  import opened Text

  type Rom = r: seq<byte> | |r| <= 0xE00

  predicate ValidOpcode(op: word)
  {
    if op == 0x00E0 || op == 0x00EE then true
    else match Top(op)
      case 0x0 => false
      case 0x5 => N(op) == 0
      case 0x9 => N(op) == 0
      case 0x8 => N(op) <= 7 || N(op) == 0xE
      case 0xE => KK(op) == 0x9E || KK(op) == 0xA1
      case 0xF => KK(op) in {0x07, 0x0A, 0x15, 0x18, 0x1E, 0x29, 0x33, 0x55, 0x65}
      case _ => true
  }

  predicate Labelable(addr: int, size: nat)
  {
    ENTRYPOINT <= addr && addr + 1 < ENTRYPOINT + size && addr % 2 == 0
  }

  /** The memory image of a ROM: zero outside it. */
  function Image(rom: Rom): (m: Memory)
    ensures forall k :: 0 <= k < |rom| ==> m[0x200 + k] == rom[k]
  {
    seq(0x1000, a requires 0 <= a < 0x1000 => if 0x200 <= a < 0x200 + |rom| then rom[a - 0x200] else 0)
  }

  // -------------------------------------------------------------- leaders

  predicate ValidSkip(op: word)
  {
    Top(op) in {3, 4} || (Top(op) in {5, 9} && N(op) == 0) || (Top(op) == 0xE && (KK(op) == 0x9E || KK(op) == 0xA1))
  }

  predicate EndsBlock(op: word)
  {
    op == 0x00EE || Top(op) in {1, 0xB}
  }

  /** What the word at `pc` makes a leader. */
  predicate Makes(op: word, pc: int, size: nat, a: int)
  {
    || (Top(op) in {1, 2} && Labelable(NNN(op), size) && a == NNN(op))
    || (ValidSkip(op) && (a == pc + 2 || a == pc + 4) && a < ENTRYPOINT + size)
    || (EndsBlock(op) && a == pc + 2 < ENTRYPOINT + size)
  }

  /** The words of the ROM that lie below `hi`. */
  predicate WordBelow(pc: int, size: nat, hi: int)
  {
    ENTRYPOINT <= pc < hi && pc + 1 < ENTRYPOINT + size && pc % 2 == 0
  }

  ghost predicate LeadsBelow(mem: Memory, size: nat, hi: int, a: int)
  {
    a == ENTRYPOINT || exists pc :: WordBelow(pc, size, hi) && Makes(OpAt(mem, pc), pc, size, a)
  }

  /** Address `a` starts a basic block. */
  ghost predicate Leads(mem: Memory, size: nat, a: int)
  {
    LeadsBelow(mem, size, 0x1000, a)
  }

  // ------------------------------------------------------------ reachability

  /** Where control can go from a valid instruction, as far as its own bits
      tell; a computed jump is taken to have V0 = 0. */
  function StaticNext(op: word, pc: int): set<int>
  {
    if op == 0x00EE then {}
    else match Top(op)
      case 0x1 => {NNN(op) as int}
      case 0xB => {NNN(op) as int}
      case 0x2 => {NNN(op) as int, pc + 2}
      case 0x3 => {pc + 2, pc + 4}
      case 0x4 => {pc + 2, pc + 4}
      case 0x5 => {pc + 2, pc + 4}
      case 0x9 => {pc + 2, pc + 4}
      case 0xE => {pc + 2, pc + 4}
      case _ => {pc + 2}
  }

  /** A word-aligned address in the ROM that holds a valid instruction. */
  predicate Live(mem: Memory, size: nat, a: int)
  {
    Labelable(a, size) && ValidOpcode(OpAt(mem, a))
  }

  ghost predicate Closed(mem: Memory, size: nat, s: set<int>)
  {
    && (Live(mem, size, ENTRYPOINT) ==> ENTRYPOINT in s)
    && forall p, q :: p in s && q in StaticNext(OpAt(mem, p), p) && Live(mem, size, q) ==> q in s
  }

  /** In every closed set. */
  ghost predicate Forced(mem: Memory, size: nat, a: int)
  {
    forall s: set<int> :: Closed(mem, size, s) ==> a in s
  }

  /** The least set of live words that holds the entry point, if live, and is
      closed under static successors. */
  ghost function Reachable(mem: Memory, size: nat): set<int>
  {
    set a | 0 <= a < 0x1000 && Live(mem, size, a) && Forced(mem, size, a)
  }

  function Even(a: int): int { a - a % 2 }

  // ----------------------------------------------------------------- gluing

  /** `a` starts a maximal run of unreachable bytes. */
  predicate RunStart(reach: seq<bool>, a: int)
    requires |reach| == 0x1000 && ENTRYPOINT <= a < 0x1000
  {
    !reach[a] && (a == ENTRYPOINT || reach[a - 1])
  }

  /** Whether `a` keeps its label: dead runs keep one, at their start. */
  predicate Glued(leader: seq<bool>, reach: seq<bool>, size: nat, a: int)
    requires |leader| == |reach| == 0x1000 && 0 <= a < 0x1000
  {
    if !(ENTRYPOINT <= a < ENTRYPOINT + size) || reach[a] then leader[a]
    else RunStart(reach, a) && (Labelable(a, size) || leader[a])
  }

  // --------------------------------------------------------------- printing

  datatype View = View(mem: Memory, size: nat, leader: seq<bool>, reach: seq<bool>, all: bool) {
    ghost predicate Valid()
    {
      size <= 0xE00 && |leader| == |reach| == 0x1000
    }

    function Op(k: nat): word { OpAt(mem, 0x200 + 2 * k) }
  }

  function Label(a: address): string { "block" + Hex3(a) }

  function V(x: nibble): string { ['V', HexDigit(x)] }

  function Literal(digits: string): string { "0x" + digits }

  /** An address operand: the label when there is one. */
  function Target(leader: seq<bool>, a: address): string
    requires |leader| == 0x1000
  {
    if leader[a] then Label(a) else Literal(Hex3(a))
  }

  function ArithStatement(op: word): Option<seq<string>>
  {
    var x, y := V(X(op)), V(Y(op));
    match N(op)
    case 0x0 => Some(["LD", x, y])
    case 0x1 => Some(["OR", x, y])
    case 0x2 => Some(["AND", x, y])
    case 0x3 => Some(["XOR", x, y])
    case 0x4 => Some(["ADD", x, y])
    case 0x5 => Some(["SUB", x, y])
    case 0x6 => Some(["SHR", x, y])
    case 0x7 => Some(["SUBN", x, y])
    case 0xE => Some(["SHL", x, y])
    case _ => None
  }

  function MiscStatement(op: word): Option<seq<string>>
  {
    var x := V(X(op));
    match KK(op)
    case 0x07 => Some(["LD", x, "DT"])
    case 0x0A => Some(["LD", x, "K"])
    case 0x15 => Some(["LD", "DT", x])
    case 0x18 => Some(["LD", "ST", x])
    case 0x1E => Some(["ADD", "I", x])
    case 0x29 => Some(["LD", "F", x])
    case 0x33 => Some(["LD", "B", x])
    case 0x55 => Some(["LD", "[I]", x])
    case 0x65 => Some(["LD", x, "[I]"])
    case _ => None
  }

  /** The mnemonic and operands of an opcode; None is raw_word. */
  function Statement(op: word, leader: seq<bool>): (r: Option<seq<string>>)
    requires |leader| == 0x1000
    ensures r.Some? ==> r.value != []
  {
    var x, y := V(X(op)), V(Y(op));
    var kk := Literal(Hex2(KK(op)));
    if op == 0x00E0 then Some(["CLS"])
    else if op == 0x00EE then Some(["RET"])
    else match Top(op)
      case 0x0 => None
      case 0x1 => Some(["JP", Target(leader, NNN(op))])
      case 0x2 => Some(["CALL", Target(leader, NNN(op))])
      case 0x3 => Some(["SE", x, kk])
      case 0x4 => Some(["SNE", x, kk])
      case 0x5 => if N(op) == 0 then Some(["SE", x, y]) else None
      case 0x6 => Some(["LD", x, kk])
      case 0x7 => Some(["ADD", x, kk])
      case 0x8 => ArithStatement(op)
      case 0x9 => if N(op) == 0 then Some(["SNE", x, y]) else None
      case 0xA => Some(["LD", "I", Target(leader, NNN(op))])
      case 0xB => Some(["JP", "V0", Literal(Hex3(NNN(op)))])
      case 0xC => Some(["RND", x, kk])
      case 0xD => Some(["DRW", x, y, Literal([HexDigit(N(op))])])
      case 0xE => if KK(op) == 0x9E then Some(["SKP", x]) else if KK(op) == 0xA1 then Some(["SKNP", x]) else None
      case 0xF => MiscStatement(op)
  }

  const WARNING: string := " ; WARNING: indirect jump, " + "block analysis may be incomplete"

  function RawWord(op: word): (r: seq<string>)
    ensures |r| == 2
  {
    [".word", Literal(Hex4(op))]
  }

  /** The words printed for word `k` of the ROM. */
  function Words(v: View, k: nat): (r: seq<string>)
    requires v.Valid() && 2 * k + 1 < v.size
    ensures r != []
  {
    if !v.all && !v.reach[0x200 + 2 * k] then RawWord(v.Op(k))
    else match Statement(v.Op(k), v.leader)
      case Some(ws) => ws
      case None => RawWord(v.Op(k))
  }

  /** The comment behind them. */
  function Remark(v: View, k: nat): string
    requires v.Valid() && 2 * k + 1 < v.size
  {
    if !v.all && !v.reach[0x200 + 2 * k] then " ; data (unreachable)"
    else
      (if Statement(v.Op(k), v.leader).None? then " ; unrecognized opcode"
       else if Top(v.Op(k)) == 0xB then WARNING
       else "")
      + if v.reach[0x200 + 2 * k] then "" else " ; unreachable"
  }

  function Separated(ws: seq<string>): string
  {
    if ws == [] then "" else ", " + ws[0] + Separated(ws[1..])
  }

  /** A mnemonic, a space, and operands separated by commas. */
  function Render(ws: seq<string>): string
    requires ws != []
  {
    if |ws| == 1 then ws[0] else ws[0] + " " + ws[1] + Separated(ws[2..])
  }

  const INDENT: string := "        "

  function LabelLine(a: address): string { Label(a) + ":\n" }

  function LabelLines(v: View, a: address): seq<string>
    requires v.Valid()
  {
    if v.leader[a] then [LabelLine(a)] else []
  }

  function WordLine(v: View, k: nat): string
    requires v.Valid() && 2 * k + 1 < v.size
  {
    INDENT + Render(Words(v, k)) + Remark(v, k) + "\n"
  }

  /** The lines for the first `k` words. */
  function Listing(v: View, k: nat): seq<string>
    requires v.Valid() && 2 * k <= v.size
  {
    if k == 0 then [] else Listing(v, k - 1) + LabelLines(v, 0x200 + 2 * (k - 1)) + [WordLine(v, k - 1)]
  }

  function TrailingByte(v: View): byte
    requires v.Valid() && v.size % 2 == 1
  {
    v.mem[0x200 + v.size - 1]
  }

  function TrailingLine(b: byte): string
  {
    INDENT + Render([".byte", Literal(Hex2(b))]) + "\n"
  }

  /** The lines of the whole ROM; an odd one ends in a single byte. */
  function AllLines(v: View): seq<string>
    requires v.Valid()
  {
    Listing(v, v.size / 2) +
    if v.size % 2 == 0 then []
    else LabelLines(v, 0x200 + v.size - 1) + [TrailingLine(TrailingByte(v))]
  }

  function Flatten(lines: seq<string>): string
  {
    if lines == [] then "" else Flatten(lines[..|lines| - 1]) + lines[|lines| - 1]
  }

  lemma {:induction false} FlattenMore(a: seq<string>, b: seq<string>)
    ensures Flatten(a + b) == Flatten(a) + Flatten(b)
    decreases |b|
  {
    hide Flatten;
    FlattenFew("");
    if b == [] {
      assert a + b == a;
    } else {
      var front, last := b[..|b| - 1], b[|b| - 1];
      FlattenMore(a, front);
      assert a + b == a + front + [last];
      FlattenLast(a + front, last);
      FlattenLast(front, last);
      assert front + [last] == b;
      Associative(Flatten(a), Flatten(front), last);
    }
  }

  lemma Associative(x: string, y: string, z: string)
    ensures x + y + z == x + (y + z)
  {}

  lemma {:induction false} FlattenLast(front: seq<string>, last: string)
    ensures Flatten(front + [last]) == Flatten(front) + last
  {
    assert (front + [last])[..|front|] == front;
  }

  lemma {:induction false} FlattenFew(line: string)
    ensures Flatten([line]) == line && Flatten([]) == ""
  {
    assert [line][..0] == [];
  }

  /** The analysis results the printer works from. */
  ghost function ViewOf(rom: Rom, all: bool): (v: View)
    ensures v.Valid()
  {
    var mem, size := Image(rom), |rom|;
    var leader := seq(0x1000, a requires 0 <= a < 0x1000 => Leads(mem, size, a));
    var reach := seq(0x1000, a requires 0 <= a < 0x1000 => Even(a) in Reachable(mem, size));
    View(mem, size, seq(0x1000, a requires 0 <= a < 0x1000 => Glued(leader, reach, size, a)), reach, all)
  }

  /** The output of --asm. */
  ghost function Disassembly(rom: Rom, all: bool): string
  {
    Flatten(AllLines(ViewOf(rom, all)))
  }
}
