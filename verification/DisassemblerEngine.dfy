/** The disassembler in its own form: leader, reach and class tables filled in
    place, the explicit descent stack, and the output loop. */
module DisasEngine {
  import opened Chip8
  import opened Text
  import opened Disas

  const UNKNOWN: int := 0
  const CODE: int := 1
  const DATA: int := 2
  const DESCENT_STACK: int := 2048

  /** What descending from one word does next: fall through to `next` (0 ends
      the path) after setting `push` aside (negative for none). */
  datatype Way = Way(next: int, push: int)

  class Disassembler {
    const memory: array<byte>
    const leader: array<bool>
    const reach: array<bool>
    const kind: array<int>
    const size: nat

    ghost predicate Valid()
      reads this
    {
      && size <= 0xE00
      && memory.Length == leader.Length == reach.Length == kind.Length == 0x1000
      && leader != reach
    }

    constructor (rom: Rom)
      ensures Valid() && size == |rom| && memory[..] == Image(rom)
      ensures fresh(memory) && fresh(leader) && fresh(reach) && fresh(kind)
      ensures forall a :: 0 <= a < 0x1000 ==> !leader[a] && !reach[a] && kind[a] == UNKNOWN
    {
      memory := new byte[0x1000](a requires 0 <= a < 0x1000 => Image(rom)[a]);
      leader := new bool[0x1000](_ => false);
      reach := new bool[0x1000](_ => false);
      kind := new int[0x1000](_ => UNKNOWN);
      size := |rom|;
    }

    method WordAt(pc: int) returns (op: word)
      requires Valid() && ENTRYPOINT <= pc && pc + 1 < ENTRYPOINT + size
      ensures op == OpAt(memory[..], pc)
    {
      var high: int, low: int := memory[pc], memory[pc + 1];
      op := high * 0x100 + low;
    }

    // ------------------------------------------------------------- analyze

    /** One round of the leader scan. */
    method MarkLeaders(pc: int, op: word)
      requires Valid() && WordBelow(pc, size, 0x1000)
      modifies leader
      ensures forall a :: 0 <= a < 0x1000 ==> (leader[a] <==> old(leader[a]) || Makes(op, pc, size, a))
    {
      hide Top, NNN, N, KK, Labelable;
      ReturnTop(op);
      var end := ENTRYPOINT + size;
      var skip, endsBlock := false, false;
      match Top(op) {
        case 0x0 => endsBlock := op == 0x00EE;
        case 0x1 => MarkTarget(NNN(op)); endsBlock := true;
        case 0x2 => MarkTarget(NNN(op));
        case 0x3 | 0x4 => skip := true;
        case 0x5 | 0x9 => skip := N(op) == 0;
        case 0xB => endsBlock := true;
        case 0xE => skip := KK(op) == 0x9E || KK(op) == 0xA1;
        case _ =>
      }
      if skip {
        if pc + 2 < end { leader[pc + 2] := true; }
        if pc + 4 < end { leader[pc + 4] := true; }
      }
      if endsBlock && pc + 2 < end { leader[pc + 2] := true; }
    }

    method MarkTarget(a: address)
      requires Valid()
      modifies leader
      ensures forall b :: 0 <= b < 0x1000 ==> (leader[b] <==> old(leader[b]) || (Labelable(a, size) && b == a))
    {
      if Labelable(a, size) { leader[a] := true; }
    }

    method Analyze()
      requires Valid() && forall a :: 0 <= a < 0x1000 ==> !leader[a]
      modifies leader
      ensures forall a :: 0 <= a < 0x1000 ==> (leader[a] <==> Leads(memory[..], size, a))
    {
      hide OpAt, Makes, LeadsBelow;
      leader[ENTRYPOINT] := true;
      var pc := ENTRYPOINT;
      NoneBelow(memory[..], size);
      while pc + 1 < ENTRYPOINT + size
        invariant ENTRYPOINT <= pc <= 0x1000 && pc % 2 == 0
        invariant forall a :: 0 <= a < 0x1000 ==> (leader[a] <==> LeadsBelow(memory[..], size, pc, a))
      {
        var op := WordAt(pc);
        MoreBelow(memory[..], size, pc);
        MarkLeaders(pc, op);
        pc := pc + 2;
      }
      AllBelow(memory[..], size, pc);
    }

    // ------------------------------------------------------------- descend

    method MarkData(addr: int, len: nat)
      requires Valid() && 0 <= addr
      modifies kind
      ensures forall a :: 0 <= a < 0x1000 ==> (kind[a] == CODE <==> old(kind[a]) == CODE)
    {
      var a := addr;
      while a < addr + len && a < ENTRYPOINT + size
        invariant forall b :: 0 <= b < 0x1000 ==> (kind[b] == CODE <==> old(kind[b]) == CODE)
        invariant addr <= a
      {
        if a < MEMORY_SIZE && kind[a] != CODE { kind[a] := DATA; }
        a := a + 1;
      }
    }

    /** The sprite, BCD and register-dump bytes an instruction touches, when the
        last LD I is known. */
    method NoteData(op: word, lastLdi: Option<address>)
      requires Valid()
      modifies kind
      ensures forall a :: 0 <= a < 0x1000 ==> (kind[a] == CODE <==> old(kind[a]) == CODE)
    {
      if lastLdi.Some? {
        var len: nat := if Top(op) == 0xD then N(op)
          else if Top(op) == 0xF && KK(op) == 0x33 then 3
          else if Top(op) == 0xF && (KK(op) == 0x55 || KK(op) == 0x65) then X(op) + 1
          else 0;
        MarkData(lastLdi.value, len);
      }
    }

    method Follow(op: word, pc: int) returns (w: Way)
      requires Valid() && WordBelow(pc, size, 0x1000) && ValidOpcode(op)
      ensures Covers(w, op, pc, size)
    {
      hide Top, NNN, N, KK;
      ReturnTop(op);
      var end := ENTRYPOINT + size;
      var next, push: int := pc + 2, -1;
      match Top(op) {
        case 0x0 => if op == 0x00EE { next := 0; }
        case 0x1 => next := 0; if Labelable(NNN(op), size) { push := NNN(op); }
        case 0x2 => if Labelable(NNN(op), size) { push := NNN(op); }
        case 0x3 | 0x4 | 0x5 | 0x9 | 0xE => if pc + 4 < end { push := pc + 4; }
        case 0xB => next := 0; if Labelable(NNN(op), size) { push := NNN(op); }
        case _ =>
      }
      w := Way(next, push);
    }

    /** Mark the word at `pc` as executed. */
    method MarkCode(pc: int, ghost code: set<int>)
      requires Valid() && WordBelow(pc, size, 0x1000) && Marked(reach[..], kind[..], code)
      modifies reach, kind
      ensures Marked(reach[..], kind[..], code + {pc})
    {
      reach[pc], reach[pc + 1] := true, true;
      kind[pc], kind[pc + 1] := CODE, CODE;
    }

    /** Mark one valid word and decide where to go from it. */
    method Visit(pc: int, op: word, lastLdi: Option<address>, ghost code: set<int>) returns (w: Way, ldi: Option<address>)
      requires Valid() && WordBelow(pc, size, 0x1000) && op == OpAt(memory[..], pc) && ValidOpcode(op)
      requires Marked(reach[..], kind[..], code)
      modifies reach, kind
      ensures Marked(reach[..], kind[..], code + {pc}) && Covers(w, op, pc, size)
    {
      hide OpAt, StaticNext, Marked, Covers, ValidOpcode, Top, NNN;
      MarkCode(pc, code);
      w := Follow(op, pc);
      ghost var kinds := kind[..];
      NoteData(op, lastLdi);
      SameKind(reach[..], kinds, kind[..], code + {pc});
      ldi := if Top(op) == 0xA then Some(NNN(op)) else lastLdi;
    }

    /** Follow one path until it ends, setting branches aside on the stack. */
    method Walk(start: int, stack: array<int>, from: nat, ghost before: set<int>) returns (sp: nat, ghost code: set<int>)
      requires Valid() && stack.Length == DESCENT_STACK && stack != kind
      requires Marked(reach[..], kind[..], before) && before <= Evens(1792) && from <= |before| <= 1792
      requires Traced(memory[..], size, before, stack[..from] + [start])
      modifies reach, kind, stack
      ensures Marked(reach[..], kind[..], code) && code <= Evens(1792) && sp <= |code| <= 1792
      ensures Traced(memory[..], size, code, stack[..sp])
      ensures |code| > |before| || (code == before && sp == from)
    {
      hide OpAt, Live, StaticNext, Reachable, Marked, Covers, ValidOpcode, Traced, Evens;
      ghost var mem: Memory := memory[..];
      var pc, ldi: Option<address> := start, None;
      sp, code := from, before;
      PendingEven(mem, size, code, stack[..sp], pc);
      while pc + 1 < ENTRYPOINT + size && !reach[pc]
        invariant Marked(reach[..], kind[..], code) && ENTRYPOINT <= pc && pc % 2 == 0
        invariant code <= Evens(1792) && sp <= |code| <= 1792
        invariant Traced(mem, size, code, stack[..sp] + [pc])
        invariant |code| > |before| || (code == before && sp == from)
        decreases 1792 - |code|
      {
        var op := WordAt(pc);
        if !ValidOpcode(op) {
          break;
        }
        ghost var held := stack[..sp];
        MarkedKind(reach[..], kind[..], code, pc);
        var w, l := Visit(pc, op, ldi, code);
        TraceWord(mem, size, code, held, pc, w);
        code, ldi := code + {pc}, l;
        if w.push >= 0 {
          stack[sp] := w.push;
          sp := sp + 1;
        }
        assert stack[..sp] == held + Pushed(w);
        if w.next == 0 {
          break;
        }
        pc := w.next;
        PendingEven(mem, size, code, stack[..sp], pc);
      }
      if pc + 1 < ENTRYPOINT + size { MarkedKind(reach[..], kind[..], code, pc); }
      DropDone(mem, size, code, stack[..sp], pc, reach[..], kind[..]);
    }

    /** Recursive descent with an explicit stack, which never overflows: each
        newly marked word pushes at most one entry. */
    method Descend()
      requires Valid() && Marked(reach[..], kind[..], {})
      modifies reach, kind
      ensures Marked(reach[..], kind[..], Reachable(memory[..], size))
    {
      hide OpAt, Live, StaticNext, Reachable, Marked, Covers, ValidOpcode, Traced, Evens;
      ghost var code: set<int> := {};
      var stack := new int[DESCENT_STACK];
      stack[0] := ENTRYPOINT;
      var sp: nat := 1;
      StartTrace(memory[..], size);
      assert stack[..1] == [ENTRYPOINT];
      while sp > 0
        invariant Marked(reach[..], kind[..], code)
        invariant code <= Evens(1792) && sp <= |code| + 1 <= 1793
        invariant Traced(memory[..], size, code, stack[..sp])
        decreases 1792 - |code|, sp
      {
        sp := sp - 1;
        assert stack[..sp + 1] == stack[..sp] + [stack[sp]];
        sp, code := Walk(stack[sp], stack, sp, code);
      }
      assert stack[..0] == [];
      TraceDone(memory[..], size, code);
    }

    // ---------------------------------------------------------------- glue

    /** Keep one label per run of unreachable bytes. */
    method Glue()
      requires Valid()
      modifies leader
      ensures forall a :: 0 <= a < 0x1000 ==> (leader[a] <==> Glued(old(leader[..]), reach[..], size, a))
    {
      hide Labelable;
      var end := ENTRYPOINT + size;
      var pc := ENTRYPOINT;
      ghost var was := leader[..];
      while pc < end
        invariant ENTRYPOINT <= pc <= end
        invariant pc < end && pc > ENTRYPOINT && !reach[pc] ==> reach[pc - 1]
        invariant forall a :: 0 <= a < 0x1000 ==> (leader[a] <==> if a < pc then Glued(was, reach[..], size, a) else was[a])
      {
        if reach[pc] {
          pc := pc + 1;
        } else {
          var start := pc;
          while pc < end && !reach[pc]
            invariant start <= pc <= end
            invariant forall a :: start <= a < pc ==> !reach[a]
          {
            pc := pc + 1;
          }
          if Labelable(start, size) { leader[start] := true; }
          ClearLeaders(start + 1, pc);
        }
      }
    }

    method ClearLeaders(from: int, to: int)
      requires Valid() && 0 <= from <= to <= 0x1000
      modifies leader
      ensures forall a :: 0 <= a < 0x1000 ==> (leader[a] <==> old(leader[a]) && !(from <= a < to))
    {
      for a := from to to
        invariant forall b :: 0 <= b < 0x1000 ==> (leader[b] <==> old(leader[b]) && !(from <= b < a))
      {
        leader[a] := false;
      }
    }

    // -------------------------------------------------------------- output

    ghost function State(all: bool): (v: View)
      requires Valid()
      reads this, memory, leader, reach
      ensures v.Valid()
    {
      View(memory[..], size, leader[..], reach[..], all)
    }

    method PrintLabel(all: bool, a: address) returns (text: string)
      requires Valid()
      ensures text == LabelText(State(all), a)
    {
      hide LabelLine, LabelText;
      LabelPrinted(State(all), a);
      text := if leader[a] then LabelLine(a) else "";
    }

    /** The text of the word at `pc`, in assembler syntax. */
    method PrintWord(all: bool, k: nat) returns (text: string)
      requires Valid() && 2 * k + 1 < size
      ensures text == WordLine(State(all), k)
    {
      hide OpAt, Statement, Render, RawWord, Top;
      var pc := ENTRYPOINT + 2 * k;
      var op := WordAt(pc);
      var words, remark := RawWord(op), " ; data (unreachable)";
      if all || reach[pc] {
        remark := "";
        match Statement(op, leader[..]) {
          case Some(ws) =>
            words := ws;
            if Top(op) == 0xB { remark := WARNING; }
          case None =>
            remark := " ; unrecognized opcode";
        }
        if !reach[pc] { remark := remark + " ; unreachable"; }
      }
      text := INDENT + Render(words) + remark + "\n";
    }

    method PrintTrailingByte(all: bool) returns (text: string)
      requires Valid() && size % 2 == 1
      ensures text == TrailingLine(TrailingByte(State(all)))
    {
      text := TrailingLine(memory[ENTRYPOINT + size - 1]);
    }

    /** The --asm output loop. */
    method Print(all: bool) returns (text: string)
      requires Valid()
      ensures text == Flatten(AllLines(State(all)))
    {
      hide WordLine, LabelLine, AllLines, Listing, Flatten, LabelText, TrailingLine, TrailingByte;
      ghost var v := State(all);
      ListingEnds(v);
      text := "";
      var k := 0;
      while 2 * k + 1 < size
        invariant 2 * k <= size && text == Flatten(Listing(v, k))
      {
        ListingMore(v, k);
        var name := PrintLabel(all, ENTRYPOINT + 2 * k);
        var line := PrintWord(all, k);
        text := text + name + line;
        k := k + 1;
      }
      if size % 2 == 1 {
        var name := PrintLabel(all, ENTRYPOINT + size - 1);
        var line := PrintTrailingByte(all);
        text := text + name + line;
      }
    }

    /** Analyze, descend, glue, and print. */
    method DisassembleRom(ghost rom: Rom, all: bool) returns (text: string)
      requires Valid() && size == |rom| && memory[..] == Image(rom)
      requires forall a :: 0 <= a < 0x1000 ==> !leader[a] && !reach[a] && kind[a] == UNKNOWN
      modifies leader, reach, kind
      ensures text == Disassembly(rom, all)
    {
      hide Leads, Glued, Reachable, AllLines, Flatten, Image, Marked;
      NothingMarked(reach[..], kind[..]);
      Analyze();
      ghost var leaders := leader[..];
      Descend();
      ReachIs(reach[..], kind[..], Reachable(memory[..], size));
      Glue();
      ViewIs(rom, all, leaders, leader[..], reach[..]);
      text := Print(all);
    }
  }

  lemma NothingMarked(reach: seq<bool>, kind: seq<int>)
    requires |reach| == |kind| == 0x1000
    requires forall a :: 0 <= a < 0x1000 ==> !reach[a] && kind[a] == UNKNOWN
    ensures Marked(reach, kind, {})
  {}

  lemma {:induction false} ReachIs(reach: seq<bool>, kind: seq<int>, code: set<int>)
    requires Marked(reach, kind, code)
    ensures forall a :: 0 <= a < 0x1000 ==> (reach[a] <==> Even(a) in code)
  {}

  /** The finished tables are the view the printer is specified on. */
  lemma {:induction false} ViewIs(rom: Rom, all: bool, leaders: seq<bool>, leader: seq<bool>, reach: seq<bool>)
    requires |leaders| == |leader| == |reach| == 0x1000
    requires forall a :: 0 <= a < 0x1000 ==> (leaders[a] <==> Leads(Image(rom), |rom|, a))
    requires forall a :: 0 <= a < 0x1000 ==> (reach[a] <==> Even(a) in Reachable(Image(rom), |rom|))
    requires forall a :: 0 <= a < 0x1000 ==> (leader[a] <==> Glued(leaders, reach, |rom|, a))
    ensures View(Image(rom), |rom|, leader, reach, all) == ViewOf(rom, all)
  {
    hide Leads, Glued, Reachable, Image;
    var v := ViewOf(rom, all);
    assert leaders == seq(0x1000, a requires 0 <= a < 0x1000 => Leads(Image(rom), |rom|, a));
    assert reach == v.reach;
    assert leader == v.leader;
  }

  ghost function LabelText(v: View, a: address): string
    requires v.Valid()
  {
    Flatten(LabelLines(v, a))
  }

  lemma {:induction false} LabelPrinted(v: View, a: address)
    requires v.Valid()
    ensures LabelText(v, a) == if v.leader[a] then LabelLine(a) else ""
  {
    FlattenFew(LabelLine(a));
    hide Flatten, LabelLine;
  }

  lemma {:induction false} ListingMore(v: View, k: nat)
    requires v.Valid() && 2 * k + 1 < v.size
    ensures Flatten(Listing(v, k + 1)) == Flatten(Listing(v, k)) + LabelText(v, 0x200 + 2 * k) + WordLine(v, k)
  {
    hide Flatten, WordLine, LabelLines;
    FlattenMore(Listing(v, k), LabelLines(v, 0x200 + 2 * k));
    FlattenMore(Listing(v, k) + LabelLines(v, 0x200 + 2 * k), [WordLine(v, k)]);
    FlattenFew(WordLine(v, k));
  }

  lemma {:induction false} ListingEnds(v: View)
    requires v.Valid()
    ensures Flatten(Listing(v, 0)) == ""
    ensures v.size % 2 == 0 ==> Flatten(AllLines(v)) == Flatten(Listing(v, v.size / 2))
    ensures v.size % 2 == 1 ==>
      Flatten(AllLines(v)) == Flatten(Listing(v, v.size / 2)) + LabelText(v, 0x200 + v.size - 1) + TrailingLine(TrailingByte(v))
  {
    FlattenFew("");
    hide Flatten, TrailingLine, LabelText;
    if v.size % 2 == 0 {
      assert AllLines(v) == Listing(v, v.size / 2);
    } else {
      OddEnd(v);
    }
  }

  lemma {:induction false} OddEnd(v: View)
    requires v.Valid() && v.size % 2 == 1
    ensures Flatten(AllLines(v)) == Flatten(Listing(v, v.size / 2)) + LabelText(v, 0x200 + v.size - 1) + TrailingLine(TrailingByte(v))
  {
    hide Flatten, LabelLines, TrailingLine, Listing, TrailingByte;
    var front, a, line := Listing(v, v.size / 2), 0x200 + v.size - 1, TrailingLine(TrailingByte(v));
    FlattenMore(front, LabelLines(v, a));
    FlattenMore(front + LabelLines(v, a), [line]);
    FlattenFew(line);
    assert AllLines(v) == front + LabelLines(v, a) + [line];
  }

  lemma ReturnTop(op: word)
    ensures op == 0x00EE ==> Top(op) == 0
    ensures ValidOpcode(op) && Top(op) == 0 && op != 0x00EE ==> op == 0x00E0
  {
    hide N, KK;
  }

  // ------------------------------------------------------------ leader scan

  lemma {:induction false} NoneBelow(mem: Memory, size: nat)
    ensures forall a :: LeadsBelow(mem, size, ENTRYPOINT, a) <==> a == ENTRYPOINT
  {
    hide OpAt, Makes;
  }

  lemma {:induction false} MoreBelow(mem: Memory, size: nat, pc: int)
    requires WordBelow(pc, size, 0x1000)
    ensures forall a :: LeadsBelow(mem, size, pc + 2, a) <==> LeadsBelow(mem, size, pc, a) || Makes(OpAt(mem, pc), pc, size, a)
  {
    hide OpAt, Makes;
    forall a: int
      ensures LeadsBelow(mem, size, pc + 2, a) <==> LeadsBelow(mem, size, pc, a) || Makes(OpAt(mem, pc), pc, size, a)
    {
      MoreBelowAt(mem, size, pc, a);
    }
  }

  lemma {:induction false} MoreBelowAt(mem: Memory, size: nat, pc: int, a: int)
    requires WordBelow(pc, size, 0x1000)
    ensures LeadsBelow(mem, size, pc + 2, a) <==> LeadsBelow(mem, size, pc, a) || Makes(OpAt(mem, pc), pc, size, a)
  {
    hide OpAt, Makes;
    if p :| WordBelow(p, size, pc + 2) && Makes(OpAt(mem, p), p, size, a) {
      assert p == pc || WordBelow(p, size, pc);
    }
    if p :| WordBelow(p, size, pc) && Makes(OpAt(mem, p), p, size, a) {
      assert WordBelow(p, size, pc + 2);
    }
    if Makes(OpAt(mem, pc), pc, size, a) { assert WordBelow(pc, size, pc + 2); }
  }

  lemma {:induction false} AllBelow(mem: Memory, size: nat, pc: int)
    requires size <= 0xE00 && ENTRYPOINT + size <= pc + 1 && pc <= 0x1000
    ensures forall a :: LeadsBelow(mem, size, pc, a) <==> Leads(mem, size, a)
  {
    hide OpAt, Makes;
    forall a: int ensures LeadsBelow(mem, size, pc, a) <==> Leads(mem, size, a) {
      if p :| WordBelow(p, size, pc) && Makes(OpAt(mem, p), p, size, a) { assert WordBelow(p, size, 0x1000); }
      if p :| WordBelow(p, size, 0x1000) && Makes(OpAt(mem, p), p, size, a) { assert WordBelow(p, size, pc); }
    }
  }

  // ---------------------------------------------------------------- descent

  /** The tables say that exactly the words of `code` are code. */
  ghost predicate Marked(reach: seq<bool>, kind: seq<int>, code: set<int>)
  {
    && |reach| == |kind| == 0x1000
    && forall a :: 0 <= a < 0x1000 ==> (reach[a] <==> Even(a) in code) && (kind[a] == CODE <==> reach[a])
  }

  /** The successors of a word that may hold code are those set aside or next. */
  ghost predicate Covers(w: Way, op: word, pc: int, size: nat)
  {
    && (w.next == 0 || (w.next == pc + 2 && w.next in StaticNext(op, pc)))
    && (w.push >= 0 ==> w.push in StaticNext(op, pc) && w.push % 2 == 0 && w.push >= ENTRYPOINT)
    && forall q :: q in StaticNext(op, pc) && Labelable(q, size) ==> q == w.next || q == w.push
  }

  function Pushed(w: Way): seq<int>
  {
    if w.push >= 0 then [w.push] else []
  }

  /** Everything found or set aside so far is needed. */
  ghost predicate Needed(mem: Memory, size: nat, code: set<int>, pending: seq<int>)
  {
    && code <= Reachable(mem, size)
    && forall e :: e in pending ==> e >= ENTRYPOINT && e % 2 == 0 && (Live(mem, size, e) ==> e in Reachable(mem, size))
  }

  /** Whatever the code found so far leads to is found or still pending. */
  ghost predicate Complete(mem: Memory, size: nat, code: set<int>, pending: seq<int>)
  {
    && (Live(mem, size, ENTRYPOINT) ==> ENTRYPOINT in code || ENTRYPOINT in pending)
    && forall p, q :: p in code && q in StaticNext(OpAt(mem, p), p) && Live(mem, size, q) ==> q in code || q in pending
  }

  ghost predicate Traced(mem: Memory, size: nat, code: set<int>, pending: seq<int>)
  {
    Needed(mem, size, code, pending) && Complete(mem, size, code, pending)
  }

  /** The n even addresses from the entry point up. */
  function Evens(n: nat): set<int>
  {
    if n == 0 then {} else Evens(n - 1) + {0x200 + 2 * (n - 1)}
  }

  lemma {:induction false} InEvens(n: nat, a: int)
    ensures a in Evens(n) <==> 0x200 <= a < 0x200 + 2 * n && a % 2 == 0
  {
    if n > 0 { InEvens(n - 1, a); }
  }

  lemma {:induction false} EvensCount(n: nat)
    ensures |Evens(n)| == n
  {
    if n > 0 {
      EvensCount(n - 1);
      InEvens(n - 1, 0x200 + 2 * (n - 1));
    }
  }

  lemma {:induction false} FewWords(code: set<int>)
    requires code <= Evens(1792)
    ensures |code| <= 1792
  {
    EvensCount(1792);
    Subset(code, Evens(1792));
  }

  lemma {:induction false} Subset(a: set<int>, b: set<int>)
    requires a <= b
    ensures |a| <= |b|
  {
    assert b == a + (b - a);
  }

  lemma {:induction false} MarkedKind(reach: seq<bool>, kind: seq<int>, code: set<int>, pc: int)
    requires Marked(reach, kind, code) && 0 <= pc < 0x1000 && pc % 2 == 0
    ensures reach[pc] <==> pc in code
  {}

  lemma {:induction false} SameKind(reach: seq<bool>, was: seq<int>, kind: seq<int>, code: set<int>)
    requires Marked(reach, was, code) && |kind| == 0x1000
    requires forall a :: 0 <= a < 0x1000 ==> (kind[a] == CODE <==> was[a] == CODE)
    ensures Marked(reach, kind, code)
  {}

  lemma {:induction false} PendingEven(mem: Memory, size: nat, code: set<int>, pending: seq<int>, pc: int)
    requires Traced(mem, size, code, pending + [pc])
    ensures pc >= ENTRYPOINT && pc % 2 == 0
  {
    hide Live, Reachable, StaticNext, OpAt;
    assert pc in pending + [pc];
  }

  lemma {:induction false} StartTrace(mem: Memory, size: nat)
    ensures Traced(mem, size, {}, [ENTRYPOINT])
  {
    hide OpAt, StaticNext;
  }

  /** A successor of a needed word is needed. */
  lemma {:induction false} ReachableClosed(mem: Memory, size: nat)
    requires size <= 0xE00
    ensures Closed(mem, size, Reachable(mem, size))
  {
    hide OpAt, StaticNext, ValidOpcode;
    forall p, q | p in Reachable(mem, size) && q in StaticNext(OpAt(mem, p), p) && Live(mem, size, q)
      ensures Forced(mem, size, q)
    {
      assert Forced(mem, size, p);
    }
    assert Forced(mem, size, ENTRYPOINT) || !Live(mem, size, ENTRYPOINT);
  }

  lemma {:induction false} MarkCount(code: set<int>, pc: int, size: nat)
    requires size <= 0xE00 && code <= Evens(1792) && pc !in code && WordBelow(pc, size, 0x1000)
    ensures code + {pc} <= Evens(1792) && |code + {pc}| == |code| + 1 <= 1792
  {
    InEvens(1792, pc);
    FewWords(code + {pc});
    hide Evens;
  }

  lemma InPending(a: seq<int>, b: seq<int>, e: int)
    ensures e in a + b <==> e in a || e in b
  {}

  function Onward(before: seq<int>, pc: int, w: Way): seq<int>
  {
    before + Pushed(w) + [if w.next == 0 then pc else w.next]
  }

  lemma {:induction false} OnwardHolds(before: seq<int>, pc: int, w: Way)
    ensures forall e ::
      e in Onward(before, pc, w) <==> e in before || (w.push >= 0 && e == w.push) || e == if w.next == 0 then pc else w.next
    ensures forall e :: e in before + [pc] <==> e in before || e == pc
  {
    forall e: int
      ensures e in Onward(before, pc, w) <==> e in before || e in Pushed(w) || e == if w.next == 0 then pc else w.next
      ensures e in before + [pc] <==> e in before || e == pc
    {
      InPending(before + Pushed(w), [if w.next == 0 then pc else w.next], e);
      InPending(before, Pushed(w), e);
      InPending(before, [pc], e);
    }
  }

  /** The word at `pc` and its way out join the trace. */
  lemma {:induction false} TraceWord(mem: Memory, size: nat, code: set<int>, before: seq<int>, pc: int, w: Way)
    requires size <= 0xE00 && code <= Evens(1792) && pc !in code
    requires Traced(mem, size, code, before + [pc])
    requires WordBelow(pc, size, 0x1000) && ValidOpcode(OpAt(mem, pc)) && Covers(w, OpAt(mem, pc), pc, size)
    ensures Traced(mem, size, code + {pc}, before + Pushed(w) + [if w.next == 0 then pc else w.next])
    ensures code + {pc} <= Evens(1792) && |code + {pc}| == |code| + 1 <= 1792
  {
    MarkCount(code, pc, size);
    WordNeeded(mem, size, code, before, pc, w);
    WordComplete(mem, size, code, before, pc, w);
    hide Needed, Complete, Evens, Covers, WordBelow, ValidOpcode, OpAt;
  }

  lemma {:induction false} WordNeeded(mem: Memory, size: nat, code: set<int>, before: seq<int>, pc: int, w: Way)
    requires size <= 0xE00 && Traced(mem, size, code, before + [pc])
    requires WordBelow(pc, size, 0x1000) && ValidOpcode(OpAt(mem, pc)) && Covers(w, OpAt(mem, pc), pc, size)
    ensures Needed(mem, size, code + {pc}, Onward(before, pc, w))
  {
    NeededNow(mem, size, code, before, pc);
    CoveredLive(mem, size, pc, w);
    ReachableClosed(mem, size);
    OnwardHolds(before, pc, w);
    hide OpAt, StaticNext, ValidOpcode, Reachable, Live, Covers, WordBelow, Onward, Complete;
  }

  lemma {:induction false} WordComplete(mem: Memory, size: nat, code: set<int>, before: seq<int>, pc: int, w: Way)
    requires size <= 0xE00 && Traced(mem, size, code, before + [pc])
    requires WordBelow(pc, size, 0x1000) && Covers(w, OpAt(mem, pc), pc, size)
    ensures Complete(mem, size, code + {pc}, Onward(before, pc, w))
  {
    CoveredLive(mem, size, pc, w);
    OnwardHolds(before, pc, w);
    hide OpAt, StaticNext, ValidOpcode, Reachable, Live, Covers, WordBelow, Onward, Needed;
  }

  lemma {:induction false} NeededNow(mem: Memory, size: nat, code: set<int>, before: seq<int>, pc: int)
    requires Traced(mem, size, code, before + [pc])
    requires WordBelow(pc, size, 0x1000) && ValidOpcode(OpAt(mem, pc))
    ensures pc in Reachable(mem, size) && pc % 2 == 0 && pc >= ENTRYPOINT
  {
    hide OpAt, StaticNext, ValidOpcode, Reachable;
    assert Live(mem, size, pc) && pc in before + [pc];
  }

  lemma {:induction false} CoveredLive(mem: Memory, size: nat, pc: int, w: Way)
    requires WordBelow(pc, size, 0x1000) && Covers(w, OpAt(mem, pc), pc, size)
    ensures forall q :: q in StaticNext(OpAt(mem, pc), pc) && Live(mem, size, q) ==> q == w.next || q == w.push
    ensures w.next != 0 ==> w.next in StaticNext(OpAt(mem, pc), pc) && w.next >= ENTRYPOINT && w.next % 2 == 0
    ensures w.push >= 0 ==> w.push in StaticNext(OpAt(mem, pc), pc) && w.push >= ENTRYPOINT && w.push % 2 == 0
    ensures !Live(mem, size, 0) && forall q :: q < 0 ==> !Live(mem, size, q)
  {
    hide OpAt, StaticNext, ValidOpcode;
  }

  lemma {:induction false} DropDone(mem: Memory, size: nat, code: set<int>, rest: seq<int>, pc: int, reach: seq<bool>, kind: seq<int>)
    requires size <= 0xE00 && Marked(reach, kind, code) && Traced(mem, size, code, rest + [pc])
    requires pc + 1 >= ENTRYPOINT + size || pc in code || !ValidOpcode(OpAt(mem, pc))
    ensures Traced(mem, size, code, rest)
  {
    NotLive(mem, size, pc);
    hide OpAt, StaticNext, ValidOpcode, Reachable, Live, Marked;
    forall e ensures e in rest + [pc] <==> e in rest || e == pc { InPending(rest, [pc], e); }
  }

  lemma NotLive(mem: Memory, size: nat, pc: int)
    ensures pc + 1 >= ENTRYPOINT + size || !ValidOpcode(OpAt(mem, pc)) ==> !Live(mem, size, pc)
  {}

  lemma {:induction false} TraceDone(mem: Memory, size: nat, code: set<int>)
    requires Traced(mem, size, code, [])
    ensures code == Reachable(mem, size)
  {
    hide OpAt, StaticNext, ValidOpcode;
    assert Closed(mem, size, code);
    forall a | a in Reachable(mem, size) ensures a in code {
      assert Forced(mem, size, a);
    }
  }
}
