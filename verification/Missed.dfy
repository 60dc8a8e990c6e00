/** Where the optimizer goes wrong on sources it does not refuse: a read that its
    analysis does not record, and an address it does not take for one. */
module Missed {
  import opened Chip8
  import opened Bench
  import opened Tape
  import opened Text
  import opened Numbers
  import opened Peephole
  import opened Optimizer
  import opened Relocate
  import opened Refusal
  import opened Compaction
  import A = Analysis
  import Asm
  import S = Statements

  /** A source that names no address by number is left as it is. */
  lemma {:induction false} NothingSymbolized(p: Source, symbols: Asm.Symbols)
    requires Fits(p) && forall i :: 0 <= i < |p| ==> !Refers(p[i])
    ensures Symbolized(p) == p && Extended(p, symbols, |p|) == symbols && Fresh(p, symbols)
  {
    hide Addr, Refers, GeneratedName, Renamed, Existing, Numeral;
    assert forall v :: !Generated(p, v);
    forall i | 0 <= i < |p| ensures Symbolized(p)[i] == p[i] {
      LinkedIs(p, p[i]);
      AnchoredIs(p, Old(p, i), p[i]);
    }
    NoneAdded(p, symbols, |p|);
  }

  lemma {:induction false} NoneAdded(p: Source, symbols: Asm.Symbols, n: nat)
    requires Fits(p) && n <= |p| && forall v :: !Generated(p, v)
    ensures Extended(p, symbols, n) == symbols
  {
    hide Addr, Generated, NameAt;
    if n > 0 { NoneAdded(p, symbols, n - 1); }
  }

  /** A statement at which the analysis records nothing, and that names no address
      by number. */
  ghost predicate QuietAt(s: Stmt, symbols: Asm.Symbols)
  {
    && !s.Org? && !Refers(s) && s.text != []
    && (s.Insn? && ReadingOf(s, symbols).Some? ==> S.Touch(ReadingOf(s, symbols).value) == None && !ReadingOf(s, symbols).value.JumpV0?)
  }

  ghost predicate QuietSource(p: Source, symbols: Asm.Symbols)
  {
    forall i :: 0 <= i < |p| ==> QuietAt(p[i], symbols)
  }

  lemma {:induction false} NothingTouched(insns: map<int, S.Stmt>, inc: A.Incoming, r: A.Report)
    requires A.Analyzed(insns, inc, r)
    requires forall pc :: pc in insns ==> S.Touch(insns[pc]) == None && !insns[pc].JumpV0?
    ensures r.accesses == {}
  {
    hide A.ClosedAt, A.Noted, A.TableOk, A.Below, S.Touch;
    forall a | a in r.accesses ensures a.pc in insns && S.Touch(insns[a.pc]).Some? { A.RecordShown(insns, inc, r, a); }
  }

  lemma {:induction false} QuietTouches(p: Source, symbols: Asm.Symbols, insns: map<int, S.Stmt>)
    requires QuietSource(p, symbols) && ReadAs(p, symbols, insns)
    ensures forall pc :: pc in insns ==> S.Touch(insns[pc]) == None && !insns[pc].JumpV0?
  {
    hide Addr, ReadingOf, S.Touch, Refers;
    forall pc | pc in insns ensures S.Touch(insns[pc]) == None && !insns[pc].JumpV0? {
      var i :| 0 <= i < |p| && p[i].Insn? && Old(p, i) == pc;
      assert ReadAt(p, symbols, insns, i) && QuietAt(p[i], symbols);
    }
  }

  lemma {:induction false} QuietStays(p: Source, symbols: Asm.Symbols)
    requires Fits(p) && QuietSource(p, symbols)
    ensures Symbolized(p) == p && Extended(p, symbols, |p|) == symbols && Fresh(p, symbols) && !Fixed(p)
  {
    hide Addr, Refers, ReadingOf, Symbolized, Extended, Fresh;
    forall i | 0 <= i < |p| ensures !Refers(p[i]) && !FixedAt(p, p[i]) { assert QuietAt(p[i], symbols); }
    NothingSymbolized(p, symbols);
  }

  /** The optimizer refuses no such source, and pins nothing of it. */
  method OptimizeQuiet(p: Source, symbols: Asm.Symbols) returns (e: Option<Edit>)
    requires Assembles(p, symbols) && QuietSource(p, symbols)
    ensures e == Some(Plan(p, {}, 0))
  {
    hide Symbolized, Extended, Plan, Assembles, ReadAs, Fixed, Rigid, Accepted, Legal, A.Analyzed, A.IntoPayload, AllPlain, Fresh, Planned,
      QuietSource, S.Touch;
    AssemblesFits(p, symbols);
    QuietStays(p, symbols);
    SymbolizedFixed(p, symbols);
    var q, labels, insns, r;
    ghost var inc;
    q, labels, insns, e, r, inc := OptimizeSource(p, symbols);
    QuietTouches(p, symbols, insns);
    NothingTouched(insns, inc, A.WalkPart(r));
    assert Pinned(q, r) == {};
  }

  // -------------------------------------------------- a read without record

  /** LD V1, 0xAE; LD V1, V1; three times ADD I, V1; LD V0, [I]; and a JP to
      itself: a read through an I nobody knows. */
  const MOVED: Source := [
    Insn(["LD", "V1", "0XAE"], 0x61AE, None, [], false), Insn(["LD", "V1", "V1"], 0x8110, None, [], false),
    Insn(["ADD", "I", "V1"], 0xF11E, None, [], false), Insn(["ADD", "I", "V1"], 0xF11E, None, [], false),
    Insn(["ADD", "I", "V1"], 0xF11E, None, [], false), Insn(["LD", "V0", "[I]"], 0xF065, None, [], false),
    Insn(["JP", "LOOP"], 0x120C, Some(6), ["LOOP"], true)]

  const MOVED_SYMBOLS: Asm.Symbols := map["LOOP" := 0x20C]

  const GONE: Edit := Edit({1}, map[], {})

  lemma MovedOps()
    ensures Top(0x61AE) == 6 && X(0x61AE) == 1 && KK(0x61AE) == 0xAE
    ensures Top(0x8110) == 8 && N(0x8110) == 0 && X(0x8110) == 1 == Y(0x8110) && Top(0x120C) == 1 && NNN(0x120C) == 0x20C
    ensures Top(0xF11E) == Top(0xF065) == 0xF && X(0xF11E) == 1 && X(0xF065) == 0
    ensures KK(0xF11E) == 0x1E && KK(0xF065) == 0x65
  {}

  lemma {:induction false} MovedLayout(e: Edit)
    requires e == GONE || e == UNCHANGED
    ensures Addr(MOVED, e, 0) == 0x200 && Addr(MOVED, e, 1) == 0x202
    ensures forall i :: 2 <= i <= 7 ==> Addr(MOVED, e, i) == 0x200 + 2 * i - (if e == GONE then 2 else 0)
  {
    assert Addr(MOVED, e, 2) == if e == GONE then 0x202 else 0x204;
    assert Addr(MOVED, e, 4) == Addr(MOVED, e, 2) + 4;
    assert Addr(MOVED, e, 6) == Addr(MOVED, e, 4) + 4;
  }

  lemma NumberAE()
    ensures Number("0XAE") == Some(0xAE) && ParseNumber("0XAE") == Some(0xAE)
  {
    var s := "AE";
    assert "0XAE"[2..] == s && s[..1] == "A" && "A"[..0] == "";
    assert Magnitude("A", 16) == 10 && Magnitude(s, 16) == 0xAE;
    UnsignedAgree("0XAE");
  }

  lemma {:induction false} MovedLoads()
    ensures Asm.Instruction(MOVED[0].text, MOVED_SYMBOLS, true) == Asm.Ok(0x61AE)
    ensures Asm.Instruction(MOVED[1].text, MOVED_SYMBOLS, true) == Asm.Ok(0x8110)
    ensures Asm.Instruction(MOVED[5].text, MOVED_SYMBOLS, true) == Asm.Ok(0xF065)
  {
    NumberAE();
    hide Number, ParseNumber;
  }

  lemma {:induction false} MovedRest()
    ensures Asm.Instruction(["ADD", "I", "V1"], MOVED_SYMBOLS, true) == Asm.Ok(0xF11E)
    ensures Asm.Instruction(["JP", "LOOP"], MOVED_SYMBOLS, true) == Asm.Ok(0x120C)
  {
    assert Number("LOOP") == None;
    hide Number, ParseNumber;
  }

  lemma NoNumbers()
    ensures ParseNumber("LOOP") == None == ParseNumber("V1") && ParseNumber("[I]") == None == ParseNumber("V0") && Asm.IsName("LOOP")
  {
    NameNoNumber("LOOP");
    NotNumbers();
    NumberV0();
    if ParseNumber("V1").Some? { NumberStart("V1"); }
    hide ParseNumber, Number;
  }

  lemma {:induction false} MovedReads()
    ensures Encodes(MOVED, MOVED_SYMBOLS) && AllPlain(MOVED) && forall i :: 0 <= i < |MOVED| ==> MOVED[i].Insn? && !Refers(MOVED[i])
  {
    hide Asm.Instruction, ParseNumber, Number, Asm.IsName;
    MovedLoads();
    MovedRest();
    NoNumbers();
  }

  lemma {:induction false} MovedPlaced()
    ensures forall i :: 0 <= i < |MOVED| ==> Placed(MOVED, MOVED_SYMBOLS, i)
  {
    hide Addr;
    MovedLayout(UNCHANGED);
  }

  lemma {:induction false} MovedSource()
    ensures Assembles(MOVED, MOVED_SYMBOLS) && AllPlain(MOVED) && Fits(MOVED)
    ensures Symbolized(MOVED) == MOVED && Extended(MOVED, MOVED_SYMBOLS, |MOVED|) == MOVED_SYMBOLS && !Fixed(MOVED) && Accepted(MOVED)
  {
    hide Addr, Symbolized, Extended, Accepted, Encodes, Placed, Refers, AllPlain, Numeral;
    MovedLayout(UNCHANGED);
    MovedReads();
    MovedPlaced();
    NothingSymbolized(MOVED, MOVED_SYMBOLS);
    assert forall i :: 0 <= i < |MOVED| ==> !FixedAt(MOVED, MOVED[i]);
    FixedExact(MOVED, MOVED_SYMBOLS);
  }

  /** What the analysis makes of the words. */
  lemma {:induction false} MovedRead(labels: map<string, int>)
    requires labels == map["LOOP" := 0x20C]
    ensures ReadingOf(MOVED[0], labels) == Some(S.LdConst(1, Some(0xAE))) && ReadingOf(MOVED[1], labels) == Some(S.LdReg(1, 1))
    ensures forall i :: 2 <= i < 5 ==> ReadingOf(MOVED[i], labels) == Some(S.AddI(Some(1)))
    ensures ReadingOf(MOVED[5], labels) == Some(S.LdConst(0, None)) && ReadingOf(MOVED[6], labels) == Some(S.Jump(Some(0x20C)))
  {
    NumberAE();
    NoNumbers();
    hide ParseNumber, Number;
  }

  lemma {:induction false} MovedPlan()
    ensures Plan(MOVED, {}, 0) == GONE
  {
    hide Top, X, Y, N, KK, NNN, ParseNumber, S.IsRegister, Plan, Protected, Addr;
    MovedOps();
    NoNumbers();
    MovedRegisters();
    assert Protected(MOVED, 0) by { EntryProtected(MOVED); }
    NoneProtected(MOVED, 1);
    PlanEnd(MOVED);
    PlanSkips(MOVED, 6);
    PlanSkips(MOVED, 5);
    PlanSkips(MOVED, 4);
    PlanSkips(MOVED, 3);
    PlanSkips(MOVED, 2);
    PlanDrops(MOVED, 1);
    PlanSkips(MOVED, 0);
  }

  lemma MovedRegisters()
    ensures S.IsRegister("V0") && S.IsRegister("V1") && !S.IsRegister("I")
  {}

  lemma {:induction false} MovedQuiet()
    ensures QuietSource(MOVED, MOVED_SYMBOLS)
  {
    hide Addr, ReadingOf, Refers, S.Touch, Encodes, AllPlain;
    MovedReads();
    MovedRead(MOVED_SYMBOLS);
    PlainKinds();
  }

  lemma PlainKinds()
    ensures S.Touch(S.LdConst(1, Some(0xAE))) == None == S.Touch(S.LdReg(1, 1)) && S.Touch(S.AddI(Some(1))) == None
    ensures S.Touch(S.LdConst(0, None)) == None == S.Touch(S.Jump(Some(0x20C)))
  {}

  /** The optimizer accepts it and drops the second statement. */
  method OptimizeMoved() returns (e: Option<Edit>)
    ensures e == Some(GONE)
  {
    hide Plan, Assembles, QuietSource, Symbolized, Extended, Fixed, Accepted;
    MovedSource();
    MovedQuiet();
    MovedPlan();
    e := OptimizeQuiet(MOVED, MOVED_SYMBOLS);
  }

  lemma {:induction false} AddIStep(op: word, c: Core, inp: Input)
    requires Top(op) == 0xF && KK(op) == 0x1E
    ensures ExecCore(op, c, inp) == Some(SkipIf(c.(i := (c.i + c.regs[X(op)]) % 0x10000), false)) && Sends(op, c) == []
  {
    NotSystem(op);
    hide Top, X, KK, N, NNN, SkipIf, Store, Load;
  }

  /** The program in memory, its tail `d` bytes lower. */
  ghost predicate Words(d: nat, m: Memory)
  {
    && OpAt(m, 0x200) == 0x61AE && (d == 0 ==> OpAt(m, 0x202) == 0x8110)
    && OpAt(m, 0x204 - d) == OpAt(m, 0x206 - d) == OpAt(m, 0x208 - d) == 0xF11E
    && OpAt(m, 0x20A - d) == 0xF065 && OpAt(m, 0x20C - d) == 0x120C - d
  }

  lemma {:induction false} LoadedWords(e: Edit, m: Memory)
    requires Accepted(MOVED) && Loaded(MOVED, e, m) && (e == GONE || e == UNCHANGED)
    ensures Words(if e == GONE then 2 else 0, m)
  {
    MovedOps();
    MovedLayout(e);
    hide Addr, OpAt, Accepted, Top, X, KK;
    assert HoldsAt(MOVED, e, m, 0) && HoldsAt(MOVED, e, m, 2) && HoldsAt(MOVED, e, m, 3) && HoldsAt(MOVED, e, m, 4);
    assert HoldsAt(MOVED, e, m, 5) && HoldsAt(MOVED, e, m, 6);
    assert e == UNCHANGED ==> HoldsAt(MOVED, e, m, 1);
  }

  /** Adding: I has come to `k` times V1. */
  ghost predicate Adding(pc: int, k: nat, m: Memory, s: Side)
  {
    s.core.mem == m && s.core.pc == pc && s.core.i == 0xAE * k && s.core.regs[1] == 0xAE
  }

  lemma {:induction false} AddingStep(pc: int, k: nat, m: Memory, s: Side)
    requires Adding(pc, k, m, s) && OpAt(m, pc) == 0xF11E && k < 4 && pc < 0x1000
    ensures StepWith(NO_INPUT, s).Some? && Adding(pc + 2, k + 1, m, StepWith(NO_INPUT, s).value)
  {
    MovedOps();
    AddIStep(0xF11E, s.core, NO_INPUT);
    hide Top, X, KK, ExecCore, OpAt, Sends;
  }

  lemma {:induction false} FirstStep(m: Memory, s: Side)
    requires s.core.mem == m && s.core.pc == 0x200 && s.core.i == 0 && OpAt(m, 0x200) == 0x61AE
    ensures StepWith(NO_INPUT, s).Some? && Adding(0x202, 0, m, StepWith(NO_INPUT, s).value)
  {
    MovedOps();
    LoadStep(0x61AE, s.core, NO_INPUT);
    LoadKinds(0x61AE);
    NoOpKinds(0x61AE);
    hide Top, X, KK, N, Y, ExecCore, OpAt, Sends;
  }

  lemma {:induction false} IdleStep(m: Memory, s: Side)
    requires Adding(0x202, 0, m, s) && OpAt(m, 0x202) == 0x8110
    ensures StepWith(NO_INPUT, s).Some? && Adding(0x204, 0, m, StepWith(NO_INPUT, s).value)
  {
    MovedOps();
    LoadStep(0x8110, s.core, NO_INPUT);
    NoOpKinds(0x8110);
    hide Top, X, KK, N, Y, ExecCore, OpAt, Sends;
  }

  lemma {:induction false} ReadStep(pc: int, m: Memory, s: Side)
    requires Adding(pc, 3, m, s) && OpAt(m, pc) == 0xF065 && 0 <= pc < 0x1000
    ensures
      var r := StepWith(NO_INPUT, s);
      r.Some? && r.value.core.pc == pc + 2 && r.value.core.regs[0] == m[0x20A]
  {
    hide Top, X, KK, N, Y, ExecCore, OpAt, Sends, LoadedRegs, Load;
    MovedOps();
    LoadStep(0xF065, s.core, NO_INPUT);
    FirstLoaded(0xF065, s.core, NO_INPUT);
  }

  lemma {:induction false} FirstLoaded(op: word, c: Core, inp: Input)
    requires LoadsMemory(op)
    ensures LoadedRegs(op, c, inp)[0] == c.mem[Wrap(c.i)]
  {
    hide Top, X, KK;
  }

  function Quiet(n: nat): (r: seq<Input>)
    ensures |r| == n
  {
    seq(n, _ => NO_INPUT)
  }

  lemma {:induction false} QuietMore(n: nat, s: Side)
    ensures RunWith(Quiet(n + 1), s) == match RunWith(Quiet(n), s) case Some(t) => StepWith(NO_INPUT, t) case None => None
  {
    assert Quiet(n + 1) == Quiet(n) + [NO_INPUT];
    RunMore(Quiet(n), NO_INPUT, s);
    hide StepWith;
  }

  lemma {:induction false} RunWords(d: nat, s: Side)
    requires d == 0 || d == 2
    requires Words(d, s.core.mem) && s.core.pc == 0x200 && s.core.i == 0
    ensures
      var r := RunWith(Quiet(if d == 0 then 6 else 5), s);
      r.Some? && r.value.core.pc == 0x20C - d && r.value.core.regs[0] == s.core.mem[0x20A]
  {
    hide OpAt, StepWith, Adding, RunWith;
    var m, n := s.core.mem, if d == 0 then 2 else 1;
    assert RunWith(Quiet(0), s) == Some(s) by { QuietNone(s); }
    QuietMore(0, s);
    FirstStep(m, s);
    if d == 0 {
      QuietMore(1, s);
      IdleStep(m, RunWith(Quiet(1), s).value);
    }
    QuietMore(n, s);
    AddingStep(0x204 - d, 0, m, RunWith(Quiet(n), s).value);
    QuietMore(n + 1, s);
    AddingStep(0x206 - d, 1, m, RunWith(Quiet(n + 1), s).value);
    QuietMore(n + 2, s);
    AddingStep(0x208 - d, 2, m, RunWith(Quiet(n + 2), s).value);
    QuietMore(n + 3, s);
    ReadStep(0x20A - d, m, RunWith(Quiet(n + 3), s).value);
  }

  lemma QuietNone(s: Side)
    ensures RunWith(Quiet(0), s) == Some(s)
  {}

  lemma WordBytes(m: Memory, a: int)
    requires 0 <= a < 0xFFF
    ensures m[a] == OpAt(m, a) / 0x100
  {}

  /** The read is neither recorded nor refused, and the dropped statement moves
      the byte it reads: arrived at the last statement, the original has one value
      in V0 and the compacted program another. */
  lemma {:induction false} MissedReadMoves(a: Core, b: Core)
    requires Accepted(MOVED)
    requires Started(MOVED, GONE, a, b) && a.i == 0
    ensures
      var s, t := RunWith(Quiet(6), Side(a, [])), RunWith(Quiet(5), Side(b, []));
      && s.Some? && t.Some? && s.value.core.pc == Old(MOVED, 6) && t.value.core.pc == Addr(MOVED, GONE, 6)
      && s.value.core.regs[0] == 0xF0 && t.value.core.regs[0] == 0x12
  {
    hide OpAt, StepWith, RunWith, Addr, Accepted, Loaded, SameData;
    MovedLayout(UNCHANGED);
    MovedLayout(GONE);
    LoadedWords(UNCHANGED, a.mem);
    LoadedWords(GONE, b.mem);
    RunWords(0, Side(a, []));
    RunWords(2, Side(b, []));
    WordBytes(a.mem, 0x20A);
    WordBytes(b.mem, 0x20A);
  }

  // ------------------------------------------- an address that is not seen

  /** CLS; LD V0, V0; LD I, +0x206; LOOP: JP LOOP. */
  const STAYS: Source := [
    Insn(["CLS"], 0x00E0, None, [], false), Insn(["LD", "V0", "V0"], 0x8000, None, [], false),
    Insn(["LD", "I", "+0X206"], 0xA206, None, [], false), Insn(["JP", "LOOP"], 0x1206, Some(3), ["LOOP"], true)]

  const STAYS_SYMBOLS: Asm.Symbols := map["LOOP" := 0x206]

  /** The address in the third statement is no number to the optimizer: it gets no
      label and stops nothing, and stays where it was while its byte moves. */
  lemma {:induction false} AddressMissed()
    ensures Assembles(STAYS, STAYS_SYMBOLS) && Symbolized(STAYS) == STAYS && !Fixed(STAYS) && !Accepted(STAYS)
    ensures Plan(STAYS, {}, 0) == Edit({1}, map[], {})
    ensures NNN(STAYS[2].op) == Old(STAYS, 3) && Addr(STAYS, Edit({1}, map[], {}), 3) == Old(STAYS, 3) - 2
  {
    hide Asm.Instruction, Symbolized, Extended, ParseNumber, Number, Asm.IsName, Addr, Plan, Protected, Top, NNN, X, Y, N;
    StaysLayout();
    StaysOps();
    StaysReads();
    assert forall i :: 0 <= i < |STAYS| ==> !Refers(STAYS[i]);
    NothingSymbolized(STAYS, STAYS_SYMBOLS);
    StaysPlan();
    assert !StmtOk(STAYS, STAYS[2]);
  }

  lemma StaysOps()
    ensures Top(0x00E0) == 0 && Top(0xA206) == 0xA && NNN(0xA206) == 0x206 && Top(0x1206) == 1 && NNN(0x1206) == 0x206
    ensures Top(0x8000) == 8
  {}

  lemma {:induction false} StaysLayout()
    ensures Old(STAYS, 3) == 0x206 && Old(STAYS, 4) == 0x208 && Addr(STAYS, Edit({1}, map[], {}), 3) == 0x204
    ensures Old(STAYS, 0) == 0x200 && Old(STAYS, 1) == 0x202 && Old(STAYS, 2) == 0x204
  {
    assert Addr(STAYS, Edit({1}, map[], {}), 2) == 0x202;
  }

  lemma {:induction false} StaysReads()
    ensures Asm.Instruction(["LD", "V0", "V0"], STAYS_SYMBOLS, true) == Asm.Ok(0x8000)
    ensures Asm.Instruction(["LD", "I", "+0X206"], STAYS_SYMBOLS, true) == Asm.Ok(0xA206)
    ensures Asm.Instruction(["JP", "LOOP"], STAYS_SYMBOLS, true) == Asm.Ok(0x1206)
    ensures Asm.Instruction(["CLS"], STAYS_SYMBOLS, true) == Asm.Ok(0x00E0)
    ensures ParseNumber("+0X206") == None && ParseNumber("LOOP") == None && Asm.IsName("LOOP")
  {
    hide Number, ParseNumber, Asm.IsName;
    HexSigned();
    NoNumbers();
    NameNoNumber("LOOP");
  }

  lemma HexSigned()
    ensures Number("+0X206") == Some(0x206) && ParseNumber("+0X206") == None
  {
    var s := "+0X206";
    assert s[1..] == "0X206" && "0X206"[2..] == "206";
    assert "206"[..2] == "20" && "20"[..1] == "2" && "2"[..0] == "";
    assert Magnitude("2", 16) == 2 && Magnitude("20", 16) == 0x20 && Magnitude("206", 16) == 0x206;
    SignedHex(s);
  }

  lemma {:induction false} StaysPlan()
    ensures Plan(STAYS, {}, 0) == Edit({1}, map[], {})
  {
    hide Top, X, Y, N, KK, NNN, ParseNumber, S.IsRegister, Plan, Protected, Addr;
    StaysOps();
    NoNumbers();
    MovedRegisters();
    assert Protected(STAYS, 0) by { EntryProtected(STAYS); }
    NoneProtected(STAYS, 1);
    PlanEnd(STAYS);
    PlanSkips(STAYS, 3);
    PlanSkips(STAYS, 2);
    PlanDrops(STAYS, 1);
    PlanSkips(STAYS, 0);
  }

  lemma {:induction false} StaysQuiet()
    ensures QuietSource(STAYS, STAYS_SYMBOLS)
  {
    StaysReads();
    hide ParseNumber, Asm.IsName, Asm.Instruction;
  }

  /** The optimizer accepts it. */
  method OptimizeStays() returns (e: Option<Edit>)
    ensures e == Some(Edit({1}, map[], {}))
  {
    hide Plan, Assembles, QuietSource, Symbolized, Fixed, Accepted, Addr;
    AddressMissed();
    StaysQuiet();
    e := OptimizeQuiet(STAYS, STAYS_SYMBOLS);
  }

  // ----------------------------------------------- the signed constants

  lemma {:induction false} SignedQuiet()
    ensures QuietSource(SIGNED, SIGNED_SYMBOLS)
  {
    OneTen();
    NoNumbers();
    hide ParseNumber, Number;
  }

  lemma {:induction false} SignedAssembles()
    ensures Assembles(SIGNED, SIGNED_SYMBOLS)
  {
    hide Asm.Instruction, ParseNumber, Number, Asm.IsName, Addr;
    SignedReads();
    ClearReads();
    SignedStarts();
    NoNumbers();
  }

  lemma {:induction false} SignedStarts()
    ensures Old(SIGNED, 0) == 0x200 && Old(SIGNED, 1) == 0x202 && Old(SIGNED, 2) == 0x204 && Old(SIGNED, 3) == 0x206 && Old(SIGNED, 4) == 0x208
  {}

  /** The optimizer accepts the program whose constants it adds up wrongly. */
  method OptimizeSigned() returns (e: Option<Edit>)
    ensures e == Some(Edit({2}, map[1 := 20], {}))
  {
    hide Plan, Assembles, QuietSource;
    SignedAssembles();
    SignedQuiet();
    SignedPlan();
    e := OptimizeQuiet(SIGNED, SIGNED_SYMBOLS);
  }
}
