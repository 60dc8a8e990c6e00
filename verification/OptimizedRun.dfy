/** The run of the program the optimizer returns: compaction and the tail-call
    rewrite together, steps that end in an error included. */
module OptimizedRun {
  import opened Chip8
  import opened Bench
  import opened Tape
  import opened TailCall
  import opened Peephole
  import opened Compaction
  import O = Optimizer
  import Asm

  // ------------------------------------------------------ errors, compacted

  lemma {:induction false} StepNone(inp: Input, s: Side)
    ensures StepWith(inp, s).Some? <==> ExecCore(OpAt(s.core.mem, s.core.pc), s.core, inp).Some?
  {
    hide ExecCore, OpAt, Sends;
  }

  lemma {:induction false} DroppedPasses(p: Source, e: Edit, i: nat, a: Side, b: Side, inp: Input)
    requires Related(p, e, i, a, b) && Legal(p, e) && i in e.drop
    ensures StepWith(inp, a).Some?
  {
    hide OpAt, Frames, Addr, ExecCore, Legal, LoadsRegister, LoadsI, Top, X, Dropped, RegsMatch, Assembled, FoldedAt, NoOp, Loose, WaitsForKey, DeadAt;
    DropKinds(p, e, i);
    Fetches(p, e, i, a, b);
    DroppedWord(p, e, i);
    DroppedStep(OpAt(a.core.mem, a.core.pc), a.core, inp);
    StepNone(inp, a);
  }

  lemma {:induction false} FallsErrors(p: Source, e: Edit, i: nat, base: Option<nat>, a: Side, b: Side, inp: Input)
    requires Related(p, e, i, a, b) && Legal(p, e) && Sound(p, e) && Stands(p, e, i, base, inp, a)
    requires DataRelated(p, e, i, base, a.core, b.core)
    requires i !in e.drop && i !in e.total && Falls(p[i].op) && p[i].target.None?
    ensures StepWith(inp, a).Some? <==> StepWith(inp, b).Some?
  {
    hide OpAt, Frames, Addr, ExecCore, ExecStraight, Legal, Sound, DataRead, DataWritten, Top, X, KK, RegsMatch, Assembled, Falls, LoadsRegister,
      Sends, Load, Within, SameData, IMatch, NextI, NextMem, Loaded, WaitsForKey, Loose;
    var op := p[i].op;
    Fetches(p, e, i, a, b);
    KeptWord(p, e, i);
    FallsCore(op, a.core, inp);
    FallsCore(op, b.core, inp);
    DataReads(p, e, i, base, a.core, b.core);
    KeptSame(p, e, i, a.core, b.core, inp);
    StepNone(inp, a);
    StepNone(inp, b);
  }

  /** Skips, jumps, calls and returns. */
  lemma {:induction false} ControlErrors(p: Source, e: Edit, i: nat, a: Side, b: Side, inp: Input)
    requires Related(p, e, i, a, b) && Legal(p, e) && Sound(p, e) && AtStmt(p, i, a)
    requires i !in e.drop && (IsSkip(p[i].op) || IsJump(p[i].op) || p[i].op == 0x00EE)
    ensures StepWith(inp, a).Some? <==> StepWith(inp, b).Some?
  {
    hide OpAt, Addr, ExecCore, Legal, Sound, Allowed, Top, NNN, RegsMatch, Assembled, Sends, Frames, ExecCall, ExecReturn, TakesAddress;
    var op := p[i].op;
    assert Top(0x00EE) == 0 by { ReturnTop(); }
    SkipTop(op);
    TotalKinds(p, e, i);
    Fetches(p, e, i, a, b);
    assert StmtOk(p, p[i]);
    LoadIRegs(p, e, i, a.core.regs, b.core.regs);
    FramesLength(p, e, a.core.stack, b.core.stack);
    StepNone(inp, a);
    StepNone(inp, b);
    if IsJump(op) {
      JumpErrors(p, e, i, a, b, inp);
    } else {
      NoAddress(op);
      KeptWord(p, e, i);
      if op == 0x00EE {
        ReturnCore(op, a.core, inp);
        ReturnCore(op, b.core, inp);
        ReturnErrors(a.core, b.core);
      } else {
        SkipCore(op, a.core, b.core, inp);
      }
    }
  }

  lemma NoAddress(op: word)
    ensures IsSkip(op) || op == 0x00EE ==> !TakesAddress(op)
  {
    assert Top(0x00EE) == 0;
  }

  lemma ReturnErrors(c: Core, d: Core)
    requires |c.stack| == |d.stack|
    ensures ExecReturn(c).Some? <==> ExecReturn(d).Some?
  {}

  lemma CallErrors(c: Core, d: Core, x: address, y: address)
    requires |c.stack| == |d.stack|
    ensures ExecCall(c, x).Some? <==> ExecCall(d, y).Some?
  {}

  lemma {:induction false} JumpErrors(p: Source, e: Edit, i: nat, a: Side, b: Side, inp: Input)
    requires Related(p, e, i, a, b) && i !in e.drop && i !in e.total && p[i].Insn? && IsJump(p[i].op)
    requires |a.core.stack| == |b.core.stack|
    ensures ExecCore(OpAt(a.core.mem, a.core.pc), a.core, inp).Some? <==> ExecCore(OpAt(b.core.mem, b.core.pc), b.core, inp).Some?
  {
    hide OpAt, Addr, ExecCore, Top, NNN, RegsMatch, Assembled, Sends, Frames, ExecCall;
    Fetches(p, e, i, a, b);
    if p[i].target.Some? {
      AssembledTarget(p, UNCHANGED, i);
      AssembledTarget(p, e, i);
    } else {
      SameWord(p, e, i);
    }
    var v, w := OpAt(a.core.mem, a.core.pc), OpAt(b.core.mem, b.core.pc);
    if Top(p[i].op) == 1 {
      JumpCore(v, a.core, inp);
      JumpCore(w, b.core, inp);
    } else {
      CallCore(v, a.core, inp);
      CallCore(w, b.core, inp);
      CallErrors(a.core, b.core, NNN(v), NNN(w));
    }
  }

  lemma SameWord(p: Source, e: Edit, i: nat)
    requires i < |p| && p[i].Insn? && p[i].target.None? && i !in e.total
    ensures Assembled(p, e, i) == p[i].op == Assembled(p, UNCHANGED, i)
  {}

  lemma {:induction false} LoadErrors(p: Source, e: Edit, i: nat, a: Side, b: Side, inp: Input)
    requires Related(p, e, i, a, b) && Legal(p, e) && AtStmt(p, i, a) && i !in e.drop
    requires i in e.total || (LoadsI(p[i].op) && p[i].target.Some?)
    ensures StepWith(inp, a).Some? && StepWith(inp, b).Some?
  {
    hide OpAt, Frames, Addr, ExecCore, Legal, Allowed, Top, X, KK, NNN, RegsMatch, Assembled;
    TotalKinds(p, e, i);
    Fetches(p, e, i, a, b);
    StepNone(inp, a);
    StepNone(inp, b);
    if i in e.total {
      assert StmtOk(p, p[i]);
      FoldTarget(p[i].op);
      KeptWord(p, e, i);
      FoldLoad(OpAt(a.core.mem, a.core.pc), a.core, inp);
      FoldLoad(OpAt(b.core.mem, b.core.pc), b.core, inp);
    } else {
      AssembledTarget(p, UNCHANGED, i);
      AssembledTarget(p, e, i);
      LoadIStep(OpAt(a.core.mem, a.core.pc), a.core, inp);
      LoadIStep(OpAt(b.core.mem, b.core.pc), b.core, inp);
    }
  }

  /** The compacted program stops with an error exactly where the original does;
      at a dropped statement neither does. */
  lemma {:induction false} StepErrors(p: Source, e: Edit, i: nat, base: Option<nat>, a: Side, b: Side, inp: Input)
    requires Related(p, e, i, a, b) && DataRelated(p, e, i, base, a.core, b.core)
    requires Legal(p, e) && Sound(p, e) && Stands(p, e, i, base, inp, a)
    ensures if i in e.drop then StepWith(inp, a).Some? else (StepWith(inp, a).None? <==> StepWith(inp, b).None?)
  {
    hide Related, Legal, Sound, StepWith, Allowed, Falls, Top, Addr, Within, SameData, Shifted, KK, WaitsForKey, Loose;
    var op := p[i].op;
    AllKinds(op);
    assert StmtOk(p, p[i]) by { RelatedStmt(p, e, i, a, b); }
    if i in e.drop { DroppedPasses(p, e, i, a, b, inp); }
    else if i in e.total { LoadErrors(p, e, i, a, b, inp); }
    else if IsSkip(op) || IsJump(op) || op == 0x00EE { ControlErrors(p, e, i, a, b, inp); }
    else if p[i].target.Some? { TargetKinds(op); LoadErrors(p, e, i, a, b, inp); }
    else { FallsErrors(p, e, i, base, a, b, inp); }
  }

  /** A run that ends in an error: the compacted program gets to the same
      statement and fails there, and fails nowhere else. */
  lemma {:induction false} ErrorsPreserved(p: Source, e: Edit, a: Core, b: Core, inps: seq<Input>, path: seq<nat>, inp: Input)
    requires Accepted(p) && Legal(p, e) && Sound(p, e) && Started(p, e, a, b)
    requires Passes(p, e, Side(a, []), inps, path)
    requires Stands(p, e, path[|inps|], BaseAt(p, path), inp, RunWith(inps, Side(a, [])).value)
    ensures RunWith(inps + [inp], Side(a, [])).None? <==>
      path[|inps|] !in e.drop && RunWith(Left(e, inps, path) + [inp], Side(b, [])).None?
  {
    hide Legal, Sound, Related, DataRelated, StepWith, Loaded, SameData, Stands, NextBase, Passes, Left, Started;
    assert |path| == |inps| + 1 && RunWith(inps, Side(a, [])).Some? by { PassesEnd(p, e, Side(a, []), inps, path); }
    Preserved(p, e, a, b, inps, path);
    RunMore(inps, inp, Side(a, []));
    RunMore(Left(e, inps, path), inp, Side(b, []));
    StepErrors(p, e, path[|inps|], BaseAt(p, path), RunWith(inps, Side(a, [])).value, RunWith(Left(e, inps, path), Side(b, [])).value, inp);
  }

  lemma PassesEnd(p: Source, e: Edit, s: Side, inps: seq<Input>, path: seq<nat>)
    requires Passes(p, e, s, inps, path)
    ensures |path| == |inps| + 1 && path[|inps|] < |p| && RunWith(inps, s).Some? && RunWith(inps, s).value.core.pc == Old(p, path[|inps|])
  {
    hide Stands;
  }

  // ------------------------------------------------------- the tail calls

  /** Every turned statement is a CALL with a RET right behind it. */
  ghost predicate Turnable(p: Source, e: Edit)
  {
    forall i :: i in e.turn ==> TurnableAt(p, i)
  }

  predicate TurnableAt(p: Source, i: nat)
  {
    i + 1 < |p| && p[i].Insn? && Top(p[i].op) == 2 && p[i + 1].Insn? && p[i + 1].op == 0x00EE
  }

  /** What the optimizer turns in an accepted source is. */
  lemma {:induction false} PlannedTurns(p: Source, e: Edit, symbols: Asm.Symbols)
    requires O.Encodes(p, symbols) && O.Planned(p, e)
    ensures Turnable(p, e)
  {
    hide O.DropText, O.FoldedText, Top, O.TailText;
    forall i | i in e.turn ensures TurnableAt(p, i) {
      assert O.TailAt(p, i);
      assert O.EncodesAt(p[i], symbols) && O.EncodesAt(p[i + 1], symbols);
      TurnText(p[i], p[i + 1], symbols);
    }
  }

  lemma {:induction false} TurnText(s: Stmt, next: Stmt, symbols: Asm.Symbols)
    requires s.Insn? && next.Insn? && O.TailText(s, next) && O.EncodesAt(s, symbols) && O.EncodesAt(next, symbols)
    ensures Top(s.op) == 2 && next.op == 0x00EE
  {
    assert s.text == ["CALL", s.text[1]];
    RewrittenWord(s.text[1], symbols, true);
    hide Top, Asm.Ranged;
  }

  /** Where the turned calls stand in the optimized program. */
  function Sites(p: Source, e: Edit): set<int>
  {
    set i | i in e.turn && i <= |p| :: Addr(p, e, i) as int
  }

  lemma {:induction false} TurnKept(p: Source, e: Edit, i: nat)
    requires Accepted(p) && Legal(p, e) && i < |p| && p[i].Insn? && (Top(p[i].op) == 2 || p[i].op == 0x00EE)
    ensures i !in e.drop && i !in e.total
  {
    hide Addr, Legal, Accepted, Top, LoadsRegister, X, Y, N, KK;
    assert Top(0x00EE) == 0 by { ReturnTop(); }
    LoadKinds(p[i].op);
    TotalKinds(p, e, i);
    if i in e.drop { DropKinds(p, e, i); }
  }

  lemma {:induction false} TurnPlace(p: Source, e: Edit, i: nat)
    requires Accepted(p) && Legal(p, e) && TurnableAt(p, i)
    ensures ENTRYPOINT <= Addr(p, e, i) && Addr(p, e, i) + 4 <= 0x1000 && Addr(p, e, i + 1) == Addr(p, e, i) + 2
    ensures i !in e.drop && i !in e.total && i + 1 !in e.drop && i + 1 !in e.total
  {
    hide Top, Accepted, Legal;
    TurnKept(p, e, i);
    TurnKept(p, e, i + 1);
    Inside(p, e, i + 1);
    assert Addr(p, e, i + 1) == Addr(p, e, i) + 2;
    assert Old(p, |p|) <= 0x1000 by { AcceptedFits(p); }
    hide Addr;
  }

  lemma AcceptedFits(p: Source)
    requires Accepted(p)
    ensures Old(p, |p|) <= 0x1000
  {}

  lemma {:induction false} TurnWord(p: Source, e: Edit, i: nat, mem: Memory)
    requires Accepted(p) && Legal(p, e) && TurnableAt(p, i) && Loaded(p, e, mem)
    ensures Top(OpAt(mem, Addr(p, e, i))) == 2 && OpAt(mem, Addr(p, e, i) + 2) == 0x00EE
  {
    hide Addr, Top, OpAt, Legal;
    TurnPlace(p, e, i);
    assert HoldsAt(p, e, mem, i) && HoldsAt(p, e, mem, i + 1);
    assert StmtOk(p, p[i]) && StmtOk(p, p[i + 1]);
    NoAddress(0x00EE);
    if p[i].target.Some? { AssembledTarget(p, e, i); }
  }

  /** The rewrite applies to the compacted program in memory. */
  lemma {:induction false} SitesLoaded(p: Source, e: Edit, mem: Memory)
    requires Accepted(p) && Legal(p, e) && Turnable(p, e) && Loaded(p, e, mem)
    ensures SitesOk(Sites(p, e), mem)
  {
    hide Addr, Top, OpAt, Accepted, Legal, Loaded;
    forall s | s in Sites(p, e) ensures 0 <= s && s + 3 < 0x1000 && Top(OpAt(mem, s)) == 2 && OpAt(mem, s + 2) == 0x00EE {
      var i :| i in e.turn && i <= |p| && s == Addr(p, e, i);
      TurnPlace(p, e, i);
      TurnWord(p, e, i, mem);
    }
  }

  /** The optimized program in memory: every statement that is left is the word it
      assembles to, with JP for CALL where it was turned. */
  lemma {:induction false} OptimizedWords(p: Source, e: Edit, mem: Memory, i: nat)
    requires Accepted(p) && Legal(p, e) && Turnable(p, e) && Loaded(p, e, mem) && i < |p| && p[i].Insn? && i !in e.drop
    ensures HoldsAt(p, e, mem, i)
    ensures
      var was, now := OpAt(mem, Addr(p, e, i)), OpAt(Patch(Sites(p, e), mem), Addr(p, e, i));
      if i in e.turn then was >= 0x1000 && now == was - 0x1000 else now == was
  {
    hide Addr, Top, OpAt, Legal, Patch, NNN;
    SitesLoaded(p, e, mem);
    var a := Addr(p, e, i);
    if i in e.turn {
      FetchSite(Sites(p, e), mem, a);
    } else {
      SitesElsewhere(p, e, i);
      InRange(p, e, i);
      FetchElsewhere(Sites(p, e), mem, a);
    }
  }

  /** No other statement starts or ends at a turned call. */
  lemma {:induction false} SitesElsewhere(p: Source, e: Edit, i: nat)
    requires Accepted(p) && Legal(p, e) && Turnable(p, e) && i < |p| && p[i].Insn? && i !in e.drop
    ensures i !in e.turn ==> Addr(p, e, i) !in Sites(p, e) && Wrap(Addr(p, e, i)) !in Sites(p, e)
    ensures Wrap(Addr(p, e, i) + 1) !in Sites(p, e)
  {
    hide Addr, Top, Accepted, Legal;
    Inside(p, e, i);
    assert Old(p, |p|) <= 0x1000 by { AcceptedFits(p); }
    forall k | k in e.turn && k <= |p|
      ensures k != i ==> Addr(p, e, k) != Addr(p, e, i)
      ensures Addr(p, e, k) != Addr(p, e, i) + 1
    {
      assert TurnableAt(p, k);
      TurnPlace(p, e, k);
      if Addr(p, e, k) == Addr(p, e, i) { OneKept(p, e, i, k, Addr(p, e, i)); }
      if Addr(p, e, k) == Addr(p, e, i) + 1 { OneKept(p, e, i, k, Addr(p, e, i) + 1); }
    }
  }

  // --------------------------------------- one step of the rewritten program

  function AsMach(s: Side): Mach { Mach(s.core, 0, s.sent) }

  /** `z` runs the rewritten program, `d` the one that is only compacted. */
  ghost predicate Tied(sites: set<int>, d: Side, z: Side)
  {
    Matches(sites, AsMach(d), AsMach(z)) && SitesOk(sites, d.core.mem)
  }

  lemma {:induction false} IgnoresInput(op: word, c: Core, inp: Input)
    requires !Tape.Reads(op)
    ensures ExecCore(op, c, inp) == ExecCore(op, c, NO_INPUT)
  {
    hide X, Y, N, NNN, Bits, Store, Load, SpritePixels;
    NotSystem(op);
    if Top(op) == 0xF { hide ExecArith; } else { hide ExecMisc, ExecArith, KK; }
  }

  /** A step with an input of its own is a step with that input on the tape. */
  lemma {:induction false} SideStep(inp: Input, s: Side)
    ensures
      var t := TapeStep(_ => inp, AsMach(s));
      match StepWith(inp, s)
      case Some(n) => t.Some? && t.value.core == n.core && t.value.sent == n.sent
      case None => t.None?
  {
    var op := OpAt(s.core.mem, s.core.pc);
    if !Tape.Reads(op) { IgnoresInput(op, s.core, inp); }
    hide ExecCore, OpAt, Tape.Reads, Sends;
  }

  predicate Waits(sites: set<int>, s: Side) { Stutters(sites, AsMach(s)) }

  lemma {:induction false} TiedStep(sites: set<int>, d: Side, z: Side, inp: Input)
    requires Tied(sites, d, z) && Safe(sites, AsMach(d)) && StepWith(inp, d).Some?
    ensures if Waits(sites, d) then Tied(sites, StepWith(inp, d).value, z)
      else StepWith(inp, z).Some? && Tied(sites, StepWith(inp, d).value, StepWith(inp, z).value)
  {
    hide SitesOk, Safe, TapeStep, Stutters, StepWith, Patch, Erase, OpAt;
    SideStep(inp, d);
    SideStep(inp, z);
    StepMatches(_ => inp, sites, AsMach(d), AsMach(z)) by { hide Matches; }
  }

  /** An error: the rewritten program has it too, unless it is a CALL on a full
      stack which is rewritten, or for which it has room left. */
  lemma {:induction false} TiedError(sites: set<int>, d: Side, z: Side, inp: Input)
    requires Tied(sites, d, z) && Safe(sites, AsMach(d)) && StepWith(inp, d).None?
    ensures StepWith(inp, z).None? <==>
      Top(OpAt(d.core.mem, d.core.pc)) != 2 || (d.core.pc !in sites && |z.core.stack| == |d.core.stack|)
  {
    SideStep(inp, d);
    SideStep(inp, z);
    ErrorMatches(_ => inp, sites, AsMach(d), AsMach(z));
    hide SitesOk, Safe, TapeStep, Stutters, StepWith, Matches, OpAt, Top;
  }

  // ------------------------------------------- the sites are left alone

  lemma {:induction false} SameTouch(p: Source, e: Edit, i: nat)
    requires Accepted(p) && Legal(p, e) && i < |p| && p[i].Insn? && i !in e.drop
    ensures p[i].target.Some? ==> p[i].target.value <= |p|
    ensures 0 <= Assembled(p, e, i) < 0x10000
    ensures DataRead(Assembled(p, e, i)) <= Touched(p[i].op) && DataWritten(Assembled(p, e, i)) <= Touched(p[i].op)
  {
    hide Addr, Legal, DataRead, DataWritten, Top;
    assert StmtOk(p, p[i]);
    if p[i].target.None? {
      KeptWord(p, e, i);
      if i in e.total { GroupTouches(Assembled(p, e, i)); }
    } else {
      TotalKinds(p, e, i);
      if i in e.total { FoldTarget(p[i].op); }
      AssembledTarget(p, e, i);
      GroupTouches(Assembled(p, e, i));
      TouchKinds(p[i].op);
    }
  }

  lemma GroupTouches(op: word)
    ensures Top(op) in {1, 2, 6, 0xA, 0xB} ==> DataRead(op) == 0 == DataWritten(op)
  {
    hide X, N, KK;
  }

  /** What the step touches is no byte of a turned CALL or its RET. */
  lemma {:induction false} TouchedApart(p: Source, e: Edit, base: Option<nat>, a: word, b: word, n: nat, x: int)
    requires Accepted(p) && Legal(p, e) && Turnable(p, e) && Within(p, e, base, a, n) && b == Shifted(p, e, base, a)
    requires 0 <= x < 0x1000 && Offset(x, b) < n
    ensures !Guarded(Sites(p, e), x)
  {
    hide Addr, Top, Accepted, Legal, Corresponds, Offset, Shifted;
    var j := Offset(x, b);
    OffsetAt(b, j, x);
    assert PairAt(p, e, base, a, j);
    forall k | k in e.turn && k <= |p| ensures x !in {Addr(p, e, k) as int, Addr(p, e, k) + 1, Addr(p, e, k) + 2, Addr(p, e, k) + 3} {
      assert TurnableAt(p, k);
      TurnPlace(p, e, k);
      InsnApart(p, e, k, Wrap(a + j), x);
      InsnApart(p, e, k + 1, Wrap(a + j), x);
    }
  }

  /** A step of the compacted program leaves the sites alone. */
  lemma {:induction false} SafeStep(p: Source, e: Edit, i: nat, base: Option<nat>, a: Side, b: Side, inp: Input)
    requires Related(p, e, i, a, b) && DataRelated(p, e, i, base, a.core, b.core)
    requires Legal(p, e) && Turnable(p, e) && Stands(p, e, i, base, inp, a) && i !in e.drop
    ensures Safe(Sites(p, e), AsMach(b))
  {
    hide Addr, Top, Legal, Within, DataRead, DataWritten, Frames, RegsMatch, OpAt, Assembled, SameData, Shifted, Offset, Sites, Turnable, Touched,
      Accepted, LoadsI, Loose, WaitsForKey, Allowed, Guarded;
    var sites, n := Sites(p, e), Touched(p[i].op);
    Fetches(p, e, i, a, b);
    SameTouch(p, e, i);
    SitesElsewhere(p, e, i);
    SiteHere(p, e, i);
    InStep(p, e, i, base, a.core.i, b.core.i);
    if n > 0 {
      TouchKinds(p[i].op);
      forall x | 0 <= x < 0x1000 && Offset(x, b.core.i) < n ensures !Guarded(sites, x) {
        TouchedApart(p, e, base, a.core.i, b.core.i, n, x);
      }
      Unguarded(sites);
    }
  }

  lemma Unguarded(sites: set<int>)
    ensures forall x :: x in sites ==> Guarded(sites, x)
  {}

  lemma SiteHere(p: Source, e: Edit, i: nat)
    requires i <= |p|
    ensures i in e.turn ==> Addr(p, e, i) in Sites(p, e)
  {
    hide Addr;
  }

  // ------------------------------------------------------------ whole runs

  /** The inputs of the steps the rewritten program takes: none where it waits
      for the other to unwind. */
  function Fed(sites: set<int>, s: Side, inps: seq<Input>): seq<Input>
  {
    if inps == [] then []
    else
      var front := inps[..|inps| - 1];
      Fed(sites, s, front) + (match RunWith(front, s) case Some(t) => if Waits(sites, t) then [] else [inps[|inps| - 1]] case None => [])
  }

  lemma {:induction false} FedMore(sites: set<int>, s: Side, inps: seq<Input>, inp: Input)
    requires RunWith(inps, s).Some?
    ensures Fed(sites, s, inps + [inp]) == Fed(sites, s, inps) + if Waits(sites, RunWith(inps, s).value) then [] else [inp]
  {
    assert (inps + [inp])[..|inps|] == inps;
    hide Waits;
  }

  /** The inputs of the optimized program. */
  function FinalInputs(p: Source, e: Edit, b: Core, inps: seq<Input>, path: seq<nat>): seq<Input>
    requires |path| == |inps| + 1
  {
    Fed(Sites(p, e), Side(b, []), Left(e, inps, path))
  }

  /** The three programs after a run: the original at statement `i`, the compacted
      one there too, and the optimized one in the compacted one's state up to the
      erased frames. */
  ghost predicate Arrived(p: Source, e: Edit, i: nat, base: Option<nat>, c: Side, d: Side, z: Side)
  {
    Related(p, e, i, c, d) && DataRelated(p, e, i, base, c.core, d.core) && Tied(Sites(p, e), d, z)
  }

  lemma {:induction false} ArrivedNext(p: Source, e: Edit, i: nat, base: Option<nat>, c: Side, d: Side, z: Side, inp: Input, j: nat)
    requires Arrived(p, e, i, base, c, d, z) && Legal(p, e) && Sound(p, e) && Turnable(p, e) && Stands(p, e, i, base, inp, c)
    requires StepWith(inp, c).Some? && j < |p| && StepWith(inp, c).value.core.pc == Old(p, j)
    ensures
      var next := NextBase(p[i], base);
      if i in e.drop then Arrived(p, e, j, next, StepWith(inp, c).value, d, z)
      else if Waits(Sites(p, e), d) then StepWith(inp, d).Some? && Arrived(p, e, j, next, StepWith(inp, c).value, StepWith(inp, d).value, z)
      else
        && StepWith(inp, d).Some? && StepWith(inp, z).Some?
        && Arrived(p, e, j, next, StepWith(inp, c).value, StepWith(inp, d).value, StepWith(inp, z).value)
  {
    hide Related, DataRelated, Tied, Legal, Sound, Turnable, Stands, StepWith, NextBase, Waits, Sites;
    StepRelated(p, e, i, base, c, d, inp, j);
    if i !in e.drop {
      SafeStep(p, e, i, base, c, d, inp);
      TiedStep(Sites(p, e), d, z, inp);
    }
  }

  /** The program that optimize_peepholes returns does what the source does: after
      any run of the source it has taken at most one step for each, and is at the
      same statement in a state that corresponds, with no deeper stack. */
  lemma {:induction false} Optimized(p: Source, e: Edit, a: Core, b: Core, inps: seq<Input>, path: seq<nat>)
    requires Accepted(p) && Legal(p, e) && Sound(p, e) && Turnable(p, e) && Started(p, e, a, b)
    requires Passes(p, e, Side(a, []), inps, path)
    ensures RunWith(Left(e, inps, path), Side(b, [])).Some?
    ensures RunWith(FinalInputs(p, e, b, inps, path), Side(Rewritten(Sites(p, e), b), [])).Some?
    ensures
      var c, d := RunWith(inps, Side(a, [])).value, RunWith(Left(e, inps, path), Side(b, [])).value;
      var z := RunWith(FinalInputs(p, e, b, inps, path), Side(Rewritten(Sites(p, e), b), [])).value;
      Arrived(p, e, path[|inps|], BaseAt(p, path), c, d, z) && |z.core.stack| <= |c.core.stack|
    decreases |inps|
  {
    hide Legal, Sound, Related, DataRelated, StepWith, Loaded, SameData, Stands, NextBase, Turnable, Tied, Waits, Sites, Fed, Arrived;
    if inps == [] {
      StartRelated(p, e, a, b, path[0]);
      StartTied(p, e, b);
      NoneFed(Sites(p, e), Side(b, []));
      assert Arrived(p, e, 0, None, Side(a, []), Side(b, []), Side(Rewritten(Sites(p, e), b), [])) by { ArrivedAt(p, e, a, b); }
    } else {
      var front, inp, before := inps[..|inps| - 1], inps[|inps| - 1], path[..|inps|];
      Optimized(p, e, a, b, front, before);
      var left, fed := Left(e, front, before), FinalInputs(p, e, b, front, before);
      ArrivedNext(p, e, path[|inps| - 1], BaseAt(p, before), RunWith(front, Side(a, [])).value, RunWith(left, Side(b, [])).value,
                  RunWith(fed, Side(Rewritten(Sites(p, e), b), [])).value, inp, path[|inps|]);
      RunMore(left, inp, Side(b, []));
      RunMore(fed, inp, Side(Rewritten(Sites(p, e), b), []));
      FedMore(Sites(p, e), Side(b, []), left, inp);
      assert left + [] == left && fed + [] == fed;
    }
    ArrivedShallow(p, e, path[|inps|], BaseAt(p, path), RunWith(inps, Side(a, [])).value, RunWith(Left(e, inps, path), Side(b, [])).value,
                   RunWith(FinalInputs(p, e, b, inps, path), Side(Rewritten(Sites(p, e), b), [])).value);
  }

  lemma NoneFed(sites: set<int>, s: Side)
    ensures Fed(sites, s, []) == []
  {}

  lemma {:induction false} StartTied(p: Source, e: Edit, b: Core)
    requires Accepted(p) && Legal(p, e) && Turnable(p, e) && Loaded(p, e, b.mem) && b.stack == []
    ensures Tied(Sites(p, e), Side(b, []), Side(Rewritten(Sites(p, e), b), []))
  {
    hide Loaded, Legal, Accepted, Turnable, SitesOk, Patch, Sites;
    SitesLoaded(p, e, b.mem);
  }

  lemma ArrivedAt(p: Source, e: Edit, a: Core, b: Core)
    requires Related(p, e, 0, Side(a, []), Side(b, [])) && DataRelated(p, e, 0, None, a, b)
    requires Tied(Sites(p, e), Side(b, []), Side(Rewritten(Sites(p, e), b), []))
    ensures Arrived(p, e, 0, None, Side(a, []), Side(b, []), Side(Rewritten(Sites(p, e), b), []))
  {
    hide Related, DataRelated, Tied;
  }

  lemma {:induction false} ArrivedShallow(p: Source, e: Edit, i: nat, base: Option<nat>, c: Side, d: Side, z: Side)
    requires Arrived(p, e, i, base, c, d, z)
    ensures |z.core.stack| <= |d.core.stack| == |c.core.stack|
  {
    hide DataRelated, Addr, RegsMatch, Loaded, Patch, OpAt, Accepted;
    FramesLength(p, e, c.core.stack, d.core.stack);
    Shallower(Sites(p, e), AsMach(d), AsMach(z));
  }

  /** Where the source stops with an error the optimized program has taken all the
      same steps, and stops too, unless that is a CALL on a full stack which was
      turned into a jump, or for which it has room left. */
  lemma {:induction false} OptimizedErrors(p: Source, e: Edit, a: Core, b: Core, inps: seq<Input>, path: seq<nat>, inp: Input)
    requires Accepted(p) && Legal(p, e) && Sound(p, e) && Turnable(p, e) && Started(p, e, a, b)
    requires Passes(p, e, Side(a, []), inps, path)
    requires Stands(p, e, path[|inps|], BaseAt(p, path), inp, RunWith(inps, Side(a, [])).value)
    requires RunWith(inps + [inp], Side(a, [])).None?
    ensures
      var i, c := path[|inps|], RunWith(inps, Side(a, [])).value;
      var fed, s := FinalInputs(p, e, b, inps, path), Side(Rewritten(Sites(p, e), b), []);
      && i !in e.drop && RunWith(fed, s).Some?
      && (RunWith(fed + [inp], s).None? <==> Top(p[i].op) != 2 || (i !in e.turn && |RunWith(fed, s).value.core.stack| == |c.core.stack|))
  {
    hide Legal, Sound, Related, DataRelated, StepWith, Loaded, SameData, Stands, NextBase, Passes, Left, Started, Turnable, Tied, Sites, Fed, Arrived, Top;
    assert |path| == |inps| + 1 && RunWith(inps, Side(a, [])).Some? by { PassesEnd(p, e, Side(a, []), inps, path); }
    Optimized(p, e, a, b, inps, path);
    var i, base, c := path[|inps|], BaseAt(p, path), RunWith(inps, Side(a, [])).value;
    var d, fed, s := RunWith(Left(e, inps, path), Side(b, [])).value, FinalInputs(p, e, b, inps, path), Side(Rewritten(Sites(p, e), b), []);
    RunMore(inps, inp, Side(a, []));
    RunMore(fed, inp, s);
    ErrorStep(p, e, i, base, c, d, RunWith(fed, s).value, inp);
  }

  lemma {:induction false} ErrorStep(p: Source, e: Edit, i: nat, base: Option<nat>, c: Side, d: Side, z: Side, inp: Input)
    requires Arrived(p, e, i, base, c, d, z) && Legal(p, e) && Sound(p, e) && Turnable(p, e) && Stands(p, e, i, base, inp, c)
    requires StepWith(inp, c).None?
    ensures i !in e.drop
    ensures StepWith(inp, z).None? <==> Top(p[i].op) != 2 || (i !in e.turn && |z.core.stack| == |c.core.stack|)
  {
    hide Related, DataRelated, Tied, Legal, Sound, Turnable, Stands, StepWith, Sites, Top, Addr, OpAt;
    StepErrors(p, e, i, base, c, d, inp);
    SafeStep(p, e, i, base, c, d, inp);
    TiedError(Sites(p, e), d, z, inp);
    ArrivedShallow(p, e, i, base, c, d, z);
    HereTop(p, e, i, base, c, d, inp);
  }

  lemma {:induction false} HereTop(p: Source, e: Edit, i: nat, base: Option<nat>, c: Side, d: Side, inp: Input)
    requires Related(p, e, i, c, d) && Legal(p, e) && Turnable(p, e) && Stands(p, e, i, base, inp, c) && i !in e.drop
    ensures Top(OpAt(d.core.mem, d.core.pc)) == Top(p[i].op)
    ensures d.core.pc in Sites(p, e) <==> i in e.turn
  {
    hide Addr, Top, Legal, Within, Frames, RegsMatch, OpAt, Assembled, Sites, Turnable, Loose, WaitsForKey, Allowed;
    Fetches(p, e, i, c, d);
    SitesElsewhere(p, e, i);
    SiteHere(p, e, i);
    if p[i].target.None? {
      KeptWord(p, e, i);
    } else {
      assert StmtOk(p, p[i]);
      TotalKinds(p, e, i);
      if i in e.total { FoldTarget(p[i].op); }
      AssembledTarget(p, e, i);
    }
  }
}
