/** How often native code looks up: the spacing of safepoints, the end of the
    run being noticed in time, and no store to compiled code passing unseen. */
module Cadence {
  import opened Chip8
  import opened Bench
  import opened Interp
  import opened Trace
  import opened TraceSpec
  import opened Lowering
  import opened Simulation

  /** 32 straight-line instructions and a folded jump. */
  const MAX_GAP: int := 33

  /** Instructions retired since the latest test of the stop condition. */
  function Gap(j: Native): int { j.env.retired - j.tested }

  /** The most instructions since a test on arrival at block `k`. */
  function Due(k: nat): nat
  {
    if k == 0 then 0 else (k - 1) % SPACING + 1
  }

  /** The end of the run is announced only when it has come; until then the
      next safepoint and the latest test lie within one period of the budget. */
  ghost predicate Steady(cfg: Config, j: Native)
  {
    && (j.over ==> Done(cfg, j.env))
    && (!j.over ==> j.next < cfg.budget + SAFEPOINT_INTERVAL && j.tested < cfg.budget + SAFEPOINT_INTERVAL)
    && j.tested <= j.env.retired
    && j.widest <= MAX_GAP
  }

  lemma {:induction false} SafepointSteady(cfg: Config, j: Native)
    requires Steady(cfg, j) && Gap(j) <= MAX_GAP
    ensures Steady(cfg, RunSafepoint(cfg, j)) && Gap(RunSafepoint(cfg, j)) == 0
    ensures j.over ==> RunSafepoint(cfg, j).over
    ensures RunSafepoint(cfg, j).core == j.core && RunSafepoint(cfg, j).smc == j.smc
    ensures RunSafepoint(cfg, j).env.retired == j.env.retired && RunSafepoint(cfg, j).env.polled == j.env.polled
  {
    hide Advance;
  }

  lemma {:induction false} TracksSteady(cfg: Config, j: Native, k: Native)
    requires Steady(cfg, j) && Gap(j) <= MAX_GAP && Tracks(cfg, j, k)
    ensures Steady(cfg, k) && Gap(k) <= Gap(j)
  {}

  lemma {:induction false} HeadSteady(cfg: Config, k: nat, j: Native)
    requires Steady(cfg, j) && Gap(j) <= Due(k)
    ensures Steady(cfg, AfterHead(cfg, k, j)) && Gap(AfterHead(cfg, k, j)) <= Due(k + 1) < MAX_GAP
    ensures j.over ==> AfterHead(cfg, k, j).over
    ensures AfterHead(cfg, k, j).core == j.core && AfterHead(cfg, k, j).smc == j.smc
    ensures AfterHead(cfg, k, j).env.retired == j.env.retired + 1
    ensures AfterHead(cfg, k, j).env.polled == j.env.polled
  {
    SafepointSteady(cfg, j);
    hide RunSafepoint;
  }

  lemma {:induction false} LandingSteady(cfg: Config, q: nat, j: Native)
    requires Steady(cfg, j) && Gap(j) <= MAX_GAP
    ensures Steady(cfg, AfterLanding(cfg, q, j)) && Gap(AfterLanding(cfg, q, j)) == 0
    ensures j.over ==> AfterLanding(cfg, q, j).over
    ensures AfterLanding(cfg, q, j).core == At(j.core, q) && AfterLanding(cfg, q, j).smc == j.smc
    ensures AfterLanding(cfg, q, j).env.retired == j.env.retired && AfterLanding(cfg, q, j).env.polled == j.env.polled
  {
    SafepointSteady(cfg, j);
    hide RunSafepoint;
  }

  /** From `j` to `k`: the clock runs on, the end of the run once announced stays
      announced, and the run stays steady. */
  ghost predicate Onward(cfg: Config, j: Native, k: Native)
  {
    && k.env.retired >= j.env.retired && k.env.polled >= j.env.polled
    && (j.over ==> k.over)
    && Steady(cfg, k) && Gap(k) <= MAX_GAP
  }

  /** What leaving block `k` guarantees: on a path that stays in the trace the
      program is untouched; a stop test is never overdue; a store to compiled
      code has raised the flush; a folded jump polls no keys; an Fx0A that finds
      the run over has ended it. */
  ghost predicate Keeps(cfg: Config, code: seq<bool>, t: Trace, k: nat, f: Flow, j: Native)
    requires |code| == 0x1000 && k < |t|
  {
    && !f.Going?
    && j.env.retired < f.j.env.retired <= j.env.retired + 2
    && (f.j.env.retired == j.env.retired + 2 ==> f.j.env.polled == j.env.polled)
    && Onward(cfg, j, f.j) && Notes(code, j, f.j)
    && (f.Leaving? && f.exit != Return ==> f.j.core.mem == j.core.mem && f.j.smc == j.smc)
    && (f.Leaving? && f.exit == Fall ==> k + 1 < |t| && Gap(f.j) <= Due(k + 1) && f.j.env.retired == j.env.retired + 1)
    && (f.Leaving? && f.exit.Close? ==> f.exit.k < |t| && Gap(f.j) == 0)
    && (Waits(OpAt(j.core.mem, t[k].pc)) && Done(cfg, f.j.env) ==>
          f.j.over && f.Leaving? && f.exit == Return && f.j.env.retired == j.env.retired + 1)
  }

  /** Block `k` entered with its stop test not overdue. */
  ghost predicate Ready(cfg: Config, code: seq<bool>, t: Trace, k: nat, j: Native)
  {
    |code| == 0x1000 && k < |t| && BlockOk(j.core.mem, Pcs(t), k, t[k]) && Steady(cfg, j) && Gap(j) <= Due(k)
  }

  lemma {:induction false} KeepsAfter(cfg: Config, code: seq<bool>, t: Trace, k: nat, a: Native, b: Native, exit: Term, j: Native)
    requires |code| == 0x1000 && k < |t|
    requires j.env.retired + 1 == a.env.retired && a.env.polled >= j.env.polled && (j.over ==> a.over)
    requires a.core.mem == j.core.mem && a.smc == j.smc
    requires Onward(cfg, a, b) && b.env.retired <= a.env.retired + 1
    requires b.env.retired == a.env.retired + 1 ==> b.env.polled == j.env.polled
    requires b.core.mem == j.core.mem && b.smc == j.smc
    requires !Waits(OpAt(j.core.mem, t[k].pc))
    requires exit == Fall ==> k + 1 < |t| && Gap(b) <= Due(k + 1) && b.env.retired == a.env.retired
    requires exit.Close? ==> exit.k < |t| && Gap(b) == 0
    ensures Keeps(cfg, code, t, k, Leaving(b, exit), j)
  {
    hide Steady, OpAt, Waits, Due, Gap;
  }

  /** Leaving through a landing, or by falling through. */
  lemma {:induction false} LandsKeeps(cfg: Config, code: seq<bool>, t: Trace, k: nat, ps: seq<Piece>, q: nat,
                                      a: Native, b: Native, j: Native)
    requires |code| == 0x1000 && k < |t|
    requires j.env.retired + 1 == a.env.retired && a.env.polled >= j.env.polled && (j.over ==> a.over)
    requires a.core.mem == j.core.mem && a.smc == j.smc
    requires Onward(cfg, a, b) && Gap(b) <= Due(k + 1) && b.env.retired == a.env.retired
    requires b.core.mem == j.core.mem && b.smc == j.smc
    requires !Waits(OpAt(j.core.mem, t[k].pc))
    requires RunPieces(cfg, code, ps, Going(j)) == Going(b)
    requires ContinuesAt(Pcs(t), k, t[k], ps, q)
    ensures Keeps(cfg, code, t, k, RunBlock(cfg, code, t[k], j), j)
  {
    hide Steady, OpAt, Waits, RunPieces, AfterLanding, Landing, Emitted, Keeps, Due, Gap;
    if Emitted(Pcs(t), k + 1, q) {
      var x := AfterLanding(cfg, q, b);
      RunAppend(cfg, code, ps, Landing(q), Going(j));
      LandingDoes(cfg, code, q, b);
      LandingSteady(cfg, q, b);
      KeepsAfter(cfg, code, t, k, a, x, t[k].term, j);
    } else {
      KeepsAfter(cfg, code, t, k, a, b, Fall, j);
    }
  }

  lemma {:induction false} InlineKeeps(cfg: Config, code: seq<bool>, t: Trace, k: nat, j: Native)
    requires k < |t| && Ready(cfg, code, t, k, j)
    requires Lower(OpAt(j.core.mem, t[k].pc), t[k].pc, t[k].local).Inline?
    ensures Keeps(cfg, code, t, k, RunBlock(cfg, code, t[k], j), j)
  {
    hide Steady, RunPieces, RunOps, RunBlock, BasicBlock, OpAt, Lower, ContinuesAt, AfterHead, Waits, Keeps, Head, Tracks, Due, Gap;
    var pc: int, op := t[k].pc, OpAt(j.core.mem, t[k].pc);
    var ops := Lower(op, pc, t[k].local).ops;
    var a := AfterHead(cfg, k, j);
    var r := RunOps(cfg, code, ops, Going(a));
    HeadSteady(cfg, k, j);
    NeverWaits(op, pc, t[k].local);
    InlineCorrect(cfg, code, op, pc, t[k].local, a);
    RunBody(cfg, code, k, ops, j);
    TracksOnward(cfg, a, r.j);
    LandsKeeps(cfg, code, t, k, Head(k) + Plain(ops), pc + 2, a, r.j, j);
  }

  lemma {:induction false} TracksOnward(cfg: Config, a: Native, b: Native)
    requires Steady(cfg, a) && Gap(a) <= MAX_GAP && Tracks(cfg, a, b)
    ensures Onward(cfg, a, b) && Gap(b) <= Gap(a) && b.env.retired == a.env.retired
  {
    TracksSteady(cfg, a, b);
    hide Steady;
  }

  lemma {:induction false} EndKeeps(cfg: Config, code: seq<bool>, t: Trace, k: nat, j: Native)
    requires k < |t| && Ready(cfg, code, t, k, j)
    requires Lower(OpAt(j.core.mem, t[k].pc), t[k].pc, t[k].local).End?
    ensures Keeps(cfg, code, t, k, RunBlock(cfg, code, t[k], j), j)
  {
    hide Steady, RunPieces, RunOps, BasicBlock, OpAt, Lower, AfterHead, Waits, Head, Tracks, Due, Gap;
    var pc: int, op := t[k].pc, OpAt(j.core.mem, t[k].pc);
    var ops := Lower(op, pc, t[k].local).ops;
    var a := AfterHead(cfg, k, j);
    var r := RunOps(cfg, code, ops, Going(a));
    HeadSteady(cfg, k, j);
    EndCorrect(cfg, code, op, pc, t[k].local, a);
    RunBody(cfg, code, k, ops, j);
    TracksOnward(cfg, a, r.j);
    assert RunBlock(cfg, code, t[k], j) == if r.Going? then Leaving(r.j, Return) else r;
  }

  lemma {:induction false} JumpKeeps(cfg: Config, code: seq<bool>, t: Trace, k: nat, j: Native)
    requires k < |t| && Ready(cfg, code, t, k, j)
    requires Lower(OpAt(j.core.mem, t[k].pc), t[k].pc, t[k].local).Jump?
    ensures Keeps(cfg, code, t, k, RunBlock(cfg, code, t[k], j), j)
  {
    hide Steady, RunPieces, RunOps, OpAt, Lower, AfterHead, AfterLanding, Waits, Head, Landing, Due, Gap, Keeps, Emitted;
    var pc: int, op := t[k].pc, OpAt(j.core.mem, t[k].pc);
    var q := Lower(op, pc, t[k].local).target;
    var a := AfterHead(cfg, k, j);
    var x := AfterLanding(cfg, q, a);
    HeadSteady(cfg, k, j);
    LandingSteady(cfg, q, a);
    NeverWaits(op, pc, t[k].local);
    RunJump(cfg, code, k, q, j);
    assert JumpsTo(Pcs(t), k, t[k], q);
    assert RunBlock(cfg, code, t[k], j) == Leaving(x, t[k].term);
    assert Due(k + 1) >= 0;
    KeepsAfter(cfg, code, t, k, a, x, t[k].term, j);
  }

  lemma {:induction false} BranchKeeps(cfg: Config, code: seq<bool>, t: Trace, k: nat, j: Native)
    requires k < |t| && Ready(cfg, code, t, k, j)
    requires Lower(OpAt(j.core.mem, t[k].pc), t[k].pc, t[k].local).Branch?
    ensures Keeps(cfg, code, t, k, RunBlock(cfg, code, t[k], j), j)
  {
    hide Steady, RunPieces, RunOps, RunBlock, OpAt, Lower, AfterHead, Waits, Emitted, Head, Landing, NotTaken, ContinuesAt, SkipPieces,
      Holds, Keeps, Due, Gap;
    var pc: int, op := t[k].pc, OpAt(j.core.mem, t[k].pc);
    var cond := Lower(op, pc, t[k].local).cond;
    var a := AfterHead(cfg, k, j);
    var els, exit :| NotTaken(j.core.mem, Pcs(t), k, els, exit)
      && ContinuesAt(Pcs(t), k, t[k], Head(k) + [Unless(cond, els, exit), Do(SetPc(Const(pc + 4)))], pc + 4);
    SkipShape(cond, els, exit, pc + 4);
    NotTakenLeaves(j.core.mem, Pcs(t), k, els, exit);
    HeadSteady(cfg, k, j);
    NeverWaits(op, pc, t[k].local);
    RunBranch(cfg, code, t, k, cond, els, exit, pc + 4, j);
    if Holds(cond, a) {
      var b := a.(core := At(a.core, pc + 4));
      MovedOnward(cfg, a, pc + 4);
      LandsKeeps(cfg, code, t, k, Head(k) + SkipPieces(cond, els, exit, pc + 4), pc + 4, a, b, j);
    } else {
      NotTakenKeeps(cfg, code, t, k, els, exit, a, j);
    }
  }

  lemma {:induction false} MovedOnward(cfg: Config, a: Native, q: int)
    requires Steady(cfg, a) && Gap(a) <= MAX_GAP
    ensures var b := a.(core := At(a.core, q)); Onward(cfg, a, b) && Gap(b) == Gap(a)
  {}

  lemma {:induction false} RetiredOnward(cfg: Config, a: Native)
    requires Steady(cfg, a) && Gap(a) < MAX_GAP
    ensures var b := a.(env := Retire(a.env, 1)); Onward(cfg, a, b) && Gap(b) <= MAX_GAP
  {}

  lemma {:induction false} NotTakenKeeps(cfg: Config, code: seq<bool>, t: Trace, k: nat, els: seq<Op>, exit: Term, a: Native, j: Native)
    requires |code| == 0x1000 && k < |t|
    requires j.env.retired + 1 == a.env.retired && a.env.polled >= j.env.polled && (j.over ==> a.over)
    requires a.core.mem == j.core.mem && a.smc == j.smc
    requires a.env.polled == j.env.polled
    requires Steady(cfg, a) && Gap(a) < MAX_GAP
    requires NotTaken(j.core.mem, Pcs(t), k, els, exit)
    requires !Waits(OpAt(j.core.mem, t[k].pc))
    ensures Keeps(cfg, code, t, k, Leave(RunOps(cfg, code, els, Going(a)), exit), j)
  {
    hide Steady, RunOps, OpAt, Waits, AfterLanding, Emitted, Top, NNN, Keeps, Gap;
    var pc: int := t[k].pc;
    var next := OpAt(j.core.mem, pc + 2);
    if Top(next) == 1 {
      var b := a.(env := Retire(a.env, 1));
      RunFused(cfg, code, NNN(next), a);
      RetiredOnward(cfg, a);
      LandingSteady(cfg, NNN(next), b);
      KeepsAfter(cfg, code, t, k, a, AfterLanding(cfg, NNN(next), b), exit, j);
    } else {
      RunSetPc(cfg, code, pc + 2, a);
      MovedOnward(cfg, a, pc + 2);
      KeepsAfter(cfg, code, t, k, a, a.(core := At(a.core, pc + 2)), exit, j);
    }
  }

  /** Along every path at most 33 instructions retire between two tests of the
      stop condition, and no block loses track of the program or of its end. */
  lemma {:induction false} BlockKeeps(cfg: Config, code: seq<bool>, t: Trace, k: nat, j: Native)
    requires k < |t| && Ready(cfg, code, t, k, j)
    ensures Keeps(cfg, code, t, k, RunBlock(cfg, code, t[k], j), j)
  {
    var b := t[k];
    assert !Lower(OpAt(j.core.mem, b.pc), b.pc, b.local).Unsupported?;
    hide Ready, Keeps, RunBlock, OpAt, Lower;
    match Lower(OpAt(j.core.mem, b.pc), b.pc, b.local)
    case Inline(_) => InlineKeeps(cfg, code, t, k, j);
    case End(_) => EndKeeps(cfg, code, t, k, j);
    case Jump(_) => JumpKeeps(cfg, code, t, k, j);
    case Branch(_) => BranchKeeps(cfg, code, t, k, j);
  }
}
