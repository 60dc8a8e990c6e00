/** Block simulation: running the block compiled for an address does what the
    interpreter does there, one pass, or two when a skip has the jump after it
    folded in. */
module Simulation {
  import opened Chip8
  import opened Bench
  import opened Interp
  import opened Trace
  import opened TraceSpec
  import opened Lowering

  // -------------------------------------------------- pieces of every block

  /** The state after a block's head. */
  function AfterHead(cfg: Config, k: nat, j: Native): Native
  {
    var s := if k != 0 && k % SPACING == 0 then RunSafepoint(cfg, j) else j;
    s.(env := Retire(s.env, 1))
  }

  /** The state after a safepoint and the store of the program counter. */
  function AfterLanding(cfg: Config, q: nat, j: Native): Native
  {
    var s := RunSafepoint(cfg, j);
    s.(core := At(s.core, q))
  }

  lemma {:induction false} HeadDoes(cfg: Config, code: seq<bool>, k: nat, j: Native)
    requires |code| == 0x1000
    ensures RunPieces(cfg, code, Head(k), Going(j)) == Going(AfterHead(cfg, k, j))
  {
    hide RunPieces, RunOps, RunSafepoint, RunHost;
    RunPlain(cfg, code, [Count(1)], Going(j));
    RunOne(cfg, code, Count(1), Going(j));
    RunPlain(cfg, code, [Safepoint, Count(1)], Going(j));
    RunTwo(cfg, code, Safepoint, Count(1), Going(j));
    assert Plain([Count(1)]) == [] + [Do(Count(1))];
    assert Plain([Safepoint, Count(1)]) == [Do(Safepoint)] + [Do(Count(1))];
  }

  lemma {:induction false} LandingDoes(cfg: Config, code: seq<bool>, q: nat, j: Native)
    requires |code| == 0x1000
    ensures RunPieces(cfg, code, Landing(q), Going(j)) == Going(AfterLanding(cfg, q, j))
  {
    var s := RunSafepoint(cfg, j);
    hide RunPieces, RunOps, RunSafepoint, RunHost, Eval;
    RunPlain(cfg, code, [Safepoint, SetPc(Const(q))], Going(j));
    RunTwo(cfg, code, Safepoint, SetPc(Const(q)), Going(j));
    EvalLeaf(s, q, 0);
  }

  /** A safepoint changes no more than the timers and the bookkeeping. */
  lemma {:induction false} SafepointAlike(cfg: Config, j: Native, e: Env)
    requires Alike(j.env, e)
    ensures Alike(RunSafepoint(cfg, j).env, e)
    ensures RunSafepoint(cfg, j).core == j.core && RunSafepoint(cfg, j).smc == j.smc
    ensures RunSafepoint(cfg, j).env.retired == j.env.retired
  {
    SyncAlike(j.env, e);
    hide Alike, Advance, Done;
  }

  lemma {:induction false} HeadAlike(cfg: Config, k: nat, j: Native, e: Env)
    requires Alike(j.env, e)
    ensures Alike(AfterHead(cfg, k, j).env, Retire(Roll(e), 1))
    ensures AfterHead(cfg, k, j).core == j.core && AfterHead(cfg, k, j).smc == j.smc
    ensures AfterHead(cfg, k, j).env.retired == j.env.retired + 1
  {
    SafepointAlike(cfg, j, e);
    RetireRolled(j.env, e, 1);
    RetireRolled(RunSafepoint(cfg, j).env, e, 1);
    hide Alike, RunSafepoint, Roll;
  }

  // ------------------------------------------------------ what is to be shown

  /** Where execution stands after leaving block `k` of `t`. */
  function Land(t: Trace, k: nat, exit: Term, j: Native): int
    requires exit.Fall? ==> k + 1 < |t|
    requires exit.Close? ==> exit.k < |t|
  {
    match exit
    case Fall => t[k + 1].pc
    case Close(i) => t[i].pc
    case Return => j.core.pc
  }

  /** The flow `f` out of block `k` is where the interpreter is after as many
      passes as the block retired instructions, with the program counter stored
      wherever the trace may be left. */
  ghost predicate Follows(ref: Config, t: Trace, k: nat, f: Flow, from: nat, s: Vm)
  {
    && from < f.j.env.retired <= from + 2
    && var out := Run(ref, s, f.j.env.retired - from);
       match f
       case Going(_) => false
       case Leaving(j, exit) =>
         && out.Ok?
         && (exit.Fall? ==> k + 1 < |t|)
         && (exit.Close? ==> exit.k <= k && exit.k < |t|)
         && AlikeVm(Here(j, Land(t, k, exit, j)), out.vm)
         && (exit != Fall ==> j.core.pc == Land(t, k, exit, j))
       case Crashed(j) =>
         && out.Err?
         && AlikeVm(Vm(At(j.core, out.vm.core.pc), j.env), out.vm)
  }

  /** Block `k` entered where the interpreter stands in `s`. */
  ghost predicate Entered(cfg: Config, ref: Config, code: seq<bool>, t: Trace, k: nat, j: Native, s: Vm)
  {
    && |code| == 0x1000
    && TraceOk(j.core.mem, t) && k < |t|
    && AlikeVm(Here(j, t[k].pc), s)
    && cfg.(budget := ref.budget) == ref
  }

  lemma {:induction false} OnePass(ref: Config, s: Vm)
    ensures Run(ref, s, 1) == BasicBlock(ref, Vm(s.core, Retire(Roll(s.env), 1)))
  {
    assert Run(ref, s, 0) == Ok(s);
    hide BasicBlock, Roll;
  }

  // -------------------------------------------------------------- the cases

  lemma {:induction false} Arrives(ref: Config, t: Trace, k: nat, j: Native, exit: Term, q: int, from: nat, s: Vm)
    requires from < j.env.retired <= from + 2
    requires Run(ref, s, j.env.retired - from).Ok?
    requires AlikeVm(Here(j, q), Run(ref, s, j.env.retired - from).vm)
    requires exit.Fall? ==> k + 1 < |t| && t[k + 1].pc == q
    requires exit.Close? ==> exit.k <= k < |t| && t[exit.k].pc == q == j.core.pc
    requires exit.Return? ==> j.core.pc == q
    ensures Follows(ref, t, k, Leaving(j, exit), from, s)
  {
    hide Run, AlikeVm, Here;
  }

  /** Leaving through a landing, or by falling through. */
  lemma {:induction false} Lands(cfg: Config, ref: Config, code: seq<bool>, t: Trace, k: nat, ps: seq<Piece>, q: nat,
                                 a: Native, j: Native, s: Vm)
    requires |code| == 0x1000 && k < |t| && q < 0x10000
    requires RunPieces(cfg, code, ps, Going(j)) == Going(a)
    requires j.env.retired < a.env.retired <= j.env.retired + 2
    requires Run(ref, s, a.env.retired - j.env.retired).Ok?
    requires AlikeVm(Here(a, q), Run(ref, s, a.env.retired - j.env.retired).vm)
    requires ContinuesAt(Pcs(t), k, t[k], ps, q)
    ensures Follows(ref, t, k, RunBlock(cfg, code, t[k], j), j.env.retired, s)
  {
    hide RunPieces, RunSafepoint, Run, Alike, Landing, Emitted, Follows;
    var out := Run(ref, s, a.env.retired - j.env.retired);
    if Emitted(Pcs(t), k + 1, q) {
      var x := AfterLanding(cfg, q, a);
      RunAppend(cfg, code, ps, Landing(q), Going(j));
      LandingDoes(cfg, code, q, a);
      SafepointAlike(cfg, a, out.vm.env);
      assert RunBlock(cfg, code, t[k], j) == Leaving(x, t[k].term);
      Arrives(ref, t, k, x, t[k].term, q, j.env.retired, s);
    } else {
      assert RunBlock(cfg, code, t[k], j) == Leaving(a, Fall);
      Arrives(ref, t, k, a, Fall, q, j.env.retired, s);
    }
  }

  lemma {:induction false} NeverWaits(op: word, pc: address, k: nat)
    requires !Lower(op, pc, k).End?
    ensures !Waits(op)
  {
    NotSystem(op);
    hide Top, KK, X, Y, N, NNN;
  }

  /** The instruction at block `k`, as the interpreter sees it from `s`. */
  lemma {:induction false} Reference(cfg: Config, ref: Config, code: seq<bool>, t: Trace, k: nat, j: Native, s: Vm)
    requires Entered(cfg, ref, code, t, k, j, s)
    requires
      var a := AfterHead(cfg, k, j);
      Waits(OpAt(j.core.mem, t[k].pc)) ==>
        SameRun(cfg, ref, a.env.retired, BasicBlock(cfg, Here(a, t[k].pc)).vm.env.Now())
    ensures AlikeOutcome(BasicBlock(cfg, Here(AfterHead(cfg, k, j), t[k].pc)), Run(ref, s, 1))
  {
    hide Alike, Roll, Retire, OpAt, BasicBlock, AfterHead, Run, TraceOk, SameRun, Waits;
    var a := AfterHead(cfg, k, j);
    var b := Vm(s.core, Retire(Roll(s.env), 1));
    HeadAlike(cfg, k, j, s.env);
    assert AlikeVm(Here(a, t[k].pc), b);
    BasicBlockAlike(cfg, ref, Here(a, t[k].pc), b);
    OnePass(ref, s);
  }

  lemma {:induction false} RunBody(cfg: Config, code: seq<bool>, k: nat, ops: seq<Op>, j: Native)
    requires |code| == 0x1000
    ensures RunPieces(cfg, code, Head(k) + Plain(ops), Going(j)) == RunOps(cfg, code, ops, Going(AfterHead(cfg, k, j)))
  {
    hide RunPieces, RunOps, AfterHead;
    HeadDoes(cfg, code, k, j);
    RunAppend(cfg, code, Head(k), Plain(ops), Going(j));
    RunPlain(cfg, code, ops, Going(AfterHead(cfg, k, j)));
  }

  lemma {:induction false} EnteredBlock(cfg: Config, ref: Config, code: seq<bool>, t: Trace, k: nat, j: Native, s: Vm)
    requires Entered(cfg, ref, code, t, k, j, s)
    ensures |code| == 0x1000 && k < |t| && BlockOk(j.core.mem, Pcs(t), k, t[k]) && Pcs(t)[k] == t[k].pc
    ensures AfterHead(cfg, k, j).core == j.core && AfterHead(cfg, k, j).env.retired == j.env.retired + 1
    ensures Sane(AfterHead(cfg, k, j).env)
  {
    HeadAlike(cfg, k, j, s.env);
  }

  lemma {:induction false} InlineBlock(cfg: Config, ref: Config, code: seq<bool>, t: Trace, k: nat, j: Native, s: Vm)
    requires k < |t| && Entered(cfg, ref, code, t, k, j, s)
    requires Lower(OpAt(j.core.mem, t[k].pc), t[k].pc, t[k].local).Inline?
    ensures Follows(ref, t, k, RunBlock(cfg, code, t[k], j), j.env.retired, s)
  {
    hide Entered, RunPieces, RunOps, BasicBlock, Alike, OpAt, Lower, ContinuesAt, RunBlock, Run, AfterHead, Waits, Follows;
    EnteredBlock(cfg, ref, code, t, k, j, s);
    var pc: int, op := t[k].pc, OpAt(j.core.mem, t[k].pc);
    var ops := Lower(op, pc, t[k].local).ops;
    var a := AfterHead(cfg, k, j);
    var r := RunOps(cfg, code, ops, Going(a));
    NeverWaits(op, pc, t[k].local);
    Reference(cfg, ref, code, t, k, j, s);
    InlineCorrect(cfg, code, op, pc, t[k].local, a);
    RunBody(cfg, code, k, ops, j);
    Lands(cfg, ref, code, t, k, Head(k) + Plain(ops), pc + 2, r.j, j, s);
  }

  lemma {:induction false} EndBlock(cfg: Config, ref: Config, code: seq<bool>, t: Trace, k: nat, j: Native, s: Vm)
    requires k < |t| && Entered(cfg, ref, code, t, k, j, s)
    requires Lower(OpAt(j.core.mem, t[k].pc), t[k].pc, t[k].local).End?
    requires |code| == 0x1000 && (Waits(OpAt(j.core.mem, t[k].pc)) ==>
      SameRun(cfg, ref, j.env.retired + 1, RunBlock(cfg, code, t[k], j).j.env.Now()))
    ensures Follows(ref, t, k, RunBlock(cfg, code, t[k], j), j.env.retired, s)
  {
    hide Entered, RunPieces, RunOps, BasicBlock, Alike, OpAt, Lower, Run, AfterHead, Waits, Follows, SameRun, Head, Tracks, Notes;
    EnteredBlock(cfg, ref, code, t, k, j, s);
    var pc: int, op := t[k].pc, OpAt(j.core.mem, t[k].pc);
    var ops := Lower(op, pc, t[k].local).ops;
    var a := AfterHead(cfg, k, j);
    var r := RunOps(cfg, code, ops, Going(a));
    EndCorrect(cfg, code, op, pc, t[k].local, a);
    TracksRetired(cfg, a, r.j);
    RunBody(cfg, code, k, ops, j);
    assert RunBlock(cfg, code, t[k], j) == if r.Going? then Leaving(r.j, Return) else r;
    Reference(cfg, ref, code, t, k, j, s);
    if r.Going? {
      Arrives(ref, t, k, r.j, Return, r.j.core.pc, j.env.retired, s);
    } else {
      Fails(ref, t, k, r.j, pc, j.env.retired, s);
    }
  }

  lemma {:induction false} TracksRetired(cfg: Config, a: Native, b: Native)
    requires Tracks(cfg, a, b)
    ensures b.env.retired == a.env.retired
  {}

  lemma {:induction false} Fails(ref: Config, t: Trace, k: nat, j: Native, pc: address, from: nat, s: Vm)
    requires j.env.retired == from + 1
    requires Run(ref, s, 1).Err?
    requires AlikeVm(Vm(At(j.core, pc), j.env), Run(ref, s, 1).vm)
    ensures Follows(ref, t, k, Crashed(j), from, s)
  {
    hide Run, Alike;
  }

  lemma {:induction false} JumpRef(cfg: Config, op: word, pc: address, k: nat, s: Vm)
    requires op == OpAt(s.core.mem, s.core.pc) && Lower(op, pc, k).Jump?
    ensures BasicBlock(cfg, s) == Ok(Vm(s.core.(pc := Lower(op, pc, k).target), Sync(s.env)))
  {
    hide LowerArith, LowerMisc, X, Y, N, KK, NNN, OpAt, Sync, ExecStraight, ExecCall, KeyStep, WaitStep;
    LowerKinds(op, pc, k);
  }

  lemma {:induction false} LowerKinds(op: word, pc: address, k: nat)
    ensures Lower(op, pc, k).Jump? ==> op != 0x00E0 && op != 0x00EE && Top(op) <= 1 && Lower(op, pc, k).target == NNN(op)
    ensures Lower(op, pc, k).Branch? <==> IsCompare(op)
  {
    NotSystem(op);
    hide X, Y, N, KK, NNN;
  }

  /** A landing reached where the interpreter jumps to `q`. */
  lemma {:induction false} JumpAlike(cfg: Config, q: address, a: Native, s: Vm)
    requires AlikeVm(Vm(a.core.(pc := q), Sync(a.env)), s)
    requires Sane(a.env)
    ensures AlikeVm(Here(AfterLanding(cfg, q, a), q), s)
  {
    assert Alike(a.env, a.env);
    hide Alike, RunSafepoint, Sync;
    SyncAlike(a.env, a.env);
    AlikeSym(Sync(a.env), a.env);
    AlikeTrans(a.env, Sync(a.env), s.env);
    SafepointAlike(cfg, a, s.env);
  }

  lemma {:induction false} RunJump(cfg: Config, code: seq<bool>, k: nat, q: nat, j: Native)
    requires |code| == 0x1000
    ensures RunPieces(cfg, code, Head(k) + Landing(q), Going(j)) == Going(AfterLanding(cfg, q, AfterHead(cfg, k, j)))
  {
    hide RunPieces, RunOps, AfterHead, AfterLanding, Head, Landing;
    HeadDoes(cfg, code, k, j);
    RunAppend(cfg, code, Head(k), Landing(q), Going(j));
    LandingDoes(cfg, code, q, AfterHead(cfg, k, j));
  }

  lemma {:induction false} JumpBlock(cfg: Config, ref: Config, code: seq<bool>, t: Trace, k: nat, j: Native, s: Vm)
    requires k < |t| && Entered(cfg, ref, code, t, k, j, s)
    requires Lower(OpAt(j.core.mem, t[k].pc), t[k].pc, t[k].local).Jump?
    ensures Follows(ref, t, k, RunBlock(cfg, code, t[k], j), j.env.retired, s)
  {
    hide Entered, RunPieces, BasicBlock, Alike, Sane, OpAt, Lower, Run, AfterHead, AfterLanding, Waits, Follows, Emitted, Head, Landing;
    EnteredBlock(cfg, ref, code, t, k, j, s);
    var pc: int, op := t[k].pc, OpAt(j.core.mem, t[k].pc);
    var q := Lower(op, pc, t[k].local).target;
    var a := AfterHead(cfg, k, j);
    var x := AfterLanding(cfg, q, a);
    NeverWaits(op, pc, t[k].local);
    Reference(cfg, ref, code, t, k, j, s);
    JumpRef(cfg, op, pc, t[k].local, Here(a, pc));
    JumpAlike(cfg, q, a, Run(ref, s, 1).vm);
    LandedPc(cfg, q, a);
    RunJump(cfg, code, k, q, j);
    assert JumpsTo(Pcs(t), k, t[k], q);
    assert RunBlock(cfg, code, t[k], j) == Leaving(x, t[k].term);
    Arrives(ref, t, k, x, t[k].term, q, j.env.retired, s);
  }

  lemma {:induction false} LandedPc(cfg: Config, q: address, a: Native)
    ensures AfterLanding(cfg, q, a).core.pc == q
    ensures AfterLanding(cfg, q, a).env.retired == a.env.retired
  {
    hide Advance;
  }

  // ------------------------------------------------------------------- skips

  lemma {:induction false} BranchRef(cfg: Config, op: word, pc: address, k: nat, a: Native)
    requires op == OpAt(a.core.mem, pc) && Lower(op, pc, k).Branch?
    ensures
      var taken := Holds(Lower(op, pc, k).cond, a);
      BasicBlock(cfg, Here(a, pc)) == Ok(Vm(At(a.core, pc + if taken then 4 else 2), a.env))
  {
    LowerKinds(op, pc, k);
    BranchHolds(op, pc, k, a);
    QuietEnv(cfg, op, At(a.core, pc), a.env);
    NotSystem(op);
    hide Lower, Holds, X, Y, N, KK, NNN, OpAt, EnvStep, ExecStraight, ExecCall;
  }

  lemma {:induction false} BranchHolds(op: word, pc: address, k: nat, a: Native)
    requires Lower(op, pc, k).Branch?
    ensures Holds(Lower(op, pc, k).cond, a) ==
      var vx, vy := a.core.regs[X(op)], a.core.regs[Y(op)];
      if Top(op) == 3 then vx == KK(op)
      else if Top(op) == 4 then vx != KK(op)
      else if Top(op) == 5 then vx == vy
      else vx != vy
  {
    LowerKinds(op, pc, k);
    EvalLeaf(a, KK(op), X(op));
    EvalLeaf(a, 0, Y(op));
    hide Eval, X, Y, N, KK, NNN, LowerArith, LowerMisc;
  }

  function SkipPieces(cond: Cond, els: seq<Op>, exit: Term, q: nat): seq<Piece>
  {
    [Unless(cond, els, exit), Do(SetPc(Const(q)))]
  }

  lemma {:induction false} RunSkip(cfg: Config, code: seq<bool>, cond: Cond, els: seq<Op>, exit: Term, q: nat, a: Native)
    requires |code| == 0x1000 && exit != Fall
    ensures RunPieces(cfg, code, SkipPieces(cond, els, exit, q), Going(a)) ==
      if Holds(cond, a) then Going(a.(core := At(a.core, q))) else Leave(RunOps(cfg, code, els, Going(a)), exit)
  {
    var ps := SkipPieces(cond, els, exit, q);
    assert ps[1..] == [ps[1]] && [ps[1]][1..] == [];
    EvalLeaf(a, q, 0);
    hide RunOps, Holds, Eval, RunHost;
    assert RunPieces(cfg, code, ps, Going(a)) == RunPieces(cfg, code, [ps[1]], RunPiece(cfg, code, ps[0], a));
    if Holds(cond, a) {
      assert RunPieces(cfg, code, [ps[1]], Going(a)) == RunPieces(cfg, code, [], RunPiece(cfg, code, ps[1], a));
    }
  }

  lemma {:induction false} RunFused(cfg: Config, code: seq<bool>, q: nat, a: Native)
    requires |code| == 0x1000
    ensures RunOps(cfg, code, [Count(1), Safepoint, SetPc(Const(q))], Going(a))
         == Going(AfterLanding(cfg, q, a.(env := Retire(a.env, 1))))
  {
    hide RunOps, Eval, RunHost, RunSafepoint;
    RunThree(cfg, code, Count(1), Safepoint, SetPc(Const(q)), Going(a));
    EvalLeaf(RunSafepoint(cfg, a.(env := Retire(a.env, 1))), q, 0);
  }

  /** What a trace does from a skip's block: the taken side stays in the trace,
      the other runs `els` and leaves, whatever follows in the block. */
  lemma {:induction false} RunBranch(cfg: Config, code: seq<bool>, t: Trace, k: nat, cond: Cond, els: seq<Op>, exit: Term, q: nat, j: Native)
    requires |code| == 0x1000 && k < |t| && exit != Fall
    requires ContinuesAt(Pcs(t), k, t[k], Head(k) + SkipPieces(cond, els, exit, q), q)
    ensures
      var a := AfterHead(cfg, k, j);
      if Holds(cond, a)
      then RunPieces(cfg, code, Head(k) + SkipPieces(cond, els, exit, q), Going(j)) == Going(a.(core := At(a.core, q)))
      else RunBlock(cfg, code, t[k], j) == Leave(RunOps(cfg, code, els, Going(a)), exit)
  {
    hide RunOps, Holds, AfterHead, Head, SkipPieces, Landing, Emitted, Closes;
    var a, skip := AfterHead(cfg, k, j), SkipPieces(cond, els, exit, q);
    HeadDoes(cfg, code, k, j);
    RunAppend(cfg, code, Head(k), skip, Going(j));
    RunSkip(cfg, code, cond, els, exit, q, a);
    RunAppend(cfg, code, Head(k) + skip, Landing(q), Going(j));
  }

  lemma {:induction false} TwoPasses(ref: Config, s: Vm)
    requires Run(ref, s, 1).Ok?
    ensures
      var u := Run(ref, s, 1).vm;
      Run(ref, s, 2) == BasicBlock(ref, Vm(u.core, Retire(Roll(u.env), 1)))
  {
    assert Run(ref, s, 2) == Pass(ref, Run(ref, s, 1).vm);
    hide BasicBlock, Roll, Run;
  }

  /** The jump folded into a skip not taken is the interpreter's second pass. */
  lemma {:induction false} FusedAlike(cfg: Config, ref: Config, q: address, pc: address, a: Native, s: Vm)
    requires Run(ref, s, 1).Ok? && AlikeVm(Here(a, pc + 2), Run(ref, s, 1).vm)
    requires var next := OpAt(a.core.mem, pc + 2); Top(next) == 1 && NNN(next) == q
    ensures
      var x := AfterLanding(cfg, q, a.(env := Retire(a.env, 1)));
      Run(ref, s, 2).Ok? && AlikeVm(Here(x, q), Run(ref, s, 2).vm)
  {
    hide Alike, Sane, OpAt, BasicBlock, Lower, Run, AfterLanding, Top, NNN, Sync, Roll;
    var u, b := Run(ref, s, 1).vm, a.(env := Retire(a.env, 1));
    var v := Vm(u.core, Retire(Roll(u.env), 1));
    RetireRolled(a.env, u.env, 1);
    TwoPasses(ref, s);
    JumpWord(OpAt(a.core.mem, pc + 2), pc);
    assert At(a.core, pc + 2).pc == pc + 2;
    JumpRef(ref, OpAt(a.core.mem, pc + 2), pc, 0, v);
    SyncAlike(b.env, v.env);
    AlikeSane(b.env, v.env);
    JumpAlike(cfg, q, b, Run(ref, s, 2).vm);
  }

  lemma {:induction false} AlikeSane(a: Env, b: Env)
    requires Alike(a, b)
    ensures Sane(a)
  {}

  lemma {:induction false} JumpWord(op: word, pc: address)
    requires Top(op) == 1
    ensures Lower(op, pc, 0) == Jump(NNN(op))
  {
    NotSystem(op);
    hide X, Y, N, KK, NNN, LowerArith, LowerMisc;
  }

  lemma {:induction false} BranchBlock(cfg: Config, ref: Config, code: seq<bool>, t: Trace, k: nat, j: Native, s: Vm)
    requires k < |t| && Entered(cfg, ref, code, t, k, j, s)
    requires Lower(OpAt(j.core.mem, t[k].pc), t[k].pc, t[k].local).Branch?
    ensures Follows(ref, t, k, RunBlock(cfg, code, t[k], j), j.env.retired, s)
  {
    hide Entered, RunPieces, RunOps, RunBlock, BasicBlock, Alike, Sane, OpAt, Lower, Run, AfterHead, Waits, Follows, Emitted, Head,
      Landing, NotTaken, ContinuesAt, SkipPieces, Holds;
    EnteredBlock(cfg, ref, code, t, k, j, s);
    var pc: int, op := t[k].pc, OpAt(j.core.mem, t[k].pc);
    var cond := Lower(op, pc, t[k].local).cond;
    var a := AfterHead(cfg, k, j);
    var els, exit :| NotTaken(j.core.mem, Pcs(t), k, els, exit)
      && ContinuesAt(Pcs(t), k, t[k], Head(k) + [Unless(cond, els, exit), Do(SetPc(Const(pc + 4)))], pc + 4);
    SkipShape(cond, els, exit, pc + 4);
    NotTakenLeaves(j.core.mem, Pcs(t), k, els, exit);
    NeverWaits(op, pc, t[k].local);
    Reference(cfg, ref, code, t, k, j, s);
    BranchRef(cfg, op, pc, t[k].local, a);
    RunBranch(cfg, code, t, k, cond, els, exit, pc + 4, j);
    if Holds(cond, a) {
      Lands(cfg, ref, code, t, k, Head(k) + SkipPieces(cond, els, exit, pc + 4), pc + 4, a.(core := At(a.core, pc + 4)), j, s);
    } else {
      NotTakenBlock(cfg, ref, code, t, k, els, exit, j, a, s);
    }
  }

  lemma {:induction false} SkipShape(cond: Cond, els: seq<Op>, exit: Term, q: nat)
    ensures SkipPieces(cond, els, exit, q) == [Unless(cond, els, exit), Do(SetPc(Const(q)))]
  {}

  lemma {:induction false} NotTakenLeaves(mem: Memory, pcs: seq<address>, k: nat, els: seq<Op>, exit: Term)
    requires k < |pcs| && NotTaken(mem, pcs, k, els, exit)
    ensures exit != Fall
  {
    hide Top, NNN, OpAt, Emitted;
  }

  lemma {:induction false} NotTakenBlock(cfg: Config, ref: Config, code: seq<bool>, t: Trace, k: nat, els: seq<Op>, exit: Term,
                                         j: Native, a: Native, s: Vm)
    requires |code| == 0x1000 && k < |t| && a.core.mem == j.core.mem && a.env.retired == j.env.retired + 1
    requires NotTaken(j.core.mem, Pcs(t), k, els, exit)
    requires RunBlock(cfg, code, t[k], j) == Leave(RunOps(cfg, code, els, Going(a)), exit)
    requires Run(ref, s, 1).Ok?
    requires var pc: int := t[k].pc; AlikeVm(Here(a, pc + 2), Run(ref, s, 1).vm)
    ensures Follows(ref, t, k, RunBlock(cfg, code, t[k], j), j.env.retired, s)
  {
    hide RunOps, RunBlock, OpAt, Run, Follows, Emitted, Top, NNN, AfterLanding, Alike;
    var pc: int := t[k].pc;
    var next := OpAt(j.core.mem, pc + 2);
    if Top(next) == 1 {
      var q, b := NNN(next), a.(env := Retire(a.env, 1));
      var x := AfterLanding(cfg, q, b);
      FusedAlike(cfg, ref, q, pc, a, s);
      RunFused(cfg, code, q, a);
      LandedPc(cfg, q, b);
      Arrives(ref, t, k, x, exit, q, j.env.retired, s);
    } else {
      var x := a.(core := At(a.core, pc + 2));
      RunSetPc(cfg, code, pc + 2, a);
      Arrives(ref, t, k, x, Return, pc + 2, j.env.retired, s);
    }
  }

  lemma {:induction false} RunSetPc(cfg: Config, code: seq<bool>, q: nat, a: Native)
    requires |code| == 0x1000
    ensures RunOps(cfg, code, [SetPc(Const(q))], Going(a)) == Going(a.(core := At(a.core, q)))
  {
    EvalLeaf(a, q, 0);
    hide Eval, RunHost, RunOps;
    RunOne(cfg, code, SetPc(Const(q)), Going(a));
  }

  /** Block simulation: from any state whose program the trace was compiled
      from, the block for an address does the interpreter's work there. */
  lemma {:induction false} BlockSimulation(cfg: Config, ref: Config, code: seq<bool>, t: Trace, k: nat, j: Native, s: Vm)
    requires k < |t| && Entered(cfg, ref, code, t, k, j, s)
    requires |code| == 0x1000 && (Waits(OpAt(j.core.mem, t[k].pc)) ==>
      SameRun(cfg, ref, j.env.retired + 1, RunBlock(cfg, code, t[k], j).j.env.Now()))
    ensures Follows(ref, t, k, RunBlock(cfg, code, t[k], j), j.env.retired, s)
  {
    EnteredBlock(cfg, ref, code, t, k, j, s);
    hide Entered, Follows, RunBlock, OpAt, Lower, Waits, SameRun, Branches, ContinuesAt, JumpsTo, Head;
    var b := t[k];
    match Lower(OpAt(j.core.mem, b.pc), b.pc, b.local)
    case Inline(_) => InlineBlock(cfg, ref, code, t, k, j, s);
    case End(_) => EndBlock(cfg, ref, code, t, k, j, s);
    case Jump(_) => JumpBlock(cfg, ref, code, t, k, j, s);
    case Branch(_) => BranchBlock(cfg, ref, code, t, k, j, s);
  }
}
