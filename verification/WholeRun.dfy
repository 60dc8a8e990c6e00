/** The main theorems about the trace JIT: every run agrees with the interpreter
    after the same number of retired instructions, stops within a constant of
    its budget, and is finite. */
module WholeRun {
  import opened Chip8
  import opened Bench
  import opened Interp
  import opened Trace
  import opened TraceSpec
  import opened Lowering
  import opened Simulation
  import opened Cadence
  import opened Dispatch

  // ------------------------------------------------------------- agreement

  /** The interpreter's main loop, given the budget `ref`, after as many passes
      as `a` has retired instructions. */
  function Mirror(ref: Config, mem: Memory, a: Jit): Outcome
  {
    Run(ref, Boot(mem), a.vm.env.retired)
  }

  /** The engine `a` is where the interpreter is. Inside a trace the interpreter
      stands at the address of the block about to run, which the stored program
      counter need not equal. */
  ghost predicate Agrees(ref: Config, mem: Memory, a: Jit)
  {
    var out := Mirror(ref, mem, a);
    match a.phase
    case InTrace(t, k) => k < |t| && out.Ok? && AlikeVm(Here(a.vm, t[k].pc), out.vm)
    case Exited => out.Err? && AlikeVm(Vm(At(a.vm.core, out.vm.core.pc), a.vm.env), out.vm)
    case _ => out.Ok? && AlikeVm(Vm(a.vm.core, a.vm.env), out.vm)
  }

  /** Nothing more will be executed. */
  predicate Halting(a: Jit)
  {
    a.phase == Stopped || (a.phase == Returned && a.vm.over)
  }

  /** The interpreter given `ref` stops no sooner than the engine given `cfg` has
      got to in `a`: the same budget, or, while the clock is short of the cap, one
      that the engine's retired count has not passed and meets when it halts. */
  ghost predicate Comparable(cfg: Config, ref: Config, a: Jit)
  {
    ref == cfg || (
      && cfg.(budget := ref.budget) == ref && cfg.budget <= ref.budget
      && a.vm.env.retired <= ref.budget && a.vm.env.Now() < cfg.Cap()
      && (Halting(a) ==> a.vm.env.retired == ref.budget))
  }

  lemma {:induction false} RunCompose(ref: Config, s: Vm, n: nat, m: nat)
    requires Run(ref, s, n).Ok?
    ensures Run(ref, s, n + m) == Run(ref, Run(ref, s, n).vm, m)
    decreases m
  {
    hide Pass;
    if m > 0 {
      RunCompose(ref, s, n, m - 1);
      assert n + m - 1 == n + (m - 1);
    }
  }

  lemma {:induction false} StartAgrees(ref: Config, mem: Memory)
    ensures Agrees(ref, mem, Start(mem))
  {}

  /** The stop conditions of the two budgets cannot be told apart at an Fx0A. */
  lemma {:induction false} BudgetsAgree(cfg: Config, ref: Config, retired: nat, now: nat)
    requires cfg.(budget := ref.budget) == ref && cfg.budget <= ref.budget
    requires retired <= ref.budget && now < cfg.Cap()
    requires retired >= cfg.budget ==> retired == ref.budget
    ensures SameRun(cfg, ref, retired, now)
  {}

  lemma {:induction false} BlockAgrees(cfg: Config, ref: Config, mem: Memory, a: Jit, b: Jit)
    requires JitOk(cfg, a) && a.phase.InTrace? && Step(cfg, a, b) && Agrees(ref, mem, a)
    requires Comparable(cfg, ref, b)
    ensures Agrees(ref, mem, b)
  {
    hide Steady, Alike, Run, RunBlock, Waits, OpAt, AllMarked, TraceOk, Due, Gap, Notes, Onward, SameRun;
    var t, k := a.phase.t, a.phase.k;
    BlockStepOk(cfg, a, t, k);
    var f, s, r := RunBlock(cfg, a.code, t[k], a.vm), Mirror(ref, mem, a).vm, a.vm.env.retired;
    assert b == Leaves(a, t, k, f);
    if Waits(OpAt(a.vm.core.mem, t[k].pc)) {
      WaitBudgets(cfg, ref, a, b, t, k);
    }
    BlockSimulation(cfg, ref, a.code, t, k, a.vm, s);
    RunCompose(ref, Boot(mem), r, f.j.env.retired - r);
    assert r + (f.j.env.retired - r) == f.j.env.retired;
  }

  lemma {:induction false} WaitBudgets(cfg: Config, ref: Config, a: Jit, b: Jit, t: Trace, k: nat)
    requires |a.code| == 0x1000 && k < |t| && Keeps(cfg, a.code, t, k, RunBlock(cfg, a.code, t[k], a.vm), a.vm)
    requires b == Leaves(a, t, k, RunBlock(cfg, a.code, t[k], a.vm))
    requires Comparable(cfg, ref, b)
    requires Waits(OpAt(a.vm.core.mem, t[k].pc))
    ensures SameRun(cfg, ref, a.vm.env.retired + 1, RunBlock(cfg, a.code, t[k], a.vm).j.env.Now())
  {
    hide Steady, RunBlock, OpAt, Waits, Notes;
    if ref != cfg {
      BudgetsAgree(cfg, ref, a.vm.env.retired + 1, b.vm.env.Now());
    }
  }

  lemma {:induction false} HeadAgrees(cfg: Config, ref: Config, mem: Memory, a: Jit, b: Jit)
    requires JitOk(cfg, a) && a.phase == AtHead && Step(cfg, a, b) && Agrees(ref, mem, a)
    ensures Agrees(ref, mem, b)
  {
    hide Steady, Alike, Run, AllMarked, Gap, Grows, Compiles;
    if a.vm.core.pc !in a.cache { MissOk(cfg, a, b); }
  }

  lemma {:induction false} ServiceAgrees(cfg: Config, ref: Config, mem: Memory, a: Jit)
    requires Agrees(ref, mem, a) && a.phase == Returned
    ensures Agrees(ref, mem, Services(cfg, a))
  {
    hide Alike, Run, Roll, Sync, Services;
    var e := Mirror(ref, mem, a).vm.env;
    SyncAlike(a.vm.env, e);
    RollAlike(Sync(a.vm.env), e);
    ServicesEnv(cfg, a);
    SyncClock(a.vm.env);
  }

  lemma {:induction false} SyncClock(e: Env)
    ensures Sync(e).retired == e.retired
  {}

  lemma {:induction false} StepAgrees(cfg: Config, ref: Config, mem: Memory, a: Jit, b: Jit)
    requires JitOk(cfg, a) && Step(cfg, a, b) && Agrees(ref, mem, a)
    requires Comparable(cfg, ref, b)
    ensures Agrees(ref, mem, b)
  {
    hide Agrees, JitOk;
    if a.phase == AtHead {
      HeadAgrees(cfg, ref, mem, a, b);
    } else if a.phase == Returned {
      ServiceAgrees(cfg, ref, mem, a);
    } else {
      BlockAgrees(cfg, ref, mem, a, b);
    }
  }

  /** Clock and retired count never run backwards, and a halting engine stops. */
  lemma {:induction false} StepMonotone(cfg: Config, a: Jit, b: Jit)
    requires JitOk(cfg, a) && Step(cfg, a, b)
    ensures a.vm.env.retired <= b.vm.env.retired && a.vm.env.Now() <= b.vm.env.Now()
    ensures Halting(a) ==> Halting(b) && b.vm.env.retired == a.vm.env.retired
  {
    hide Steady, AllMarked, TraceOk, RunBlock, Notes, Due, Gap, Waits;
    match a.phase
    case AtHead => if a.vm.core.pc !in a.cache { MissOk(cfg, a, b); }
    case InTrace(t, k) => BlockStepOk(cfg, a, t, k);
    case Returned => ServicesOk(cfg, a);
    case _ =>
  }

  /** Every reachable state of the engine is sound, its code cache coherent. */
  lemma {:induction false} RunOk(cfg: Config, mem: Memory, run: seq<Jit>)
    requires cfg.Valid() && ValidRun(cfg, mem, run)
    ensures JitOk(cfg, Last(run))
    decreases |run|
  {
    hide JitOk, Step;
    if |run| == 1 {
      StartOk(cfg, mem);
    } else {
      var prefix := run[..|run| - 1];
      RunOk(cfg, mem, prefix);
      assert Step(cfg, run[|run| - 2], run[|run| - 2 + 1]);
      StepOk(cfg, Last(prefix), Last(run));
    }
  }

  /** Whole-run refinement. Take any run of the engine, of any program, one that
      rewrites its own code included. Whatever state it has reached, the engine is
      where the interpreter with the same configuration is after as many passes as
      the engine has retired instructions. The same holds of the interpreter with
      any other budget it can be compared with. */
  lemma {:induction false} RunAgrees(cfg: Config, ref: Config, mem: Memory, run: seq<Jit>)
    requires cfg.Valid() && ValidRun(cfg, mem, run)
    requires Comparable(cfg, ref, Last(run))
    ensures Agrees(ref, mem, Last(run))
    decreases |run|
  {
    hide JitOk, Step, Agrees, Halting;
    if |run| == 1 {
      StartAgrees(ref, mem);
    } else {
      var prefix := run[..|run| - 1];
      assert Step(cfg, run[|run| - 2], run[|run| - 2 + 1]);
      RunOk(cfg, mem, prefix);
      StepMonotone(cfg, Last(prefix), Last(run));
      RunAgrees(cfg, ref, mem, prefix);
      StepAgrees(cfg, ref, mem, Last(prefix), Last(run));
    }
  }

  // ------------------------------------------------------ what is reported

  /** The state a BENCH engine reports, timers levelled at the final clock. */
  datatype Report = Report(core: Core, delay: byte, sound: byte, rng: nat, retired: nat, clock: nat)

  function Reported(core: Core, e: Env): Report
  {
    Report(core, Sync(e).delay, Sync(e).sound, e.rng, e.retired, e.Now())
  }

  lemma {:induction false} AlikeReports(core: Core, a: Env, b: Env)
    requires Alike(a, b)
    ensures Reported(core, a) == Reported(core, b)
  {
    SyncAlike(a, b);
  }

  /** The interpreter's main loop leaves after exactly `n` passes. */
  ghost predicate StopsAfter(cfg: Config, s: Vm, n: nat)
  {
    && (Run(cfg, s, n).Ok? ==> n > 0 && Done(cfg, Run(cfg, s, n).vm.env))
    && forall i :: 0 < i < n ==> Run(cfg, s, i).Ok? && !Done(cfg, Run(cfg, s, i).vm.env)
  }

  lemma {:induction false} PassClock(cfg: Config, s: Vm)
    ensures Pass(cfg, s).vm.env.retired == s.env.retired + 1
    ensures Pass(cfg, s).vm.env.polled >= s.env.polled
  {
    EnvClock(cfg, OpAt(s.core.mem, s.core.pc), s.core, Retire(Roll(s.env), 1));
    hide EnvStep, ExecCore, OpAt, Roll;
  }

  lemma {:induction false} EnvClock(cfg: Config, op: word, c: Core, e: Env)
    ensures EnvStep(cfg, op, c, e).1.retired == e.retired && EnvStep(cfg, op, c, e).1.polled >= e.polled
  {
    hide Top, KK, X, Y, N, PollKeys, Highest, Keys;
  }

  lemma {:induction false} RunClock(cfg: Config, s: Vm, i: nat, n: nat)
    requires i <= n && Run(cfg, s, n).Ok?
    ensures Run(cfg, s, i).Ok? && Run(cfg, s, i).vm.env.retired == s.env.retired + i
    ensures Run(cfg, s, i).vm.env.polled <= Run(cfg, s, n).vm.env.polled
    decreases n
  {
    hide Pass;
    if i < n {
      PassClock(cfg, Run(cfg, s, n - 1).vm);
      RunClock(cfg, s, i, n - 1);
    } else if n > 0 {
      PassClock(cfg, Run(cfg, s, n - 1).vm);
      RunClock(cfg, s, n - 1, n - 1);
    }
  }

  /** An engine that exits with an error does so at the instruction where the
      interpreter returns one, and only there. */
  lemma {:induction false} ErrorsAgree(cfg: Config, mem: Memory, run: seq<Jit>)
    requires cfg.Valid() && ValidRun(cfg, mem, run)
    ensures Last(run).phase == Exited <==> Run(cfg, Boot(mem), Last(run).vm.env.retired).Err?
  {
    RunAgrees(cfg, cfg, mem, run);
  }

  // ------------------------------------------------- overshoot and termination

  /** One 64-instruction period, one safepoint gap, and one pass through a trace. */
  const LAG: int := SAFEPOINT_INTERVAL + MAX_GAP + 0x1000 + 1

  /** While the end of the run is not yet noticed it cannot be far past; after
      that only the rest of the trace can still run. */
  ghost predicate Punctual(cfg: Config, a: Jit)
  {
    && (!a.vm.over ==> a.vm.env.retired < cfg.budget + SAFEPOINT_INTERVAL + MAX_GAP)
    && match a.phase
       case InTrace(t, k) => |t| <= 0x1000 && a.vm.env.retired <= cfg.budget + SAFEPOINT_INTERVAL + MAX_GAP + k
       case _ => a.vm.env.retired <= cfg.budget + LAG
  }

  lemma {:induction false} Pigeonhole(pcs: seq<address>, n: nat)
    requires Distinct(pcs) && forall i :: 0 <= i < |pcs| ==> pcs[i] < n
    ensures |pcs| <= n
  {
    assert |pcs| == 0 || pcs[0] < n;
    if n == 0 {
    } else if i :| 0 <= i < |pcs| && pcs[i] == n - 1 {
      var rest := pcs[..i] + pcs[i + 1..];
      forall k | 0 <= k < |rest| ensures rest[k] < n - 1 {
        assert rest[k] == pcs[if k < i then k else k + 1];
      }
      Pigeonhole(rest, n - 1);
    } else {
      Pigeonhole(pcs, n - 1);
    }
  }

  /** Each address gets at most one block, so a trace is no longer than memory. */
  lemma {:induction false} TraceLength(mem: Memory, t: Trace)
    requires TraceOk(mem, t)
    ensures |t| <= 0x1000
  {
    Pigeonhole(Pcs(t), 0x1000);
  }

  lemma {:induction false} SteadyPunctual(cfg: Config, j: Native)
    requires Steady(cfg, j) && Gap(j) <= MAX_GAP && !j.over
    ensures j.env.retired < cfg.budget + SAFEPOINT_INTERVAL + MAX_GAP
  {}

  lemma {:induction false} StepPunctual(cfg: Config, a: Jit, b: Jit)
    requires JitOk(cfg, a) && JitOk(cfg, b) && Step(cfg, a, b) && Punctual(cfg, a)
    ensures Punctual(cfg, b)
  {
    hide Steady, TraceOk, AllMarked, RunBlock, Notes, Due, Gap, Waits;
    if !b.vm.over { SteadyPunctual(cfg, b.vm); }
    match a.phase
    case AtHead =>
      if a.vm.core.pc in a.cache { TraceLength(a.vm.core.mem, a.cache[a.vm.core.pc]); }
      else { MissOk(cfg, a, b); }
    case InTrace(t, k) => BlockStepOk(cfg, a, t, k);
    case Returned => ServicesOk(cfg, a);
    case _ =>
  }

  /** The number of steps already taken never exceeds this. */
  function Progress(a: Jit): int
  {
    4 * a.vm.env.retired +
    match a.phase
    case AtHead => if a.vm.core.pc in a.cache then 1 else 0
    case InTrace(_, _) => 2
    case Returned => -1
    case Stopped => 1
    case Exited => 0
    case Undefined => 1
  }

  lemma {:induction false} StepProgress(cfg: Config, a: Jit, b: Jit)
    requires JitOk(cfg, a) && Step(cfg, a, b)
    ensures Progress(a) < Progress(b)
  {
    hide Steady, TraceOk, AllMarked, RunBlock, Notes, Onward, Due, Gap, Waits;
    match a.phase
    case AtHead => if a.vm.core.pc !in a.cache { MissOk(cfg, a, b); }
    case InTrace(t, k) => BlockStepOk(cfg, a, t, k);
    case Returned => ServicesOk(cfg, a);
    case _ =>
  }

  /** Overshoot and latency: no run retires more than a constant past its budget,
      never more than 33 instructions between two tests of the stop condition,
      and every run is finite, however the program loops. */
  lemma {:induction false} RunBounded(cfg: Config, mem: Memory, run: seq<Jit>)
    requires cfg.Valid() && ValidRun(cfg, mem, run)
    ensures Last(run).vm.env.retired <= cfg.budget + LAG
    ensures Last(run).vm.widest <= MAX_GAP
    ensures |run| <= 4 * (cfg.budget + LAG) + 2
  {
    hide JitOk, Step, Punctual;
    RunPunctual(cfg, mem, run);
    assert JitOk(cfg, Last(run)) by { RunOk(cfg, mem, run); }
    PunctualBound(cfg, Last(run));
  }

  lemma {:induction false} PunctualBound(cfg: Config, a: Jit)
    requires JitOk(cfg, a) && Punctual(cfg, a)
    ensures a.vm.env.retired <= cfg.budget + LAG && a.vm.widest <= MAX_GAP
    ensures Progress(a) <= 4 * (cfg.budget + LAG) + 1
  {}

  lemma {:induction false} RunPunctual(cfg: Config, mem: Memory, run: seq<Jit>)
    requires cfg.Valid() && ValidRun(cfg, mem, run)
    ensures Punctual(cfg, Last(run)) && |run| - 1 <= Progress(Last(run))
    decreases |run|
  {
    hide JitOk, Step, Punctual, Progress;
    if |run| == 1 {
      StartPunctual(cfg, mem);
    } else {
      var prefix := run[..|run| - 1];
      assert Step(cfg, run[|run| - 2], run[|run| - 2 + 1]);
      RunOk(cfg, mem, prefix);
      RunOk(cfg, mem, run);
      RunPunctual(cfg, mem, prefix);
      StepPunctual(cfg, Last(prefix), Last(run));
      StepProgress(cfg, Last(prefix), Last(run));
    }
  }

  lemma {:induction false} StartPunctual(cfg: Config, mem: Memory)
    ensures Punctual(cfg, Start(mem)) && Progress(Start(mem)) >= 0
  {}
}
