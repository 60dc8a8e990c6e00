/** The verdict of the differential test. The script runs the interpreter to the
    budget and then the JIT; when their counts differ it runs the interpreter
    again, to the JIT's count. That re-run has another budget, and with it
    another clock cap. Here is settled exactly when it reproduces the JIT. */
module Rerun {
  import opened Chip8
  import opened Bench
  import opened Interp
  import opened Trace
  import opened TraceSpec
  import opened Lowering
  import opened Simulation
  import opened Cadence
  import opened Dispatch
  import opened WholeRun

  // ------------------------------------------------------ passes that poll

  lemma {:induction false} WaitPolls(cfg: Config, op: word, c: Core, e: Env)
    ensures EnvStep(cfg, op, c, e).1.polled >= e.polled
    ensures EnvStep(cfg, op, c, e).1.polled > e.polled <==> Waits(op)
  {
    hide Top, KK, X, Y, N, PollKeys, Highest, Keys;
    NotSystem(op);
  }

  /** Fx0A is the instruction that polls. */
  lemma {:induction false} PassPolls(cfg: Config, s: Vm)
    ensures Pass(cfg, s).vm.env.polled >= s.env.polled
    ensures Pass(cfg, s).vm.env.polled > s.env.polled <==> Waits(OpAt(s.core.mem, s.core.pc))
  {
    WaitPolls(cfg, OpAt(s.core.mem, s.core.pc), s.core, Retire(Roll(s.env), 1));
    hide EnvStep, ExecCore, OpAt, Waits, Roll;
  }

  /** Pass `i` of the interpreter polled the keyboard. */
  predicate Polls(cfg: Config, s: Vm, i: nat)
    requires i > 0
  {
    Run(cfg, s, i).vm.env.polled > Run(cfg, s, i - 1).vm.env.polled
  }

  lemma {:induction false} PolledGrows(cfg: Config, s: Vm, i: nat, n: nat)
    requires i <= n
    ensures Run(cfg, s, i).vm.env.polled <= Run(cfg, s, n).vm.env.polled
    decreases n
  {
    hide Pass;
    if i < n {
      PolledGrows(cfg, s, i, n - 1);
      if Run(cfg, s, n - 1).Ok? { PassPolls(cfg, Run(cfg, s, n - 1).vm); }
    }
  }

  /** While nothing polls, the clock counts instructions. */
  lemma {:induction false} QuietClock(cfg: Config, s: Vm, i: nat, n: nat)
    requires i <= n && Run(cfg, s, n).Ok?
    requires forall k :: i < k <= n ==> !Polls(cfg, s, k)
    ensures Run(cfg, s, i).Ok? && Run(cfg, s, n).vm.env.Now() == Run(cfg, s, i).vm.env.Now() + (n - i)
    decreases n
  {
    hide Run;
    RunClock(cfg, s, i, n);
    RunClock(cfg, s, n, n);
    if i < n {
      assert !Polls(cfg, s, n);
      RunClock(cfg, s, n - 1, n);
      QuietClock(cfg, s, i, n - 1);
    }
  }

  // ------------------------------------ no Fx0A after the end of the JIT's run

  /** In pass `i` the interpreter polled, and the run was over after it. */
  ghost predicate LateWait(cfg: Config, mem: Memory, i: nat)
    requires i > 0
  {
    Polls(cfg, Boot(mem), i) && Done(cfg, Run(cfg, Boot(mem), i).vm.env)
  }

  /** Such an Fx0A is the last instruction the engine retires. */
  ghost predicate Prompt(cfg: Config, mem: Memory, a: Jit)
  {
    forall i {:trigger LateWait(cfg, mem, i)} :: 0 < i <= a.vm.env.retired && LateWait(cfg, mem, i) ==>
      i == a.vm.env.retired && Halting(a)
  }

  /** What an Fx0A past the end of the run, between two states of the engine,
      shows of their environments. */
  lemma {:induction false} LateBetween(cfg: Config, mem: Memory, a: Jit, b: Jit, i: nat)
    requires Agrees(cfg, mem, a) && Agrees(cfg, mem, b) && Mirror(cfg, mem, a).Ok?
    requires a.vm.env.retired < i <= b.vm.env.retired && LateWait(cfg, mem, i)
    ensures b.vm.env.polled > a.vm.env.polled
    ensures i == a.vm.env.retired + 1 ==>
      Waits(OpAt(Mirror(cfg, mem, a).vm.core.mem, Mirror(cfg, mem, a).vm.core.pc))
    ensures i == b.vm.env.retired ==> Done(cfg, b.vm.env)
  {
    hide Run, Agrees, Waits, OpAt, Pass;
    var r := a.vm.env.retired;
    MirrorClock(cfg, mem, a);
    MirrorClock(cfg, mem, b);
    PolledGrows(cfg, Boot(mem), r, i - 1);
    PolledGrows(cfg, Boot(mem), i, b.vm.env.retired);
    PassPolls(cfg, Run(cfg, Boot(mem), r).vm);
    NextPass(cfg, Boot(mem), r);
  }

  lemma {:induction false} BlockPrompt(cfg: Config, mem: Memory, a: Jit, b: Jit, i: nat)
    requires JitOk(cfg, a) && a.phase.InTrace? && Step(cfg, a, b)
    requires Agrees(cfg, mem, a) && Agrees(cfg, mem, b)
    requires a.vm.env.retired < i <= b.vm.env.retired && LateWait(cfg, mem, i)
    ensures i == b.vm.env.retired && Halting(b)
  {
    hide Steady, Run, RunBlock, Waits, OpAt, AllMarked, TraceOk, Due, Gap, Notes, Coherent, LateWait, Done;
    var t, k := a.phase.t, a.phase.k;
    BlockStepOk(cfg, a, t, k);
    LateBetween(cfg, mem, a, b, i);
    assert i == a.vm.env.retired + 1 == b.vm.env.retired;
    assert Waits(OpAt(a.vm.core.mem, t[k].pc));
  }

  lemma {:induction false} NextPass(cfg: Config, s: Vm, n: nat)
    requires Run(cfg, s, n).Ok?
    ensures Run(cfg, s, n + 1) == Pass(cfg, Run(cfg, s, n).vm)
  {}

  lemma {:induction false} AlikeClock(a: Env, b: Env)
    requires Alike(a, b)
    ensures a.retired == b.retired && a.polled == b.polled
  {
    RollAlike(a, b);
  }

  lemma {:induction false} MirrorClock(cfg: Config, mem: Memory, a: Jit)
    requires Agrees(cfg, mem, a)
    ensures Mirror(cfg, mem, a).vm.env.retired == a.vm.env.retired && Mirror(cfg, mem, a).vm.env.polled == a.vm.env.polled
  {
    AlikeClock(a.vm.env, Mirror(cfg, mem, a).vm.env);
    hide Run, Alike;
  }

  lemma {:induction false} StepPrompt(cfg: Config, mem: Memory, a: Jit, b: Jit)
    requires JitOk(cfg, a) && Step(cfg, a, b) && Prompt(cfg, mem, a)
    requires Agrees(cfg, mem, a) && Agrees(cfg, mem, b)
    ensures Prompt(cfg, mem, b)
  {
    StepMonotone(cfg, a, b);
    StepCounts(cfg, a, b);
    forall i | 0 < i <= b.vm.env.retired && LateWait(cfg, mem, i)
      ensures i == b.vm.env.retired && Halting(b)
    {
      if i > a.vm.env.retired { BlockPrompt(cfg, mem, a, b, i); }
    }
    hide Agrees, JitOk, Step, LateWait;
  }

  /** Only a block retires instructions, and it does not start once the run ends. */
  lemma {:induction false} StepCounts(cfg: Config, a: Jit, b: Jit)
    requires JitOk(cfg, a) && Step(cfg, a, b)
    ensures if a.phase.InTrace? then !Halting(a) else b.vm.env.retired == a.vm.env.retired
  {
    hide Steady, AllMarked, TraceOk, RunBlock, Refuses, Escapes, Gap, Due;
    match a.phase
    case AtHead => if a.vm.core.pc !in a.cache { MissOk(cfg, a, b); }
    case Returned => ServicesOk(cfg, a);
    case _ =>
  }

  lemma {:induction false} RunPrompt(cfg: Config, mem: Memory, run: seq<Jit>)
    requires cfg.Valid() && ValidRun(cfg, mem, run)
    ensures Prompt(cfg, mem, Last(run))
    decreases |run|
  {
    hide JitOk, Step, Agrees, Halting, LateWait;
    if |run| > 1 {
      var prefix := run[..|run| - 1];
      assert Step(cfg, run[|run| - 2], run[|run| - 2 + 1]);
      RunOk(cfg, mem, prefix);
      RunAgrees(cfg, cfg, mem, prefix);
      RunAgrees(cfg, cfg, mem, run);
      RunPrompt(cfg, mem, prefix);
      StepPrompt(cfg, mem, Last(prefix), Last(run));
    }
  }

  // ------------------------------------------- two budgets, one interpreter

  /** No pass up to the `n`-th tells the two budgets apart. */
  ghost predicate PollsAlike(cfg: Config, ref: Config, s: Vm, n: nat)
  {
    forall i {:trigger Polls(cfg, s, i)} :: 0 < i <= n && Polls(cfg, s, i) ==>
      SameRun(cfg, ref, s.env.retired + i, Run(cfg, s, i).vm.env.Now())
  }

  lemma {:induction false} PassAlike(cfg: Config, ref: Config, a: Vm, b: Vm)
    requires AlikeVm(a, b) && cfg.(budget := ref.budget) == ref
    requires Pass(cfg, a).vm.env.polled > a.env.polled ==>
      SameRun(cfg, ref, a.env.retired + 1, Pass(cfg, a).vm.env.Now())
    ensures AlikeOutcome(Pass(cfg, a), Pass(ref, b))
  {
    PassPolls(cfg, a);
    hide BasicBlock, Alike, Roll, SameRun, OpAt;
    RollAlike(a.env, b.env);
    RetireAlike(Roll(a.env), Roll(b.env), 1);
    BasicBlockAlike(cfg, ref, Vm(a.core, Retire(Roll(a.env), 1)), Vm(b.core, Retire(Roll(b.env), 1)));
  }

  lemma {:induction false} RunsAlike(cfg: Config, ref: Config, s: Vm, n: nat)
    requires cfg.(budget := ref.budget) == ref && Sane(s.env)
    requires Run(cfg, s, n).Ok? && PollsAlike(cfg, ref, s, n)
    ensures AlikeOutcome(Run(cfg, s, n), Run(ref, s, n))
    decreases n
  {
    hide Pass, Alike, SameRun;
    if n == 0 {
      assert Alike(s.env, s.env) by { StillAlike(s.env); }
    } else {
      RunClock(cfg, s, n - 1, n);
      RunsAlike(cfg, ref, s, n - 1);
      assert Polls(cfg, s, n) ==> SameRun(cfg, ref, s.env.retired + n, Run(cfg, s, n).vm.env.Now());
      PassAlike(cfg, ref, Run(cfg, s, n - 1).vm, Run(ref, s, n - 1).vm);
    }
  }

  lemma StillAlike(e: Env)
    requires Sane(e)
    ensures Alike(e, e)
  {}

  // ---------------------------------------------- when the re-run reproduces

  /** The interpreter ran to the budget and stopped after `base` passes, the JIT
      after `n`, in a state the interpreter passes through later on. */
  ghost predicate Overshot(cfg: Config, mem: Memory, base: nat, n: nat)
  {
    && cfg.Valid() && 0 < base < n && Run(cfg, Boot(mem), n).Ok? && StopsAfter(cfg, Boot(mem), base)
    && forall i {:trigger LateWait(cfg, mem, i)} :: 0 < i < n ==> !LateWait(cfg, mem, i)
  }

  /** The overshoot fits into the clock the larger budget buys. */
  predicate HasRoom(cfg: Config, base: nat, n: nat)
  {
    n - 1 - base < CLOCK_CAP_FACTOR * (n - cfg.budget)
  }

  /** Done stays so. */
  lemma {:induction false} DoneStays(cfg: Config, s: Vm, i: nat, n: nat)
    requires i <= n && Run(cfg, s, n).Ok? && Done(cfg, Run(cfg, s, i).vm.env)
    ensures Done(cfg, Run(cfg, s, n).vm.env)
  {
    RunClock(cfg, s, i, n);
    RunClock(cfg, s, n, n);
    hide Run;
  }

  lemma {:induction false} BaseDone(cfg: Config, mem: Memory, base: nat, n: nat)
    requires Overshot(cfg, mem, base, n)
    ensures Run(cfg, Boot(mem), base).Ok? && Done(cfg, Run(cfg, Boot(mem), base).vm.env)
  {
    hide Run, Done, LateWait;
    RunClock(cfg, Boot(mem), base, n);
  }

  /** From its end on the base run is quiet up to the last instruction. */
  lemma {:induction false} QuietOvershoot(cfg: Config, mem: Memory, base: nat, n: nat, i: nat)
    requires Overshot(cfg, mem, base, n) && base <= i < n
    ensures !Polls(cfg, Boot(mem), i)
  {
    hide Run, Done, StopsAfter, Polls;
    BaseDone(cfg, mem, base, n);
    RunClock(cfg, Boot(mem), i, n);
    DoneStays(cfg, Boot(mem), base, i);
    assert !LateWait(cfg, mem, i);
  }

  /** Before its end the base run has spent neither budget nor clock. */
  lemma {:induction false} BaseRunning(cfg: Config, mem: Memory, base: nat, n: nat, i: nat)
    requires Overshot(cfg, mem, base, n) && i < base
    ensures Run(cfg, Boot(mem), i).Ok? && Run(cfg, Boot(mem), i).vm.env.retired == i
    ensures i < cfg.budget && Run(cfg, Boot(mem), i).vm.env.Now() < cfg.Cap()
  {
    hide Run, LateWait;
    RunClock(cfg, Boot(mem), i, n);
    if i == 0 { assert Run(cfg, Boot(mem), 0) == Ok(Boot(mem)) by { NoPass(cfg, Boot(mem)); } }
  }

  lemma NoPass(cfg: Config, s: Vm)
    ensures Run(cfg, s, 0) == Ok(s)
  {}

  /** The clock at the end of the base run and after it. */
  lemma {:induction false} BaseClock(cfg: Config, mem: Memory, base: nat, n: nat, i: nat)
    requires Overshot(cfg, mem, base, n) && base <= i < n
    ensures Run(cfg, Boot(mem), i).Ok?
    ensures Run(cfg, Boot(mem), i).vm.env.Now() == Run(cfg, Boot(mem), base).vm.env.Now() + (i - base)
    ensures base <= cfg.budget && Run(cfg, Boot(mem), base).vm.env.Now() <= cfg.Cap()
    ensures base < cfg.budget ==> Run(cfg, Boot(mem), base).vm.env.Now() == cfg.Cap()
  {
    hide Run, Overshot, Polls;
    OvershotShape(cfg, mem, base, n);
    forall k | base <= k <= i ensures !Polls(cfg, Boot(mem), k) {
      QuietOvershoot(cfg, mem, base, n, k);
    }
    BaseDone(cfg, mem, base, n);
    BaseRunning(cfg, mem, base, n, base - 1);
    RunClock(cfg, Boot(mem), i, n);
    RunClock(cfg, Boot(mem), base, n);
    QuietClock(cfg, Boot(mem), base, i);
    QuietClock(cfg, Boot(mem), base - 1, base);
  }

  lemma {:induction false} OvershotShape(cfg: Config, mem: Memory, base: nat, n: nat)
    requires Overshot(cfg, mem, base, n)
    ensures cfg.Valid() && 0 < base < n && Run(cfg, Boot(mem), n).Ok?
  {
    hide Run, StopsAfter, LateWait;
  }

  /** A larger budget polls as the base run does. */
  lemma {:induction false} LargerAlike(cfg: Config, ref: Config, mem: Memory, base: nat, n: nat)
    requires Overshot(cfg, mem, base, n) && ref == cfg.(budget := n) && n > cfg.budget
    ensures PollsAlike(cfg, ref, Boot(mem), n)
  {
    hide Run, Overshot, Polls;
    forall i {:trigger Polls(cfg, Boot(mem), i)} | 0 < i <= n && Polls(cfg, Boot(mem), i)
      ensures SameRun(cfg, ref, Boot(mem).env.retired + i, Run(cfg, Boot(mem), i).vm.env.Now())
    {
      if i < base {
        BaseRunning(cfg, mem, base, n, i);
      } else if i < n {
        QuietOvershoot(cfg, mem, base, n, i);
      }
    }
  }

  /** The re-run stops with the JIT when the overshoot fits. */
  lemma {:induction false} Reproduced(cfg: Config, mem: Memory, base: nat, n: nat)
    requires Overshot(cfg, mem, base, n) && HasRoom(cfg, base, n)
    ensures
      var ref := cfg.(budget := n);
      StopsAfter(ref, Boot(mem), n) && AlikeOutcome(Run(cfg, Boot(mem), n), Run(ref, Boot(mem), n))
  {
    hide Run, Overshot, PollsAlike, Alike;
    var ref := cfg.(budget := n);
    OvershotShape(cfg, mem, base, n);
    LargerAlike(cfg, ref, mem, base, n);
    RunsAlike(cfg, ref, Boot(mem), n);
    RunClock(ref, Boot(mem), n, n);
    forall i | 0 < i < n
      ensures Run(ref, Boot(mem), i).Ok? && !Done(ref, Run(ref, Boot(mem), i).vm.env)
    {
      NotYet(cfg, mem, base, n, i);
    }
  }

  lemma {:induction false} PollsFewer(cfg: Config, ref: Config, s: Vm, i: nat, n: nat)
    requires PollsAlike(cfg, ref, s, n) && i <= n
    ensures PollsAlike(cfg, ref, s, i)
  {
    hide Polls, SameRun, Run;
  }

  lemma {:induction false} NotYet(cfg: Config, mem: Memory, base: nat, n: nat, i: nat)
    requires Overshot(cfg, mem, base, n) && HasRoom(cfg, base, n) && 0 < i < n
    ensures var ref := cfg.(budget := n); Run(ref, Boot(mem), i).Ok? && !Done(ref, Run(ref, Boot(mem), i).vm.env)
  {
    hide Run, Overshot, PollsAlike, Alike;
    var ref := cfg.(budget := n);
    OvershotShape(cfg, mem, base, n);
    LargerAlike(cfg, ref, mem, base, n);
    PollsFewer(cfg, ref, Boot(mem), i, n);
    RunClock(cfg, Boot(mem), i, n);
    RunsAlike(cfg, ref, Boot(mem), i);
    AlikeClock(Run(cfg, Boot(mem), i).vm.env, Run(ref, Boot(mem), i).vm.env);
    if i < base {
      BaseRunning(cfg, mem, base, n, i);
    } else {
      BaseClock(cfg, mem, base, n, i);
    }
  }

  /** A run with the budget `ref` that is not over up to pass `n` polls as one
      with the larger budget `cfg` does. */
  lemma {:induction false} SmallerAlike(cfg: Config, ref: Config, mem: Memory, n: nat)
    requires cfg.(budget := ref.budget) == ref && ref.budget <= cfg.budget
    requires forall i :: 0 < i <= n ==> Run(ref, Boot(mem), i).Ok? && !Done(ref, Run(ref, Boot(mem), i).vm.env)
    ensures PollsAlike(ref, cfg, Boot(mem), n)
  {
    hide Run, Polls;
    forall i {:trigger Polls(ref, Boot(mem), i)} | 0 < i <= n && Polls(ref, Boot(mem), i)
      ensures SameRun(ref, cfg, Boot(mem).env.retired + i, Run(ref, Boot(mem), i).vm.env.Now())
    {
      RunClock(ref, Boot(mem), i, i);
    }
  }

  /** The latest pass at which a re-run that fits must not have been over. */
  function Deadline(cfg: Config, base: nat, n: nat): nat
  {
    if n > cfg.budget then n - 1 else base
  }

  lemma {:induction false} DeadlineAlike(cfg: Config, mem: Memory, base: nat, n: nat)
    requires Overshot(cfg, mem, base, n)
    requires StopsAfter(cfg.(budget := n), Boot(mem), n)
    ensures
      var ref, i := cfg.(budget := n), Deadline(cfg, base, n);
      Run(ref, Boot(mem), i).vm.env.Now() == Run(cfg, Boot(mem), i).vm.env.Now()
  {
    hide Run, Overshot, PollsAlike, Alike, Done;
    var ref, i := cfg.(budget := n), Deadline(cfg, base, n);
    OvershotShape(cfg, mem, base, n);
    RunClock(cfg, Boot(mem), i, n);
    if n > cfg.budget {
      LargerAlike(cfg, ref, mem, base, n);
      PollsFewer(cfg, ref, Boot(mem), i, n);
      RunsAlike(cfg, ref, Boot(mem), i);
    } else {
      SmallerAlike(cfg, ref, mem, i);
      RunsAlike(ref, cfg, Boot(mem), i);
      AlikeSym(Run(ref, Boot(mem), i).vm.env, Run(cfg, Boot(mem), i).vm.env);
    }
    AlikeClock(Run(cfg, Boot(mem), i).vm.env, Run(ref, Boot(mem), i).vm.env);
  }

  /** A re-run that goes the whole way had room for the overshoot. */
  lemma {:induction false} CutShort(cfg: Config, mem: Memory, base: nat, n: nat)
    requires Overshot(cfg, mem, base, n)
    requires StopsAfter(cfg.(budget := n), Boot(mem), n)
    ensures HasRoom(cfg, base, n)
  {
    hide Run, Overshot, Alike;
    var ref, i := cfg.(budget := n), Deadline(cfg, base, n);
    OvershotShape(cfg, mem, base, n);
    BaseClock(cfg, mem, base, n, i);
    assert !Done(ref, Run(ref, Boot(mem), i).vm.env);
    DeadlineAlike(cfg, mem, base, n);
  }

  // ----------------------------------------- a run refused before the budget

  /** The JIT stopped after `n` instructions, short of where the base run stops. */
  ghost predicate Refused(cfg: Config, mem: Memory, base: nat, n: nat)
  {
    cfg.Valid() && 0 < n < base && StopsAfter(cfg, Boot(mem), base)
  }

  /** Before its last instruction the clock had not reached the re-run's cap. */
  predicate InTime(cfg: Config, mem: Memory, n: nat)
    requires n > 0
  {
    Run(cfg, Boot(mem), n - 1).vm.env.Now() < CLOCK_CAP_FACTOR * n
  }

  lemma {:induction false} RefusedRunning(cfg: Config, mem: Memory, base: nat, n: nat, i: nat)
    requires Refused(cfg, mem, base, n) && i <= n
    ensures Run(cfg, Boot(mem), i).Ok? && Run(cfg, Boot(mem), i).vm.env.retired == i && n < cfg.budget
    ensures i < n ==> Run(cfg, Boot(mem), i).vm.env.Now() <= Run(cfg, Boot(mem), n - 1).vm.env.Now()
    ensures Run(cfg, Boot(mem), i).vm.env.Now() < cfg.Cap()
  {
    hide Run, Polls;
    assert Run(cfg, Boot(mem), n).Ok? && !Done(cfg, Run(cfg, Boot(mem), n).vm.env);
    RunClock(cfg, Boot(mem), n, n);
    RunClock(cfg, Boot(mem), i, n);
    RunClock(cfg, Boot(mem), n - 1, n);
    if i < n { RunClock(cfg, Boot(mem), i, n - 1); }
  }

  /** The base run polled more than once for its `n`-th instruction. */
  predicate Lingers(cfg: Config, mem: Memory, n: nat)
    requires n > 0
  {
    Run(cfg, Boot(mem), n).vm.env.polled > Run(cfg, Boot(mem), n - 1).vm.env.polled + 1
  }

  lemma {:induction false} RefusedPolls(cfg: Config, mem: Memory, base: nat, n: nat)
    requires Refused(cfg, mem, base, n) && InTime(cfg, mem, n)
    ensures PollsAlike(cfg, cfg.(budget := n), Boot(mem), n - 1)
  {
    hide Run, Polls, StopsAfter;
    var ref := cfg.(budget := n);
    forall i {:trigger Polls(cfg, Boot(mem), i)} | 0 < i <= n - 1 && Polls(cfg, Boot(mem), i)
      ensures SameRun(cfg, ref, Boot(mem).env.retired + i, Run(cfg, Boot(mem), i).vm.env.Now())
    {
      RefusedRunning(cfg, mem, base, n, i);
    }
  }

  /** The re-run follows up to the last pass. */
  lemma {:induction false} RefusedFollows(cfg: Config, mem: Memory, base: nat, n: nat, i: nat)
    requires Refused(cfg, mem, base, n) && InTime(cfg, mem, n) && i < n
    ensures Run(cfg, Boot(mem), i).Ok? && Run(cfg, Boot(mem), i).vm.env.retired == i
    ensures AlikeOutcome(Run(cfg, Boot(mem), i), Run(cfg.(budget := n), Boot(mem), i))
  {
    hide Run, Refused, PollsAlike, Alike, InTime;
    assert n > 0 by { RefusedShape(cfg, mem, base, n); }
    RefusedRunning(cfg, mem, base, n, i);
    RefusedPolls(cfg, mem, base, n);
    PollsFewer(cfg, cfg.(budget := n), Boot(mem), i, n - 1);
    RunsAlike(cfg, cfg.(budget := n), Boot(mem), i);
  }

  // -------------------------------------------- the last pass of the re-run

  /** A wait, given the keys its polls found. */
  function Waited(c: Core, keys: set<int>): Core
  {
    var key := Highest(keys, 16);
    SkipIf(if key.Some? then SetReg(c, X(OpAt(c.mem, c.pc)), key.value) else c, false)
  }

  lemma {:induction false} WaitPass(cfg: Config, s: Vm)
    requires Waits(OpAt(s.core.mem, s.core.pc))
    ensures
      var (keys, r) := PollKeys(cfg, Retire(Roll(s.env), 1));
      Pass(cfg, s) == Ok(Vm(Waited(s.core, keys), ClearKeys(r, ALL_KEYS)))
  {
    NotSystem(OpAt(s.core.mem, s.core.pc));
    hide Top, X, Y, N, KK, NNN, OpAt, PollKeys, Highest, ClearKeys, Roll, SkipIf, SetReg;
  }

  /** With the budget spent there is one poll. */
  lemma {:induction false} SpentPoll(cfg: Config, e: Env)
    requires e.retired >= cfg.budget
    ensures PollKeys(cfg, e) == (Keys(cfg, PollOnce(e)), PollOnce(e))
  {
    hide PollOnce, Keys;
  }

  /** The first poll ends the wait exactly when a key is down, unless the run is
      over after it. */
  lemma {:induction false} FirstPoll(cfg: Config, e: Env)
    requires !Done(cfg, PollKeys(cfg, e).1)
    ensures PollKeys(cfg, e).0 != {} && Highest(PollKeys(cfg, e).0, 16).Some?
    ensures if Keys(cfg, PollOnce(e)) != {} then PollKeys(cfg, e) == (Keys(cfg, PollOnce(e)), PollOnce(e)) else PollKeys(cfg, e).1.polled > e.polled + 1
    decreases cfg.Cap() - e.Now()
  {
    hide PollOnce, Keys, Highest;
    if Done(cfg, PollOnce(e)) || Keys(cfg, PollOnce(e)) != {} {
      SomeKey(cfg, PollOnce(e));
    } else {
      FirstPoll(cfg, PollOnce(e));
    }
  }

  lemma SomeKey(cfg: Config, e: Env)
    requires Keys(cfg, e) != {}
    ensures Highest(Keys(cfg, e), 16).Some?
  {
    var k :| k in Keys(cfg, e);
    assert 0 <= k < 16;
  }

  lemma NoKey()
    ensures Highest({}, 16) == None
  {
    var key := Highest({}, 16);
  }

  /** The environment behind the first poll of a wait. */
  function AfterPoll(e: Env): Env
  {
    ClearKeys(PollOnce(Retire(Roll(e), 1)), ALL_KEYS)
  }

  lemma {:induction false} AfterPollAlike(cfg: Config, ref: Config, a: Env, b: Env)
    requires Alike(a, b) && cfg.rotate == ref.rotate
    ensures Alike(AfterPoll(a), AfterPoll(b))
    ensures Keys(cfg, PollOnce(Retire(Roll(a), 1))) == Keys(ref, PollOnce(Retire(Roll(b), 1)))
  {
    hide Alike, Roll, PollOnce, ClearKeys, Keys;
    RollAlike(a, b);
    RetireAlike(Roll(a), Roll(b), 1);
    PollOnceAlike(cfg, ref, Retire(Roll(a), 1), Retire(Roll(b), 1));
    ClearAlike(PollOnce(Retire(Roll(a), 1)), PollOnce(Retire(Roll(b), 1)), ALL_KEYS);
  }

  /** The last pass, with a budget that it spends, against one that goes on. */
  lemma {:induction false} LastPass(cfg: Config, ref: Config, a: Vm, b: Vm)
    requires AlikeVm(a, b) && cfg.(budget := ref.budget) == ref
    requires a.env.retired + 1 >= ref.budget && Pass(cfg, a).Ok? && !Done(cfg, Pass(cfg, a).vm.env)
    ensures Pass(ref, b).Ok?
    ensures
      var w, z := Pass(cfg, a).vm, Pass(ref, b).vm;
      if w.env.polled <= a.env.polled + 1 then AlikeVm(w, z)
      else
        && Waits(OpAt(a.core.mem, a.core.pc)) && Alike(AfterPoll(a.env), z.env)
        && z.core == w.core.(regs := a.core.regs)
  {
    PassPolls(cfg, a);
    if Waits(OpAt(a.core.mem, a.core.pc)) {
      LastWait(cfg, ref, a, b);
    } else {
      PassAlike(cfg, ref, a, b);
    }
    hide Pass, Alike, AfterPoll, OpAt, Waits;
  }

  lemma {:induction false} LastWait(cfg: Config, ref: Config, a: Vm, b: Vm)
    requires AlikeVm(a, b) && cfg.(budget := ref.budget) == ref && Waits(OpAt(a.core.mem, a.core.pc))
    requires a.env.retired + 1 >= ref.budget && Pass(cfg, a).Ok? && !Done(cfg, Pass(cfg, a).vm.env)
    ensures Pass(ref, b).Ok?
    ensures
      var w, z := Pass(cfg, a).vm, Pass(ref, b).vm;
      if w.env.polled <= a.env.polled + 1 then AlikeVm(w, z)
      else Alike(AfterPoll(a.env), z.env) && z.core == w.core.(regs := a.core.regs)
  {
    hide Pass, Alike, Waits, OpAt, Roll, PollKeys, PollOnce, Keys, Highest, ClearKeys, X, Waited;
    var e, f := Retire(Roll(a.env), 1), Retire(Roll(b.env), 1);
    WaitPass(cfg, a);
    WaitPass(ref, b);
    AlikeClock(a.env, b.env);
    SpentPoll(ref, f);
    ClearedDone(cfg, PollKeys(cfg, e).1);
    FirstPoll(cfg, e);
    AfterPollAlike(cfg, ref, a.env, b.env);
    if Keys(cfg, PollOnce(e)) == {} { NotWaited(a.core, PollKeys(cfg, e).0); }
  }

  lemma ClearedDone(cfg: Config, e: Env)
    ensures Done(cfg, ClearKeys(e, ALL_KEYS)) <==> Done(cfg, e)
    ensures ClearKeys(e, ALL_KEYS).polled == e.polled
  {}

  /** A wait without a key against one with. */
  lemma {:induction false} NotWaited(c: Core, keys: set<int>)
    ensures Waited(c, {}) == Waited(c, keys).(regs := c.regs)
  {
    NoKey();
    hide Highest, X, OpAt;
  }

  /** Nothing of a wait the re-run cuts short can be seen: it left the registers
      as they were, and the timers were at the same tick or had run out. */
  predicate Unnoticed(cfg: Config, mem: Memory, n: nat)
    requires n > 0
  {
    var v, w := Run(cfg, Boot(mem), n - 1).vm, Run(cfg, Boot(mem), n).vm;
    var tick := (v.env.Now() + 2) / INSTR_PER_TICK;
    && w.core.regs == v.core.regs
    && (w.env.Tick() == tick || (v.env.delay <= tick - v.env.lastTick && v.env.sound <= tick - v.env.lastTick))
  }

  /** The timers after a wait. */
  lemma {:induction false} WaitTimers(cfg: Config, s: Vm)
    requires Waits(OpAt(s.core.mem, s.core.pc)) && Sane(s.env)
    ensures
      var e, w := AfterPoll(s.env), Pass(cfg, s).vm.env;
      && e.delay == w.delay == s.env.delay && e.sound == w.sound == s.env.sound && e.lastTick == w.lastTick == s.env.lastTick
      && e.Tick() == (s.env.Now() + 2) / INSTR_PER_TICK && s.env.lastTick <= e.Tick() <= w.Tick()
      && w.retired == e.retired == s.env.retired + 1 && w.rng == e.rng == s.env.rng
  {
    WaitPass(cfg, s);
    PollTimers(cfg, Retire(Roll(s.env), 1));
    hide OpAt, PollKeys, Waited, Waits, Pass;
  }

  lemma {:induction false} PollTimers(cfg: Config, e: Env)
    ensures var r := PollKeys(cfg, e).1; r.delay == e.delay && r.sound == e.sound && r.lastTick == e.lastTick && r.rng == e.rng && r.polled >= e.polled + 1
    decreases cfg.Cap() - e.Now()
  {
    hide Keys;
    if !Done(cfg, PollOnce(e)) && Keys(cfg, PollOnce(e)) == {} { PollTimers(cfg, PollOnce(e)); }
  }

  /** Timers caught up at two times are equal at the same tick, or once they
      have run out. */
  lemma {:induction false} SameTimers(e: Env, w: Env)
    requires e.delay == w.delay && e.sound == w.sound && e.lastTick == w.lastTick && e.lastTick <= e.Tick() <= w.Tick()
    ensures Sync(e).delay == Sync(w).delay && Sync(e).sound == Sync(w).sound <==>
      e.Tick() == w.Tick() || (e.delay <= e.Tick() - e.lastTick && e.sound <= e.Tick() - e.lastTick)
  {}

  lemma {:induction false} RefusedReproduced(cfg: Config, mem: Memory, base: nat, n: nat)
    requires Refused(cfg, mem, base, n) && InTime(cfg, mem, n)
    ensures
      var ref, v := cfg.(budget := n), Run(cfg, Boot(mem), n - 1).vm;
      var w, z := Run(cfg, Boot(mem), n).vm, Run(cfg.(budget := n), Boot(mem), n);
      && StopsAfter(ref, Boot(mem), n) && z.Ok?
      && if !Lingers(cfg, mem, n) then AlikeVm(w, z.vm)
         else Waits(OpAt(v.core.mem, v.core.pc)) && Alike(AfterPoll(v.env), z.vm.env) && z.vm.core == w.core.(regs := v.core.regs)
  {
    hide Run, Refused, Alike, Pass, AfterPoll, OpAt, Waits;
    var ref := cfg.(budget := n);
    assert n > 0 by { RefusedShape(cfg, mem, base, n); }
    RefusedRunning(cfg, mem, base, n, n);
    RefusedFollows(cfg, mem, base, n, n - 1);
    RunClock(cfg, Boot(mem), n, n);
    NextPass(cfg, Boot(mem), n - 1);
    NextPass(ref, Boot(mem), n - 1);
    LastPass(cfg, ref, Run(cfg, Boot(mem), n - 1).vm, Run(ref, Boot(mem), n - 1).vm);
    RunClock(ref, Boot(mem), n, n);
    forall i | 0 < i < n
      ensures Run(ref, Boot(mem), i).Ok? && !Done(ref, Run(ref, Boot(mem), i).vm.env)
    {
      RefusedRunning(cfg, mem, base, n, i);
      RefusedFollows(cfg, mem, base, n, i);
      AlikeClock(Run(cfg, Boot(mem), i).vm.env, Run(ref, Boot(mem), i).vm.env);
    }
  }

  lemma {:induction false} RefusedShape(cfg: Config, mem: Memory, base: nat, n: nat)
    requires Refused(cfg, mem, base, n)
    ensures cfg.Valid() && 0 < n < base
  {
    hide Run, StopsAfter, Polls;
  }

  lemma {:induction false} RefusedCut(cfg: Config, mem: Memory, base: nat, n: nat)
    requires Refused(cfg, mem, base, n)
    requires StopsAfter(cfg.(budget := n), Boot(mem), n)
    ensures InTime(cfg, mem, n)
  {
    hide Run, Refused, Alike, PollsAlike;
    var ref := cfg.(budget := n);
    RefusedShape(cfg, mem, base, n);
    RefusedRunning(cfg, mem, base, n, n);
    if n > 1 {
      assert Run(ref, Boot(mem), n - 1).Ok? && !Done(ref, Run(ref, Boot(mem), n - 1).vm.env);
      SmallerAlike(cfg, ref, mem, n - 1);
      RunsAlike(ref, cfg, Boot(mem), n - 1);
      AlikeClock(Run(ref, Boot(mem), n - 1).vm.env, Run(cfg, Boot(mem), n - 1).vm.env);
    } else {
      NoPass(cfg, Boot(mem));
    }
  }

  // ------------------------------------------------------------ the verdict

  /** What the script compares: registers, program counter, I, stack depth,
      timers, display and the retired count. */
  predicate SameFields(a: Report, b: Report)
  {
    && a.core.regs == b.core.regs && a.core.pc == b.core.pc && a.core.i == b.core.i
    && |a.core.stack| == |b.core.stack| && a.core.lit == b.core.lit
    && a.delay == b.delay && a.sound == b.sound && a.retired == b.retired
  }

  /** The re-run cuts a wait short: the JIT was refused right behind an Fx0A that
      polled more than once. */
  predicate Cuts(cfg: Config, mem: Memory, base: nat, n: nat)
    requires n > 0
  {
    n < base && Lingers(cfg, mem, n)
  }

  /** When the script reports a match: the counts are equal; or the JIT ran past
      the base run and the overshoot fits; or it was refused before, in time, and
      not right behind an Fx0A whose effect the re-run misses. */
  predicate Reproducible(cfg: Config, mem: Memory, base: nat, n: nat)
    requires n > 0
  {
    || n == base
    || (base < n && HasRoom(cfg, base, n))
    || (n < base && InTime(cfg, mem, n) && (Lingers(cfg, mem, n) ==> Unnoticed(cfg, mem, n)))
  }

  /** The interpreter run the script compares with: the base run when the counts
      are equal, else the re-run, which stops after `again` passes. */
  function InterpReport(cfg: Config, mem: Memory, base: nat, n: nat, again: nat): Report
  {
    var vm := (if n == base then Run(cfg, Boot(mem), base) else Run(cfg.(budget := n), Boot(mem), again)).vm;
    Reported(vm.core, vm.env)
  }

  /** `end` is a state of the JIT, reached by a run that the dispatcher stopped,
      and what the interpreter runs of the script do. */
  ghost predicate Compared(cfg: Config, mem: Memory, end: Jit, base: nat, again: nat)
  {
    var n := end.vm.env.retired;
    && cfg.Valid() && n > 0 && StopsAfter(cfg, Boot(mem), base)
    && (n != base ==> StopsAfter(cfg.(budget := n), Boot(mem), again))
    && end.phase == Stopped && Agrees(cfg, mem, end) && Prompt(cfg, mem, end)
  }

  /** A run stops only once. */
  lemma {:induction false} StopsOnce(cfg: Config, s: Vm, n: nat, m: nat)
    requires StopsAfter(cfg, s, n) && StopsAfter(cfg, s, m)
    ensures n == m
  {
    hide Done, Pass;
    assert Run(cfg, s, 0) == Ok(s);
  }

  lemma {:induction false} StopCount(cfg: Config, mem: Memory, n: nat)
    requires StopsAfter(cfg, Boot(mem), n)
    ensures n > 0 && Run(cfg, Boot(mem), n).vm.env.retired == n
  {
    hide Done, Pass;
    NoPass(cfg, Boot(mem));
    assert Run(cfg, Boot(mem), n - 1).Ok?;
    RunClock(cfg, Boot(mem), n - 1, n - 1);
    PassClock(cfg, Run(cfg, Boot(mem), n - 1).vm);
  }

  lemma {:induction false} ComparedOvershot(cfg: Config, mem: Memory, end: Jit, base: nat, again: nat)
    requires Compared(cfg, mem, end, base, again) && base < end.vm.env.retired
    ensures Overshot(cfg, mem, base, end.vm.env.retired)
  {
    hide Run, Done, Alike, LateWait;
    StopCount(cfg, mem, base) by { hide StopsAfter; }
  }

  lemma {:induction false} ComparedRefused(cfg: Config, mem: Memory, end: Jit, base: nat, again: nat)
    requires Compared(cfg, mem, end, base, again) && base > end.vm.env.retired
    ensures Refused(cfg, mem, base, end.vm.env.retired)
  {
    hide Run, StopsAfter, Agrees, Prompt, Polls;
  }

  /** The re-run goes the whole way. */
  predicate Reaches(cfg: Config, mem: Memory, base: nat, n: nat)
    requires n > 0
  {
    n == base || (base < n && HasRoom(cfg, base, n)) || (n < base && InTime(cfg, mem, n))
  }

  /** It does exactly when the condition says so, and then ends where the budget's
      own run is after as many passes, unless it cuts a wait short. */
  lemma {:induction false} ReferenceReaches(cfg: Config, mem: Memory, end: Jit, base: nat, again: nat)
    requires Compared(cfg, mem, end, base, again)
    ensures
      var n := end.vm.env.retired;
      var vm, out := Run(cfg, Boot(mem), n).vm, InterpReport(cfg, mem, base, n, again);
      if !Reaches(cfg, mem, base, n) then out.retired != n
      else if !Cuts(cfg, mem, base, n) then out == Reported(vm.core, vm.env)
      else CutReport(cfg, mem, n, out)
  {
    hide Run, StopsAfter, Compared, Alike, HasRoom, InTime, Overshot, Refused, Lingers, CutReport;
    var n, ref := end.vm.env.retired, cfg.(budget := end.vm.env.retired);
    ComparedStops(cfg, mem, end, base, again);
    if n != base { StopCount(ref, mem, again); }
    if base < n {
      ComparedOvershot(cfg, mem, end, base, again);
      if HasRoom(cfg, base, n) {
        Reproduced(cfg, mem, base, n);
        StopsOnce(ref, Boot(mem), n, again);
        AlikeReports(Run(cfg, Boot(mem), n).vm.core, Run(cfg, Boot(mem), n).vm.env, Run(ref, Boot(mem), n).vm.env);
      } else if again == n {
        CutShort(cfg, mem, base, n);
      }
    } else if n < base {
      ComparedRefused(cfg, mem, end, base, again);
      if InTime(cfg, mem, n) {
        RefusedReport(cfg, mem, base, n, again);
      } else if again == n {
        RefusedCut(cfg, mem, base, n);
      }
    }
  }

  /** The report of a re-run that cut its last wait short: the registers of before
      the wait, and the timers as they were after its first poll. */
  ghost predicate CutReport(cfg: Config, mem: Memory, n: nat, out: Report)
    requires n > 0
  {
    var v, w := Run(cfg, Boot(mem), n - 1).vm, Run(cfg, Boot(mem), n).vm;
    && Run(cfg, Boot(mem), n).Ok? && Waits(OpAt(v.core.mem, v.core.pc))
    && out == Reported(w.core.(regs := v.core.regs), AfterPoll(v.env))
  }

  lemma {:induction false} RefusedReport(cfg: Config, mem: Memory, base: nat, n: nat, again: nat)
    requires Refused(cfg, mem, base, n) && InTime(cfg, mem, n) && StopsAfter(cfg.(budget := n), Boot(mem), again)
    ensures
      var vm, out := Run(cfg, Boot(mem), n).vm, InterpReport(cfg, mem, base, n, again);
      if Lingers(cfg, mem, n) then CutReport(cfg, mem, n, out) else out == Reported(vm.core, vm.env)
  {
    hide Run, StopsAfter, Refused, Alike, InTime, Lingers, AfterPoll, Reported, OpAt, Waits;
    var ref := cfg.(budget := n);
    assert 0 < n < base by { RefusedShape(cfg, mem, base, n); }
    RefusedRunning(cfg, mem, base, n, n);
    RefusedReproduced(cfg, mem, base, n);
    StopsOnce(ref, Boot(mem), n, again);
    var w, z := Run(cfg, Boot(mem), n).vm, Run(ref, Boot(mem), n).vm;
    if Lingers(cfg, mem, n) {
      AlikeReports(z.core, AfterPoll(Run(cfg, Boot(mem), n - 1).vm.env), z.env);
    } else {
      AlikeReports(w.core, w.env, z.env);
    }
  }

  /** What the script sees of a wait that was cut short. */
  lemma {:induction false} CutSeen(cfg: Config, mem: Memory, base: nat, n: nat, out: Report)
    requires 0 < n && Lingers(cfg, mem, n) && CutReport(cfg, mem, n, out)
    ensures
      var vm := Run(cfg, Boot(mem), n).vm;
      var jit := Reported(vm.core, vm.env);
      (SameFields(jit, out) <==> Unnoticed(cfg, mem, n)) && jit != out
  {
    hide Run, Pass, OpAt, Waits, Sync;
    var v, w := Run(cfg, Boot(mem), n - 1).vm, Run(cfg, Boot(mem), n).vm;
    RunClock(cfg, Boot(mem), n - 1, n);
    NextPass(cfg, Boot(mem), n - 1);
    RunSane(cfg, mem, n - 1);
    WaitTimers(cfg, v) by { hide AfterPoll, Sane; }
    AfterCounts(v.env) by { hide AfterPoll; }
    SameTimers(AfterPoll(v.env), w.env);
    hide AfterPoll;
  }

  lemma AfterCounts(e: Env)
    ensures AfterPoll(e).polled == e.polled + 1
  {}

  lemma {:induction false} RunSane(cfg: Config, mem: Memory, n: nat)
    requires Run(cfg, Boot(mem), n).Ok?
    ensures Sane(Run(cfg, Boot(mem), n).vm.env)
  {
    RunsAlike(cfg, cfg, Boot(mem), n);
    hide Run, Polls;
  }

  lemma {:induction false} ComparedStops(cfg: Config, mem: Memory, end: Jit, base: nat, again: nat)
    requires Compared(cfg, mem, end, base, again)
    ensures end.vm.env.retired > 0
    ensures end.vm.env.retired != base ==> StopsAfter(cfg.(budget := end.vm.env.retired), Boot(mem), again)
  {
    hide Run, StopsAfter, Agrees, Prompt, Polls;
  }

  /** The verdict: the script finds the engines equal exactly under this
      condition, and then everything they hold is equal, memory and clock too. */
  lemma {:induction false} Verdict(cfg: Config, mem: Memory, end: Jit, base: nat, again: nat)
    requires Compared(cfg, mem, end, base, again)
    ensures
      var jit := Reported(end.vm.core, end.vm.env);
      var n := end.vm.env.retired;
      var reference := InterpReport(cfg, mem, base, n, again);
      && (SameFields(jit, reference) <==> Reproducible(cfg, mem, base, n))
      && (jit == reference <==> SameFields(jit, reference) && !Cuts(cfg, mem, base, n))
  {
    hide Run, StopsAfter, InterpReport, Alike, Prompt, Polls, Reported, Lingers, Unnoticed, HasRoom, InTime, CutReport;
    var n := end.vm.env.retired;
    ReferenceReaches(cfg, mem, end, base, again);
    AlikeReports(end.vm.core, end.vm.env, Run(cfg, Boot(mem), n).vm.env);
    ReportedCount(end.vm.core, end.vm.env);
    if Reaches(cfg, mem, base, n) && Cuts(cfg, mem, base, n) {
      CutSeen(cfg, mem, base, n, InterpReport(cfg, mem, base, n, again));
    }
  }

  lemma ReportedCount(c: Core, e: Env)
    ensures Reported(c, e).retired == e.retired
  {}

  /** An engine that noticed the end of the run is not behind the base run. */
  lemma {:induction false} OverIsLate(cfg: Config, mem: Memory, end: Jit, base: nat)
    requires JitOk(cfg, end) && cfg.Valid() && end.phase == Stopped && end.vm.over && Agrees(cfg, mem, end)
    requires StopsAfter(cfg, Boot(mem), base)
    ensures 0 < end.vm.env.retired && base <= end.vm.env.retired
  {
    hide Run, Alike, Coherent;
    MirrorClock(cfg, mem, end);
    OverCounts(cfg, mem, end);
  }

  /** The differential test's claim, settled. Take any run of the JIT that the
      dispatcher stopped after `n` instructions, for whatever reason, and the
      interpreter runs the script makes. The script reports a match exactly when
      `Reproducible` holds; and a match of its fields is a match of the whole
      state, but where the re-run cut a wait short. */
  lemma {:induction false} BenchDiff(cfg: Config, mem: Memory, run: seq<Jit>, base: nat, again: nat)
    requires cfg.Valid() && ValidRun(cfg, mem, run) && Last(run).phase == Stopped && Last(run).vm.env.retired > 0
    requires StopsAfter(cfg, Boot(mem), base)
    requires Last(run).vm.env.retired != base ==> StopsAfter(cfg.(budget := Last(run).vm.env.retired), Boot(mem), again)
    ensures
      var jit := Reported(Last(run).vm.core, Last(run).vm.env);
      var n := Last(run).vm.env.retired;
      var reference := InterpReport(cfg, mem, base, n, again);
      && (SameFields(jit, reference) <==> Reproducible(cfg, mem, base, n))
      && (jit == reference <==> SameFields(jit, reference) && !Cuts(cfg, mem, base, n))
    ensures Last(run).vm.over ==> base <= Last(run).vm.env.retired
  {
    hide Run, StopsAfter, InterpReport, Reproducible, Prompt, Polls, Reported, JitOk, Agrees, Step, SameFields, Cuts;
    RunOk(cfg, mem, run);
    RunAgrees(cfg, cfg, mem, run);
    RunPrompt(cfg, mem, run);
    if Last(run).vm.over { OverIsLate(cfg, mem, Last(run), base); }
    Verdict(cfg, mem, Last(run), base, again);
  }

  /** The verdict on the state `end`, whatever the interpreter runs turn out to be. */
  ghost predicate Settled(cfg: Config, mem: Memory, end: Jit)
  {
    end.vm.env.retired > 0 ==> forall base: nat, again: nat :: SettledBy(cfg, mem, end, base, again)
  }

  ghost predicate SettledBy(cfg: Config, mem: Memory, end: Jit, base: nat, again: nat)
    requires end.vm.env.retired > 0
  {
    var jit, n := Reported(end.vm.core, end.vm.env), end.vm.env.retired;
    StopsAfter(cfg, Boot(mem), base) && (n != base ==> StopsAfter(cfg.(budget := n), Boot(mem), again)) ==>
      var reference := InterpReport(cfg, mem, base, n, again);
      && (end.vm.over ==> base <= n)
      && (SameFields(jit, reference) <==> Reproducible(cfg, mem, base, n))
      && (jit == reference <==> SameFields(jit, reference) && !Cuts(cfg, mem, base, n))
  }

  lemma {:induction false} RunSettled(cfg: Config, mem: Memory, run: seq<Jit>)
    requires cfg.Valid() && ValidRun(cfg, mem, run) && Last(run).phase == Stopped
    ensures Settled(cfg, mem, Last(run)) && (Last(run).vm.over ==> Last(run).vm.env.retired > 0)
  {
    hide Run, StopsAfter, InterpReport, Reproducible, Polls, Reported, JitOk, Agrees, Step, SameFields, Cuts;
    RunOk(cfg, mem, run);
    RunAgrees(cfg, cfg, mem, run);
    if Last(run).vm.over { OverCounts(cfg, mem, Last(run)); }
    var n := Last(run).vm.env.retired;
    if n > 0 {
      forall base: nat, again: nat ensures SettledBy(cfg, mem, Last(run), base, again) {
        if StopsAfter(cfg, Boot(mem), base) && (n != base ==> StopsAfter(cfg.(budget := n), Boot(mem), again)) {
          BenchDiff(cfg, mem, run, base, again);
        }
      }
    }
  }

  lemma {:induction false} OverCounts(cfg: Config, mem: Memory, end: Jit)
    requires JitOk(cfg, end) && cfg.Valid() && end.phase == Stopped && end.vm.over && Agrees(cfg, mem, end)
    ensures end.vm.env.retired > 0
  {
    hide Run, Alike, Coherent;
    MirrorClock(cfg, mem, end);
    NoPass(cfg, Boot(mem));
  }

  lemma {:induction false} OverIsDone(cfg: Config, mem: Memory, run: seq<Jit>)
    requires cfg.Valid() && ValidRun(cfg, mem, run)
    ensures Last(run).vm.over ==> Done(cfg, Last(run).vm.env)
  {
    RunOk(cfg, mem, run);
    hide Step, Coherent, PhaseOk, Gap;
  }
}
