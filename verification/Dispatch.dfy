/** The trace JIT as a state machine: compile on a cache miss, run the cached
    trace block by block, service the end of a trace, flush on a store to code.
    Every run of it is shown to agree with the interpreter. */
module Dispatch {
  import opened Chip8
  import opened Bench
  import opened Interp
  import opened Trace
  import opened TraceSpec
  import opened Lowering
  import opened Simulation
  import opened Cadence

  /** Where the engine is: at the head of the dispatch loop, about to run block
      `k` of `t`, back from a trace, stopped, or exited by errer. `Undefined` is
      code generation reaching an address outside pc_block. */
  datatype Phase = AtHead | InTrace(t: Trace, k: nat) | Returned | Stopped | Exited | Undefined

  /** `code` is code_bytes, `cache` trace_cache. */
  datatype Jit = Jit(phase: Phase, vm: Native, code: seq<bool>, cache: map<word, Trace>)

  function NoCode(): (r: seq<bool>)
    ensures |r| == 0x1000 && forall i :: 0 <= i < 0x1000 ==> !r[i]
  {
    seq(0x1000, _ => false)
  }

  function Start(mem: Memory): Jit
  {
    Jit(AtHead, Native(Boot(mem).core, INITIAL, map[], false, SAFEPOINT_INTERVAL, false, 0, 0), NoCode(), map[])
  }

  // ------------------------------------------------------------- transitions

  ghost predicate Grows(a: seq<bool>, b: seq<bool>)
  {
    |a| == 0x1000 == |b| && forall i :: 0 <= i < 0x1000 && a[i] ==> b[i]
  }

  /** Code generation produced `t` and marked what it read. */
  ghost predicate Compiles(a: Jit, b: Jit, t: Trace)
  {
    && Grows(a.code, b.code)
    && |t| > 0 && TraceOk(a.vm.core.mem, t) && t[0].pc == a.vm.core.pc
    && AllMarked(b.code, a.vm.core.mem, t)
    && b == a.(cache := a.cache[a.vm.core.pc := t], code := b.code)
  }

  /** A cache miss: a new trace, or none because an unsupported opcode or an
      address out of range lies on the walk of code generation. */
  ghost predicate Misses(a: Jit, b: Jit)
  {
    Grows(a.code, b.code) && (
      || (exists t :: Compiles(a, b, t))
      || (b == a.(phase := Stopped, code := b.code) && Refuses(a.vm.core.mem, a.vm.core.pc))
      || (b == a.(phase := Undefined, code := b.code) && Escapes(a.vm.core.mem, a.vm.core.pc)))
  }

  function Leaves(a: Jit, t: Trace, k: nat, f: Flow): Jit
  {
    match f
    case Going(j) => a.(phase := Returned, vm := j)
    case Crashed(j) => a.(phase := Exited, vm := j)
    case Leaving(j, Fall) => a.(phase := InTrace(t, k + 1), vm := j)
    case Leaving(j, Return) => a.(phase := Returned, vm := j)
    case Leaving(j, Close(i)) => a.(phase := if j.over then Returned else InTrace(t, i), vm := j)
  }

  /** Between traces: service the timers and the stop condition, flush the whole
      cache if compiled code was overwritten, poll the keys. */
  function Services(cfg: Config, a: Jit): Jit
  {
    var j := CheckInterrupt(cfg, a.vm);
    var flushed := if j.smc then a.(vm := j.(smc := false), code := NoCode(), cache := map[]) else a.(vm := j);
    var polled := flushed.(vm := flushed.vm.(env := Roll(flushed.vm.env)));
    polled.(phase := if j.over then Stopped else AtHead)
  }

  ghost predicate Step(cfg: Config, a: Jit, b: Jit)
  {
    |a.code| == 0x1000 &&
    match a.phase
    case AtHead =>
      if a.vm.core.pc in a.cache then b == a.(phase := InTrace(a.cache[a.vm.core.pc], 0)) else Misses(a, b)
    case InTrace(t, k) => k < |t| && b == Leaves(a, t, k, RunBlock(cfg, a.code, t[k], a.vm))
    case Returned => b == Services(cfg, a)
    case _ => false
  }

  /** A run from reset, with the program already in memory. */
  ghost predicate ValidRun(cfg: Config, mem: Memory, run: seq<Jit>)
  {
    && |run| > 0 && run[0] == Start(mem)
    && forall i :: 0 <= i < |run| - 1 ==> Step(cfg, run[i], run[i + 1])
  }

  function Last(run: seq<Jit>): Jit
    requires |run| > 0
  {
    run[|run| - 1]
  }

  // ---------------------------------------------------- cache coherence

  /** `t` is code for the program now in memory, and its bytes are watched. */
  ghost predicate Fits(code: seq<bool>, mem: Memory, t: Trace)
  {
    |code| == 0x1000 && |t| > 0 && TraceOk(mem, t) && AllMarked(code, mem, t)
  }

  /** Unless a flush is pending, every cached trace fits. */
  ghost predicate Coherent(a: Jit)
  {
    !a.vm.smc ==> forall pc :: pc in a.cache ==> Fits(a.code, a.vm.core.mem, a.cache[pc]) && a.cache[pc][0].pc == pc
  }

  ghost predicate PhaseOk(a: Jit)
  {
    match a.phase
    case AtHead => !a.vm.smc && !a.vm.over && Gap(a.vm) == 0
    case InTrace(t, k) => !a.vm.smc && k < |t| && Fits(a.code, a.vm.core.mem, t) && Gap(a.vm) <= Due(k)
    case _ => true
  }

  ghost predicate JitOk(cfg: Config, a: Jit)
  {
    |a.code| == 0x1000 && Steady(cfg, a.vm) && Gap(a.vm) <= MAX_GAP && Coherent(a) && PhaseOk(a)
  }

  lemma {:induction false} StartOk(cfg: Config, mem: Memory)
    requires cfg.Valid()
    ensures JitOk(cfg, Start(mem))
  {}

  lemma {:induction false} FitsFrame(code: seq<bool>, a: Memory, b: Memory, t: Trace)
    requires Fits(code, a, t) && AgreeOn(code, a, b)
    ensures Fits(code, b, t)
  {
    TraceFrame(code, a, b, t);
  }

  lemma {:induction false} GrowsFits(a: seq<bool>, b: seq<bool>, mem: Memory, t: Trace)
    requires Fits(a, mem, t) && Grows(a, b)
    ensures Fits(b, mem, t)
  {
    hide TraceOk, IsCompare, OpAt;
    assert forall k :: 0 <= k < |t| ==> Marked(a, mem, t[k].pc);
    forall k | 0 <= k < |t| ensures Marked(b, mem, t[k].pc) {
      assert Marked(a, mem, t[k].pc);
    }
  }

  lemma {:induction false} MissOk(cfg: Config, a: Jit, b: Jit)
    requires JitOk(cfg, a) && a.phase == AtHead && a.vm.core.pc !in a.cache && Misses(a, b)
    ensures JitOk(cfg, b) && b.vm == a.vm
    ensures b.phase == AtHead || b.phase == Stopped || b.phase == Undefined
    ensures b.phase == AtHead ==> b.vm.core.pc in b.cache
  {
    hide Steady, TraceOk, AllMarked, Grows, Gap;
    forall pc | pc in a.cache
      ensures Fits(b.code, a.vm.core.mem, a.cache[pc])
    {
      GrowsFits(a.code, b.code, a.vm.core.mem, a.cache[pc]);
    }
    GrowsLength(a.code, b.code);
    if b.phase == AtHead {
      var t :| Compiles(a, b, t);
      assert forall pc :: pc in b.cache ==> pc in a.cache || pc == a.vm.core.pc;
    }
  }

  lemma {:induction false} GrowsLength(a: seq<bool>, b: seq<bool>)
    requires Grows(a, b)
    ensures |b| == 0x1000
  {}

  lemma {:induction false} ServicesOk(cfg: Config, a: Jit)
    requires JitOk(cfg, a)
    ensures JitOk(cfg, Services(cfg, a))
    ensures Services(cfg, a).vm.env.retired == a.vm.env.retired && Services(cfg, a).vm.env.polled == a.vm.env.polled
    ensures Services(cfg, a).vm.over <==> Services(cfg, a).phase == Stopped
    ensures a.vm.over ==> Services(cfg, a).phase == Stopped
    ensures Services(cfg, a).vm.core == a.vm.core
    ensures if a.vm.smc then Services(cfg, a).cache == map[] && Services(cfg, a).code == NoCode() && !Services(cfg, a).vm.smc
      else Services(cfg, a).cache == a.cache && Services(cfg, a).code == a.code
  {
    hide TraceOk, AllMarked;
    ServiceSteady(cfg, a.vm);
  }

  lemma {:induction false} ServicesEnv(cfg: Config, a: Jit)
    ensures Services(cfg, a).vm.core == a.vm.core && Services(cfg, a).vm.env == Roll(Sync(a.vm.env))
    ensures Services(cfg, a).phase == if Services(cfg, a).vm.over then Stopped else AtHead
  {
    hide Sync, Roll, Done;
  }

  lemma {:induction false} ServiceSteady(cfg: Config, j: Native)
    requires Steady(cfg, j) && Gap(j) <= MAX_GAP
    ensures
      var k := CheckInterrupt(cfg, j);
      var done := k.(smc := false, env := Roll(k.env));
      Steady(cfg, done) && Gap(done) == 0 && Steady(cfg, k.(env := Roll(k.env)))
  {}

  /** Running a block keeps the engine sound: inside the trace the program is
      untouched, and a store to compiled code has raised the flush. */
  lemma {:induction false} BlockStepOk(cfg: Config, a: Jit, t: Trace, k: nat)
    requires JitOk(cfg, a) && a.phase == InTrace(t, k)
    ensures k < |t| && Keeps(cfg, a.code, t, k, RunBlock(cfg, a.code, t[k], a.vm), a.vm)
    ensures JitOk(cfg, Leaves(a, t, k, RunBlock(cfg, a.code, t[k], a.vm)))
  {
    hide Steady, BlockOk, AllMarked, RunBlock, Waits, Due, Gap, OpAt;
    assert Ready(cfg, a.code, t, k, a.vm);
    BlockKeeps(cfg, a.code, t, k, a.vm);
    var f := RunBlock(cfg, a.code, t[k], a.vm);
    if !f.j.smc {
      forall pc | pc in a.cache
        ensures Fits(a.code, f.j.core.mem, a.cache[pc]) && a.cache[pc][0].pc == pc
      {
        FitsFrame(a.code, a.vm.core.mem, f.j.core.mem, a.cache[pc]);
      }
    }
    assert forall i :: 0 <= Due(i);
  }

  /** Cache coherence holds in every state of every run. */
  lemma {:induction false} StepOk(cfg: Config, a: Jit, b: Jit)
    requires JitOk(cfg, a) && Step(cfg, a, b)
    ensures JitOk(cfg, b)
  {
    match a.phase
    case AtHead =>
      if a.vm.core.pc !in a.cache { MissOk(cfg, a, b); }
      hide Steady, TraceOk, AllMarked, Misses, Gap;
    case InTrace(t, k) =>
      BlockStepOk(cfg, a, t, k);
    case Returned =>
      ServicesOk(cfg, a);
    case _ =>
  }
}
