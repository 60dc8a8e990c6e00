/** An input on which the differential test reports a divergence though the JIT
    is right: the clock cap ends the run between two safepoints, the JIT
    overshoots it, and the re-run, given the JIT's smaller count as its budget,
    has a cap too small to get that far. */
module Limits {
  import opened Chip8
  import opened Bench
  import opened Interp
  import opened Trace
  import opened TraceSpec
  import opened Lowering
  import opened Simulation
  import opened Cadence
  import opened Dispatch
  import opened WholeRun
  import opened Rerun

  /** Four times LD V0, K, then JP to itself. */
  function WaitRom(): (m: Memory)
    ensures forall i :: 0 <= i < 4 ==> OpAt(m, 0x200 + 2 * i) == 0xF00A
    ensures OpAt(m, 0x208) == 0x1208
  {
    var blank: seq<byte> := seq(0x1000, _ => 0);
    blank[0x200 := 0xF0][0x201 := 0x0A][0x202 := 0xF0][0x203 := 0x0A][0x204 := 0xF0][0x205 := 0x0A]
      [0x206 := 0xF0][0x207 := 0x0A][0x208 := 0x12][0x209 := 0x08]
  }

  /** Keys rotate; the clock is capped at 157 * 64 = 10048. */
  const HURRIED: Config := Config(true, _ => 0, 157)

  // ------------------------------------------------ how long the waits last

  /** The keys already consumed in tick `t`. */
  function Consumed(e: Env, t: nat): set<int>
  {
    if e.clearedTick == t then e.cleared else {}
  }

  /** A poll at clock `u` sees no key. */
  predicate Silent(e: Env, u: nat)
  {
    Held(HURRIED, u / INSTR_PER_TICK) - Consumed(e, u / INSTR_PER_TICK) == {}
  }

  lemma {:induction false} PollSees(e: Env)
    requires Sane(e)
    ensures
      var p := PollOnce(e);
      && Sane(p) && p.Now() == e.Now() + 1 && (Keys(HURRIED, p) == {} <==> Silent(e, p.Now()))
      && forall u: nat :: u >= p.Now() ==> (Silent(p, u) <==> Silent(e, u))
  {
    var p := PollOnce(e);
    forall u: nat | u >= p.Now() ensures Consumed(p, u / INSTR_PER_TICK) == Consumed(e, u / INSTR_PER_TICK) {
      assert u / INSTR_PER_TICK >= p.Tick();
    }
  }

  /** The spin goes on to the first clock at which a key shows. */
  lemma {:induction false} PollUntil(e: Env, t: nat)
    requires Sane(e) && e.retired < HURRIED.budget && e.Now() < t < HURRIED.Cap()
    requires (forall u: nat :: e.Now() < u < t ==> Silent(e, u)) && !Silent(e, t)
    ensures PollKeys(HURRIED, e).1.Now() == t && Sane(PollKeys(HURRIED, e).1)
    decreases t - e.Now()
  {
    hide Silent, Keys, PollOnce;
    PollSees(e);
    if PollOnce(e).Now() < t {
      assert Silent(e, PollOnce(e).Now());
      PollUntil(PollOnce(e), t);
    }
  }

  /** The clock after each of the four waits. */
  function Woken(i: nat): nat
    requires i <= 4
  {
    [0, 2, 2000, 8000, 10000][i]
  }

  /** The tick of that clock. */
  function Ticked(i: nat): nat
    requires i <= 4
  {
    [0, 0, 1, 4, 5][i]
  }

  predicate AllConsumed(cleared: set<int>)
  {
    ALL_KEYS <= cleared
  }

  /** The environment behind wait `i`: every key is consumed for its tick. */
  ghost predicate Behind(i: nat, e: Env)
    requires i <= 4
  {
    e.retired == i && e.Now() == Woken(i) && Sane(e)
    && (i == 0 ==> e == INITIAL) && (i > 0 ==> e.clearedTick == e.Tick() && AllConsumed(e.cleared))
  }

  /** Entering the next wait: nothing is consumed yet of any other tick. */
  lemma {:induction false} EntersWait(i: nat, e: Env)
    requires i < 4 && Behind(i, e)
    ensures
      var w := Retire(Roll(e), 1);
      && Sane(w) && w.retired == i + 1 && w.Now() == Woken(i) + 1 && w.clearedTick == Ticked(i)
      && (if i == 0 then w.cleared == {} else AllConsumed(w.cleared))
  {
    hide AllConsumed, Sane, Roll, Retire, Woken, Ticked;
    WokenTick(i);
    WokenStart();
    if i > 0 { NextTick(e); } else { FirstTick(); }
  }

  lemma WokenStart()
    ensures Woken(0) == 0 == Ticked(0)
  {}

  lemma {:induction false} FirstTick()
    ensures
      var w := Retire(Roll(INITIAL), 1);
      Sane(w) && w.retired == 1 && w.Now() == 1 && w.clearedTick == 0 && w.cleared == {}
  {
    assert INITIAL.Tick() == 0;
  }

  lemma {:induction false} NextTick(e: Env)
    requires Sane(e) && e.clearedTick == e.Tick() && (e.Now() + 1) / INSTR_PER_TICK == e.Now() / INSTR_PER_TICK
    ensures
      var w := Retire(Roll(e), 1);
      && Sane(w) && w.retired == e.retired + 1 && w.Now() == e.Now() + 1
      && w.clearedTick == e.Now() / INSTR_PER_TICK && w.cleared == e.cleared
  {
    assert Roll(e) == e;
  }

  lemma {:induction false} WokenTick(i: nat)
    requires i < 4
    ensures (Woken(i) + 1) / INSTR_PER_TICK == Woken(i) / INSTR_PER_TICK == Ticked(i)
  {}

  lemma {:induction false} Quiet(i: nat, w: Env, u: nat)
    requires 0 < i < 4 && w.clearedTick == Ticked(i) && AllConsumed(w.cleared)
    requires Woken(i) < u < Woken(i + 1)
    ensures Silent(w, u)
  {
    var t := u / INSTR_PER_TICK;
    assert t == Ticked(i) || (i == 2 && (t == 2 || t == 3));
    HeldKey(t);
    assert Held(HURRIED, 2) == Held(HURRIED, 3) == {};
  }

  lemma {:induction false} NextWait(i: nat, e: Env)
    requires i < 4 && Behind(i, e)
    ensures
      var w := Retire(Roll(e), 1);
      && (forall u: nat :: w.Now() < u < Woken(i + 1) ==> Silent(w, u)) && !Silent(w, Woken(i + 1))
  {
    hide Behind, Silent, Roll, Sane;
    var w := Retire(Roll(e), 1);
    EntersWait(i, e);
    forall u: nat | w.Now() < u < Woken(i + 1) ensures Silent(w, u) {
      if i > 0 { Quiet(i, w, u); }
    }
    Loud(i, w);
  }

  lemma {:induction false} Loud(i: nat, w: Env)
    requires i < 4 && (if i == 0 then w.cleared == {} else w.clearedTick == Ticked(i))
    ensures !Silent(w, Woken(i + 1))
  {
    var t := Woken(i + 1) / INSTR_PER_TICK;
    assert t == [0, 1, 4, 5][i];
    assert t / 4 % 16 in Held(HURRIED, t) - Consumed(w, t);
  }

  lemma HeldKey(t: nat)
    ensures Held(HURRIED, t) <= ALL_KEYS
  {}

  lemma {:induction false} ClearedBehind(i: nat, e: Env)
    requires 0 < i <= 4 && e.retired == i && e.Now() == Woken(i) && Sane(e)
    ensures Behind(i, ClearKeys(e, ALL_KEYS))
  {
    hide Woken;
  }

  lemma {:induction false} WaitEnds(i: nat, e: Env)
    requires i < 4 && Behind(i, e)
    ensures Behind(i + 1, WaitStep(HURRIED, Retire(Roll(e), 1)).1)
  {
    hide PollKeys, Highest, Silent, Behind, ClearKeys, Sane, Roll;
    var w := Retire(Roll(e), 1);
    EntersWait(i, e);
    NextWait(i, e);
    assert Woken(i) + 1 < Woken(i + 1) < 10048;
    PollUntil(w, Woken(i + 1));
    ClearedBehind(i + 1, PollKeys(HURRIED, w).1);
  }

  // ---------------------------------------------------- the interpreter's run

  /** Before pass `i + 1` of the interpreter: at wait `i`, or looping. */
  ghost predicate Stands(i: nat, s: Vm)
  {
    && s.core.mem == WaitRom() && s.core.pc == (if i < 4 then 0x200 + 2 * i else 0x208)
    && s.env.retired == i && (if i <= 4 then Behind(i, s.env) else s.env.polled == 9996)
  }

  lemma {:induction false} WaitBlock(cfg: Config, s: Vm)
    requires OpAt(s.core.mem, s.core.pc) == 0xF00A
    ensures
      var out := BasicBlock(cfg, s);
      && out.Ok? && out.vm.env == WaitStep(cfg, s.env).1
      && out.vm.core.mem == s.core.mem && out.vm.core.pc == (s.core.pc + 2) % 0x10000
  {
    assert Top(0xF00A) == 0xF && X(0xF00A) == 0 && KK(0xF00A) == 0x0A;
    WaitRef(cfg, 0xF00A, s.core, s.env);
    MiscCoreRef(0xF00A, s.core, WaitStep(cfg, s.env).0);
    hide ExecCore, EnvStep, OpAt, WaitStep, Store, Load;
  }

  lemma {:induction false} JumpBlock(cfg: Config, s: Vm)
    requires OpAt(s.core.mem, s.core.pc) == 0x1208
    ensures BasicBlock(cfg, s) == Ok(Vm(s.core.(pc := 0x208), Sync(s.env)))
  {
    assert Top(0x1208) == 1 && NNN(0x1208) == 0x208;
    hide OpAt, WaitStep, KeyStep, Sync, ExecStraight;
  }

  lemma {:induction false} PassStands(i: nat, s: Vm)
    requires Stands(i, s)
    ensures Pass(HURRIED, s).Ok? && Stands(i + 1, Pass(HURRIED, s).vm)
  {
    hide WaitRom, OpAt, BasicBlock, Roll, Sync, Behind, WaitStep, Pass;
    var r := Vm(s.core, Retire(Roll(s.env), 1));
    PassIs(s);
    if i < 4 {
      assert OpAt(WaitRom(), 0x200 + 2 * i) == 0xF00A;
      WaitBlock(HURRIED, r);
      WaitEnds(i, s.env);
      BehindShape(i + 1, WaitStep(HURRIED, r.env).1);
    } else {
      JumpBlock(HURRIED, r);
      SyncCounts(r.env);
      if i == 4 { BehindShape(4, s.env); }
    }
  }

  lemma PassIs(s: Vm)
    ensures Pass(HURRIED, s) == BasicBlock(HURRIED, Vm(s.core, Retire(Roll(s.env), 1)))
  {}

  lemma SyncCounts(e: Env)
    ensures Sync(e).retired == e.retired && Sync(e).polled == e.polled
  {}

  lemma {:induction false} BehindShape(i: nat, e: Env)
    requires i <= 4 && Behind(i, e)
    ensures e.retired == i && (i == 4 ==> e.polled == 9996)
  {}

  lemma {:induction false} BootStands()
    ensures Stands(0, Boot(WaitRom()))
  {
    hide WaitRom, Behind;
    FirstBehind();
  }

  lemma {:induction false} FirstBehind()
    ensures Behind(0, INITIAL)
  {
    hide AllConsumed, Woken, Sane;
    assert Woken(0) == 0 by { WokenStart(); }
    FirstSane();
  }

  lemma FirstSane()
    ensures Sane(INITIAL)
  {}

  lemma {:induction false} RunStands(i: nat)
    ensures Run(HURRIED, Boot(WaitRom()), i).Ok? && Stands(i, Run(HURRIED, Boot(WaitRom()), i).vm)
  {
    hide Pass, WaitRom, Stands, Boot;
    if i == 0 {
      BootStands();
    } else {
      RunStands(i - 1);
      PassStands(i - 1, Run(HURRIED, Boot(WaitRom()), i - 1).vm);
    }
  }

  lemma {:induction false} StandsClock(i: nat, e: Env)
    requires i <= 4 ==> Behind(i, e)
    requires i > 4 ==> e.retired == i && e.polled == 9996
    ensures i <= 52 ==> (Done(HURRIED, e) <==> i == 52)
    ensures i >= 52 ==> Done(HURRIED, e)
  {}

  /** The base run is ended by the clock, in the loop. */
  lemma {:induction false} BaseStops()
    ensures StopsAfter(HURRIED, Boot(WaitRom()), 52)
  {
    hide Run, Done, Behind, WaitRom;
    forall i: nat | i <= 52
      ensures Run(HURRIED, Boot(WaitRom()), i).Ok? && (Done(HURRIED, Run(HURRIED, Boot(WaitRom()), i).vm.env) <==> i == 52)
    {
      RunStands(i);
      StandsClock(i, Run(HURRIED, Boot(WaitRom()), i).vm.env);
    }
  }

  // ---------------------------------------------------------- the JIT's runs

  /** The program's addresses. */
  predicate Coded(pc: int)
  {
    pc in {0x200, 0x202, 0x204, 0x206, 0x208}
  }

  lemma {:induction false} Lowered(pc: address, k: nat)
    requires Coded(pc)
    ensures
      if pc == 0x208 then Lower(OpAt(WaitRom(), pc), pc, k) == Jump(0x208)
      else Lower(OpAt(WaitRom(), pc), pc, k) == End([SetPc(Const(pc)), Call(LoadOnKey)])
    ensures forall q :: GoesOn(WaitRom(), pc, q) ==> pc == q == 0x208
  {
    hide WaitRom, OpAt, LowerArith;
    assert pc < 0x208 ==> OpAt(WaitRom(), 0x200 + 2 * ((pc - 0x200) / 2)) == 0xF00A;
    assert Top(0x1208) == 1 && NNN(0x1208) == 0x208 && Top(0xF00A) == 0xF && KK(0xF00A) == 0x0A;
    assert Wrap(pc) == pc;
  }

  lemma {:induction false} WalkStays(walk: seq<address>, from: int, to: int)
    requires Coded(from) && Walked(WaitRom(), walk, from, to)
    ensures to == from
    decreases |walk|
  {
    hide WaitRom, GoesOn, Coded;
    if |walk| == 1 {
      Lowered(walk[0], 0);
    } else if |walk| > 1 {
      assert GoesOn(WaitRom(), walk[0], walk[0 + 1]);
      Lowered(walk[0], 0);
      assert Walked(WaitRom(), walk[1..], from, to);
      WalkStays(walk[1..], from, to);
    }
  }

  /** Code generation meets nothing it would refuse. */
  lemma {:induction false} Compilable(pc: int)
    requires Coded(pc)
    ensures !Refuses(WaitRom(), pc) && !Escapes(WaitRom(), pc)
  {
    hide WaitRom, Walked, Lower, OpAt;
    forall walk: seq<address>, at: address | Walked(WaitRom(), walk, pc, at)
      ensures !Lower(OpAt(WaitRom(), at), at, 0).Unsupported?
    {
      WalkStays(walk, pc, at);
      Lowered(at, 0);
    }
    forall walk: seq<address>, to: int | Walked(WaitRom(), walk, pc, to)
      ensures to < 0x1000
    {
      WalkStays(walk, pc, to);
    }
  }

  /** The engine on its way to the first safepoint, or stopped by it. */
  ghost predicate OnTheWay(a: Jit)
  {
    var r := a.vm.env.retired;
    && r <= 64 && !a.phase.Exited? && !a.phase.Undefined?
    && (r < 64 ==> !a.vm.over && a.vm.next == 64 && !a.phase.Stopped? && (a.phase == Returned ==> r <= 4))
    && (r == 64 ==> a.vm.over && (a.phase == Returned || a.phase == Stopped))
  }

  /** The engine at wait `r`, or in the loop. */
  lemma {:induction false} EngineStands(a: Jit)
    requires Agrees(HURRIED, WaitRom(), a) && !a.phase.Exited?
    ensures
      var r := a.vm.env.retired;
      var pc := if r < 4 then 0x200 + 2 * r else 0x208;
      && a.vm.core.mem == WaitRom() && Coded(pc)
      && (if a.phase.InTrace? then a.phase.k < |a.phase.t| && a.phase.t[a.phase.k].pc == pc else a.vm.core.pc == pc)
      && (r <= 52 ==> (Done(HURRIED, a.vm.env) <==> r == 52)) && (r >= 52 ==> Done(HURRIED, a.vm.env))
  {
    hide Run, Alike, WaitRom, Behind, Done;
    var r := a.vm.env.retired;
    RunStands(r);
    MirrorClock(HURRIED, WaitRom(), a);
    StandsClock(r, Mirror(HURRIED, WaitRom(), a).vm.env);
    SameDone(a.vm.env, Mirror(HURRIED, WaitRom(), a).vm.env);
  }

  lemma SameDone(a: Env, b: Env)
    requires a.retired == b.retired && a.polled == b.polled
    ensures Done(HURRIED, a) <==> Done(HURRIED, b)
  {}

  /** Short of the next safepoint a block's head and landing test nothing. */
  lemma {:induction false} EarlyHead(k: nat, j: Native)
    requires j.env.retired < j.next
    ensures
      var a := AfterHead(HURRIED, k, j);
      && a.next == j.next && a.over == j.over
      && a.env.retired == j.env.retired + 1 && a.env.polled == j.env.polled
  {}

  lemma {:induction false} Landed(q: nat, j: Native)
    ensures
      var a := AfterLanding(HURRIED, q, j);
      if j.env.retired < j.next then a.next == j.next && a.over == j.over else a.over == (j.over || Done(HURRIED, j.env))
  {
    hide Advance;
  }

  lemma {:induction false} WaitOnTheWay(a: Jit, t: Trace, k: nat)
    requires JitOk(HURRIED, a) && a.phase == InTrace(t, k) && k < |t| && OnTheWay(a)
    requires a.vm.core.mem == WaitRom() && Coded(t[k].pc) && t[k].pc != 0x208
    ensures
      var f := RunBlock(HURRIED, a.code, t[k], a.vm);
      !f.Crashed? ==> f.Leaving? && f.exit == Return && f.j.next == a.vm.next && f.j.env.retired == a.vm.env.retired + 1
  {
    hide Steady, AllMarked, RunPieces, RunOps, BasicBlock, Waits, Head, AfterHead, OpAt, Lower, Notes, Gap, Due, WaitRom, Distinct, AlikeVm;
    var pc: int, op := t[k].pc, OpAt(a.vm.core.mem, t[k].pc);
    Lowered(t[k].pc, t[k].local);
    assert BlockOk(a.vm.core.mem, Pcs(t), k, t[k]);
    var ops := Lower(op, pc, t[k].local).ops;
    var h := AfterHead(HURRIED, k, a.vm);
    EarlyHead(k, a.vm);
    HeadMemory(k, a.vm);
    EndCorrect(HURRIED, a.code, op, pc, t[k].local, h);
    RunBody(HURRIED, a.code, k, ops, a.vm);
  }

  lemma {:induction false} HeadMemory(k: nat, j: Native)
    ensures AfterHead(HURRIED, k, j).core == j.core
  {}

  lemma {:induction false} LoopOnTheWay(a: Jit, t: Trace, k: nat)
    requires JitOk(HURRIED, a) && a.phase == InTrace(t, k) && k < |t| && OnTheWay(a)
    requires a.vm.core.mem == WaitRom() && t[k].pc == 0x208
    ensures
      var f := RunBlock(HURRIED, a.code, t[k], a.vm);
      && f.Leaving? && f.exit.Close? && f.j.env.retired == a.vm.env.retired + 1 && f.j.env.polled == a.vm.env.polled
      && (if f.j.env.retired < 64 then f.j.next == 64 && !f.j.over else f.j.over == Done(HURRIED, f.j.env))
  {
    hide Steady, AllMarked, RunPieces, RunOps, BasicBlock, Waits, Head, Landing, AfterHead, AfterLanding, OpAt, Lower, Notes, Gap, Due, WaitRom,
      Distinct, Emitted, Done;
    Lowered(t[k].pc, t[k].local);
    assert BlockOk(a.vm.core.mem, Pcs(t), k, t[k]);
    assert Emitted(Pcs(t), k + 1, 0x208) by { Found(Pcs(t), k); }
    EarlyHead(k, a.vm);
    var h := AfterHead(HURRIED, k, a.vm);
    Landed(0x208, h);
    LandedPc(HURRIED, 0x208, h);
    LandedCounts(0x208, h);
    SameDone(h.env, AfterLanding(HURRIED, 0x208, h).env);
    RunJump(HURRIED, a.code, k, 0x208, a.vm);
  }

  lemma Found(pcs: seq<address>, k: nat)
    requires k < |pcs|
    ensures Emitted(pcs, k + 1, pcs[k])
  {}

  lemma {:induction false} LandedCounts(q: nat, j: Native)
    ensures AfterLanding(HURRIED, q, j).env.retired == j.env.retired && AfterLanding(HURRIED, q, j).env.polled == j.env.polled
  {
    hide Advance;
  }

  lemma {:induction false} ServicesOnTheWay(a: Jit)
    requires OnTheWay(a) && a.phase == Returned
    requires a.vm.env.retired <= 52 ==> (Done(HURRIED, a.vm.env) <==> a.vm.env.retired == 52)
    ensures OnTheWay(Services(HURRIED, a))
  {
    hide Done;
    SyncCounts(a.vm.env);
    SameDone(a.vm.env, Sync(a.vm.env));
  }

  lemma {:induction false} StepOnTheWay(a: Jit, b: Jit)
    requires JitOk(HURRIED, a) && JitOk(HURRIED, b) && Step(HURRIED, a, b) && OnTheWay(a)
    requires Agrees(HURRIED, WaitRom(), a) && Agrees(HURRIED, WaitRom(), b)
    ensures OnTheWay(b)
  {
    hide Run, Agrees, AllMarked, TraceOk, RunBlock, Refuses, Escapes, Gap, Due, WaitRom, Coded, Done, Services, Coherent;
    EngineStands(a);
    NoError(b);
    match a.phase
    case AtHead =>
      if a.vm.core.pc !in a.cache {
        Compilable(a.vm.core.pc);
        MissOk(HURRIED, a, b);
      }
    case InTrace(t, k) =>
      EngineStands(b);
      if a.vm.env.retired < 4 {
        WaitOnTheWay(a, t, k);
      } else {
        LoopOnTheWay(a, t, k);
      }
    case Returned => ServicesOnTheWay(a);
    case _ =>
  }

  lemma {:induction false} NoError(b: Jit)
    requires Agrees(HURRIED, WaitRom(), b)
    ensures !b.phase.Exited?
  {
    hide Run, Alike, WaitRom, Stands;
    RunStands(b.vm.env.retired);
  }

  lemma {:induction false} RunOnTheWay(run: seq<Jit>)
    requires ValidRun(HURRIED, WaitRom(), run)
    ensures OnTheWay(Last(run))
    decreases |run|
  {
    hide JitOk, Step, Agrees, OnTheWay, WaitRom;
    if |run| == 1 {
      StartOnTheWay();
    } else {
      var prefix := run[..|run| - 1];
      assert Step(HURRIED, run[|run| - 2], run[|run| - 2 + 1]);
      RunOk(HURRIED, WaitRom(), prefix);
      RunOk(HURRIED, WaitRom(), run);
      RunAgrees(HURRIED, HURRIED, WaitRom(), prefix);
      RunAgrees(HURRIED, HURRIED, WaitRom(), run);
      RunOnTheWay(prefix);
      StepOnTheWay(Last(prefix), Last(run));
    }
  }

  lemma StartOnTheWay()
    ensures OnTheWay(Start(WaitRom()))
  {}

  /** Nothing more can happen. */
  predicate Ended(a: Jit)
  {
    a.phase == Stopped || a.phase == Exited || a.phase == Undefined
  }

  /** Every run of the JIT on this ROM that has ended has retired 64
      instructions, the base run 52, and the script reports a divergence. */
  lemma {:induction false} CapDiverges(run: seq<Jit>, again: nat)
    requires ValidRun(HURRIED, WaitRom(), run) && Ended(Last(run))
    requires StopsAfter(HURRIED.(budget := 64), Boot(WaitRom()), again)
    ensures StopsAfter(HURRIED, Boot(WaitRom()), 52)
    ensures Last(run).phase == Stopped && Last(run).vm.over && Last(run).vm.env.retired == 64
    ensures !SameFields(Reported(Last(run).vm.core, Last(run).vm.env), InterpReport(HURRIED, WaitRom(), 52, 64, again))
  {
    hide StopsAfter, Run, Step, SameFields, Reported, WaitRom, InterpReport;
    BaseStops();
    RunOnTheWay(run);
    BenchDiff(HURRIED, WaitRom(), run, 52, again);
  }
}
