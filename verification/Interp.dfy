/** The reference meaning of a ROM: the interpreter's main loop in BENCH mode. */
module Interp {
  import opened Chip8
  import opened Bench

  datatype Vm = Vm(core: Core, env: Env)

  /** `Err` is the error return of an opcode, which stops the interpreter. */
  datatype Outcome = Ok(vm: Vm) | Err(vm: Vm)

  /** basic_block: fetch, decode and execute at the program counter. */
  function BasicBlock(cfg: Config, s: Vm): Outcome
  {
    var op := OpAt(s.core.mem, s.core.pc);
    var (inp, env) := EnvStep(cfg, op, s.core, s.env);
    match ExecCore(op, s.core, inp)
    case Some(core) => Ok(Vm(core, env))
    case None => Err(Vm(s.core, env))
  }

  /** One pass of the main loop: poll the keys, count the instruction, execute. */
  function Pass(cfg: Config, s: Vm): Outcome
  {
    BasicBlock(cfg, Vm(s.core, Retire(Roll(s.env), 1)))
  }

  /** The first `n` passes; an error ends the run early. */
  function Run(cfg: Config, s: Vm, n: nat): Outcome
  {
    if n == 0 then Ok(s)
    else match Run(cfg, s, n - 1)
      case Ok(t) => Pass(cfg, t)
      case Err(t) => Err(t)
  }

  /** The machine at reset, with the memory image already loaded. */
  function Boot(mem: Memory): Vm
  {
    Vm(Core(seq(0x10, _ => 0), 0, ENTRYPOINT, [], mem, {}), INITIAL)
  }

  // ------------------------------------------------ indistinguishable machines

  ghost predicate AlikeVm(a: Vm, b: Vm)
  {
    a.core == b.core && Alike(a.env, b.env)
  }

  ghost predicate AlikeOutcome(a: Outcome, b: Outcome)
  {
    (a.Ok? <==> b.Ok?) && AlikeVm(a.vm, b.vm)
  }

  /** An instruction cannot tell alike machines apart. */
  lemma {:induction false} BasicBlockAlike(ca: Config, cb: Config, a: Vm, b: Vm)
    requires AlikeVm(a, b)
    requires ca.(budget := cb.budget) == cb
    requires Waits(OpAt(a.core.mem, a.core.pc)) ==>
      SameRun(ca, cb, a.env.retired, BasicBlock(ca, a).vm.env.Now())
    ensures AlikeOutcome(BasicBlock(ca, a), BasicBlock(cb, b))
  {
    EnvStepAlike(ca, cb, OpAt(a.core.mem, a.core.pc), a.core, a.env, b.env);
    hide Alike, EnvStep, ExecCore, SameRun;
  }

  lemma {:induction false} RetireAlike(a: Env, b: Env, n: nat)
    requires Alike(a, b)
    ensures Alike(Retire(a, n), Retire(b, n))
  {
    hide Alike;
    AdvanceAlike(a, b, n, 0);
    assert a.(retired := a.retired + n, polled := a.polled + 0) == Retire(a, n);
    assert b.(retired := b.retired + n, polled := b.polled + 0) == Retire(b, n);
  }

  /** The interpreter polls the keys before every instruction, a trace does not. */
  lemma {:induction false} RetireRolled(a: Env, b: Env, n: nat)
    requires Alike(a, b)
    ensures Alike(Retire(a, n), Retire(Roll(b), n))
  {
    AlikeSym(a, b);
    RollAlike(b, a);
    AlikeSym(Roll(b), a);
    RetireAlike(a, Roll(b), n);
    hide Alike, Roll;
  }
}
