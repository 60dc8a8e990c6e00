/** The differential test itself: run the interpreter and the JIT to the same
    budget; if they retired different counts, run the interpreter again to the
    JIT's; compare what both report. */
module Differential {
  import opened Chip8
  import opened Bench
  import opened Interp
  import opened TraceSpec
  import opened Dispatch
  import opened WholeRun
  import opened Rerun
  import opened Codegen
  import opened Limits
  import opened InterpEngine
  import Supported

  /** `NoReport`: the JIT printed none, having exited with an error, or the
      re-run would have refused a budget of zero. */
  datatype Comparison = Same | Diverged | NoReport

  /** One run of the interpreter, and its report. */
  method RunInterpreter(cfg: Config, rom: Memory) returns (passes: nat, report: Report)
    ensures StopsAfter(cfg, Boot(rom), passes)
    ensures var vm := Run(cfg, Boot(rom), passes).vm; report == Reported(vm.core, vm.env)
  {
    hide Run, StopsAfter, Reported, Done, Interpreter.Machine, Interpreter.Valid;
    var interpreter := new Interpreter(rom);
    var ok;
    ok, passes := interpreter.RunRom(cfg, rom);
    report := Reported(interpreter.Machine(), interpreter.env);
  }

  /** For a JIT that stopped, the outcome is exactly what `Reproducible` says, and
      a match is one of the whole state, unless the re-run cut a wait short. */
  method Compare(cfg: Config, rom: Memory) returns (outcome: Comparison, end: Phase, over: bool, base: nat, jit: Report, reference: Report,
                                                 ghost run: seq<Jit>)
    requires cfg.Valid()
    ensures ValidRun(cfg, rom, run) && (end == Stopped || end == Exited || end == Undefined)
    ensures Last(run).phase == end && Last(run).vm.over == over && jit == Reported(Last(run).vm.core, Last(run).vm.env)
    ensures StopsAfter(cfg, Boot(rom), base) && jit.retired <= cfg.budget + LAG
    ensures outcome == NoReport <==> end != Stopped || jit.retired == 0
    ensures outcome != NoReport ==> (outcome == Same <==> SameFields(jit, reference))
    ensures end == Stopped && !over ==> Supported.MeetsRejected(jit.core.mem, jit.core.pc)
    ensures end == Stopped && over ==> jit.retired >= base && outcome != NoReport
    ensures outcome != NoReport ==> (outcome == Same <==> Reproducible(cfg, rom, base, jit.retired))
    ensures outcome != NoReport ==> (jit == reference <==> outcome == Same && !Cuts(cfg, rom, base, jit.retired))
  {
    hide Run, StopsAfter, Reported, Done, ValidRun, SameFields, Reproducible, Supported.MeetsRejected, Cuts;
    base, reference := RunInterpreter(cfg, rom);
    var engine := new Engine(rom);
    end, run := engine.RunRom(cfg, rom);
    over := engine.vm.over;
    jit := Reported(engine.vm.core, engine.vm.env);
    ReportedMachine(engine.vm.core, engine.vm.env);
    if end != Stopped || jit.retired == 0 {
      return NoReport, end, over, base, jit, reference, run;
    }
    ghost var again := base;
    if jit.retired != base {
      again, reference := RunInterpreter(cfg.(budget := jit.retired), rom);
    }
    assert reference == InterpReport(cfg, rom, base, jit.retired, again);
    outcome := if SameFields(jit, reference) then Same else Diverged;
    assert |run| > 0 by { NotEmpty(cfg, run, rom); }
    assert SettledBy(cfg, rom, Last(run), base, again);
  }

  /** On this ROM the test reports a divergence. */
  method CompareWaitRom() returns (outcome: Comparison)
    ensures outcome == Diverged
  {
    hide Run, StopsAfter, Reported, ValidRun, SameFields, Supported.MeetsRejected, WaitRom, Lingers, Unnoticed;
    var rom := WaitRom();
    var end, over, base, jit, reference;
    ghost var run;
    outcome, end, over, base, jit, reference, run := Compare(HURRIED, rom);
    assert |run| > 0 by { NotEmpty(HURRIED, run, rom); }
    RunOnTheWay(run);
    BaseStops();
    StopsOnce(HURRIED, Boot(rom), base, 52);
    ReportedMachine(Last(run).vm.core, Last(run).vm.env);
  }

  lemma NotEmpty(cfg: Config, run: seq<Jit>, rom: Memory)
    requires ValidRun(cfg, rom, run)
    ensures |run| > 0
  {}

  lemma ReportedMachine(c: Core, e: Env)
    ensures Reported(c, e).retired == e.retired && Reported(c, e).core == c
  {}
}
