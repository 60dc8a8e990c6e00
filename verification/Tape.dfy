/** The machine fed from a tape, for the tools that change a program or its
    execution: what instructions read from outside (timers, keys, random bytes)
    is one tape consumed in order, and the timer settings they send out are one
    list. The clock of a BENCH run, which counts instructions, is not part of
    this model. */
module Tape {
  import opened Chip8
  import opened Bench

  datatype Sent = DelaySet(value: byte) | SoundSet(value: byte)

  datatype Mach = Mach(core: Core, used: nat, sent: seq<Sent>)

  /** The instructions that consume an input. */
  predicate Reads(op: word)
  {
    Top(op) == 0xC || (Top(op) == 0xE && KK(op) in {0x9E, 0xA1}) || (Top(op) == 0xF && KK(op) in {0x07, 0x0A})
  }

  function Sends(op: word, c: Core): seq<Sent>
  {
    if Top(op) == 0xF && KK(op) == 0x15 then [DelaySet(c.regs[X(op)])]
    else if Top(op) == 0xF && KK(op) == 0x18 then [SoundSet(c.regs[X(op)])]
    else []
  }

  function Fetch(m: Mach): word { OpAt(m.core.mem, m.core.pc) }

  function Given(tape: nat -> Input, m: Mach): Input
  {
    if Reads(Fetch(m)) then tape(m.used) else NO_INPUT
  }

  /** One instruction; None is the error return. */
  function TapeStep(tape: nat -> Input, m: Mach): Option<Mach>
  {
    match ExecCore(Fetch(m), m.core, Given(tape, m))
    case Some(c) => Some(Mach(c, m.used + (if Reads(Fetch(m)) then 1 else 0), m.sent + Sends(Fetch(m), m.core)))
    case None => None
  }

  function TapeRun(tape: nat -> Input, m: Mach, n: nat): Option<Mach>
  {
    if n == 0 then Some(m)
    else match TapeRun(tape, m, n - 1)
      case Some(k) => TapeStep(tape, k)
      case None => None
  }

  // ------------------------------------------- one input for each instruction

  /** A machine and the timer settings it has sent out, its inputs coming one
      per instruction. */
  datatype Side = Side(core: Core, sent: seq<Sent>)

  function StepWith(inp: Input, s: Side): Option<Side>
  {
    var op := OpAt(s.core.mem, s.core.pc);
    match ExecCore(op, s.core, inp)
    case Some(c) => Some(Side(c, s.sent + Sends(op, s.core)))
    case None => None
  }

  function RunWith(inps: seq<Input>, s: Side): Option<Side>
  {
    if inps == [] then Some(s)
    else match RunWith(inps[..|inps| - 1], s)
      case Some(t) => StepWith(inps[|inps| - 1], t)
      case None => None
  }

  lemma {:induction false} RunMore(inps: seq<Input>, inp: Input, s: Side)
    ensures RunWith(inps + [inp], s) == match RunWith(inps, s) case Some(t) => StepWith(inp, t) case None => None
  {
    assert (inps + [inp])[..|inps|] == inps;
    hide StepWith;
  }
}
