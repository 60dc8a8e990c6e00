/** Idle-loop elision in interactive mode: a recognised delay-timer poll loop is
    waited out instead of being run. The wall clock is an arbitrary schedule:
    what each call of tick() returns. */
module Idle {
  import opened Chip8
  import opened Bench

  /** The machine with its timers; `calls` counts the ticks taken so far. */
  datatype Wall = Wall(core: Core, delay: byte, sound: byte, last: int, calls: nat)

  /** chip8_idle_delay_loop: `L: LD Vx, DT; SE Vx, 0; JP L` at `pc`. */
  function DelayLoop(mem: Memory, pc: word): (r: Option<nibble>)
  {
    var a, b, c := OpAt(mem, pc), OpAt(mem, pc + 2), OpAt(mem, pc + 4);
    if Top(a) != 0xF || KK(a) != 0x07 then None
    else if Top(b) != 3 || KK(b) != 0 || X(b) != X(a) then None
    else if Top(c) != 1 || NNN(c) != pc then None
    else Some(X(a))
  }

  /** It recognises exactly the three words of such a loop. */
  lemma {:induction false} LoopWords(mem: Memory, pc: word, x: nibble)
    ensures
      var v: int := x;
      DelayLoop(mem, pc) == Some(x) <==>
        pc < 0x1000 && OpAt(mem, pc) == 0xF007 + 0x100 * v && OpAt(mem, pc + 2) == 0x3000 + 0x100 * v && OpAt(mem, pc + 4) == 0x1000 + pc
  {
    WordParts(OpAt(mem, pc));
    WordParts(OpAt(mem, pc + 2));
    WordParts(OpAt(mem, pc + 4));
    hide OpAt;
  }

  lemma WordParts(op: word)
    ensures var group: int, v: int := Top(op), X(op); op == 0x1000 * group + 0x100 * v + KK(op) && op == 0x1000 * group + NNN(op)
  {}

  function Less(timer: byte): byte
  {
    if timer > 0 then timer - 1 else 0
  }

  /** interrupt: a tick that differs from the last one counts both timers down. */
  function Interrupt(ticks: nat -> int, w: Wall): Wall
  {
    var now := ticks(w.calls);
    if now != w.last then Wall(w.core, Less(w.delay), Less(w.sound), now, w.calls + 1)
    else w.(calls := w.calls + 1)
  }

  /** The instructions that service the timers. */
  predicate Services(op: word)
  {
    op == 0x00EE || (op != 0x00E0 && Top(op) <= 2) || Top(op) == 0xD
  }

  /** One instruction that reads neither keys nor the random stream. */
  function WallStep(ticks: nat -> int, w: Wall): Option<Wall>
  {
    var op := OpAt(w.core.mem, w.core.pc);
    var e := if Services(op) then Interrupt(ticks, w) else w;
    match ExecCore(op, w.core, NO_INPUT.(delay := w.delay))
    case Some(c) =>
      var x := w.core.regs[X(op)];
      var timed := if Top(op) == 0xF && KK(op) == 0x15 then e.(delay := x)
        else if Top(op) == 0xF && KK(op) == 0x18 then e.(sound := x) else e;
      Some(timed.(core := c))
    case None => None
  }

  function WallRun(ticks: nat -> int, w: Wall, n: nat): Option<Wall>
  {
    if n == 0 then Some(w)
    else match WallRun(ticks, w, n - 1)
      case Some(v) => WallStep(ticks, v)
      case None => None
  }

  /** The timers serviced `n` times in a row. */
  function Waited(ticks: nat -> int, w: Wall, n: nat): Wall
  {
    if n == 0 then w else Interrupt(ticks, Waited(ticks, w, n - 1))
  }

  // ------------------------------------------------------- counting down

  /** However many services it takes, both timers lose the same ticks until the
      delay runs out. */
  lemma {:induction false} WaitedTimers(ticks: nat -> int, w: Wall, n: nat)
    requires forall i :: 0 <= i < n ==> Waited(ticks, w, i).delay != 0
    ensures
      var v := Waited(ticks, w, n);
      v.core == w.core && v.delay <= w.delay && v.sound == CountDown(w.sound, w.delay - v.delay)
  {
    if n > 0 {
      WaitedTimers(ticks, w, n - 1);
      assert Waited(ticks, w, n - 1).delay != 0;
    }
  }

  /** The schedule lets the delay run out after `n` services, not before. */
  ghost predicate RunsOut(ticks: nat -> int, w: Wall, n: nat)
  {
    Waited(ticks, w, n).delay == 0 && forall i :: 0 <= i < n ==> Waited(ticks, w, i).delay != 0
  }

  /** Where a wait that has run out leaves the machine, on any schedule. */
  ghost predicate Over(w: Wall, x: nibble, v: Wall)
  {
    && v.core == SetReg(w.core, x, 0).(pc := (w.core.pc + 6) % 0x10000)
    && v.delay == 0 && v.sound == CountDown(w.sound, w.delay)
  }

  // --------------------------------------------------------- the loop itself

  ghost predicate AtLoop(w: Wall, x: nibble)
  {
    DelayLoop(w.core.mem, w.core.pc) == Some(x)
  }

  lemma {:induction false} FetchLoop(w: Wall, x: nibble)
    requires AtLoop(w, x)
    ensures
      var a, b, c := OpAt(w.core.mem, w.core.pc), OpAt(w.core.mem, w.core.pc + 2), OpAt(w.core.mem, w.core.pc + 4);
      && Top(a) == 0xF && KK(a) == 7 && X(a) == x
      && Top(b) == 3 && KK(b) == 0 && X(b) == x
      && Top(c) == 1 && NNN(c) == w.core.pc < 0x1000
  {
    hide OpAt, Top, X, KK;
  }

  lemma {:induction false} ReadStep(ticks: nat -> int, w: Wall, x: nibble)
    requires var op := OpAt(w.core.mem, w.core.pc); Top(op) == 0xF && KK(op) == 7 && X(op) == x
    ensures WallStep(ticks, w) == Some(w.(core := SkipIf(SetReg(w.core, x, w.delay), false)))
  {
    NotSystem(OpAt(w.core.mem, w.core.pc));
    hide OpAt, Top, X, KK, SkipIf, Store, Load;
  }

  lemma {:induction false} TestStep(ticks: nat -> int, w: Wall, x: nibble)
    requires var op := OpAt(w.core.mem, w.core.pc); Top(op) == 3 && KK(op) == 0 && X(op) == x
    ensures WallStep(ticks, w) == Some(w.(core := SkipIf(w.core, w.core.regs[x] == 0)))
  {
    NotSystem(OpAt(w.core.mem, w.core.pc));
    hide OpAt, Top, X, KK, SkipIf, ExecStraight;
  }

  lemma {:induction false} BackStep(ticks: nat -> int, w: Wall)
    requires Top(OpAt(w.core.mem, w.core.pc)) == 1
    ensures WallStep(ticks, w) == Some(Interrupt(ticks, w).(core := w.core.(pc := NNN(OpAt(w.core.mem, w.core.pc)))))
  {
    NotSystem(OpAt(w.core.mem, w.core.pc));
    hide OpAt, Top, NNN, X, KK, ExecStraight;
  }

  lemma {:induction false} ThreeSteps(ticks: nat -> int, w: Wall)
    requires WallStep(ticks, w).Some? && WallStep(ticks, WallStep(ticks, w).value).Some?
    ensures WallRun(ticks, w, 1) == WallStep(ticks, w)
    ensures WallRun(ticks, w, 2) == WallStep(ticks, WallStep(ticks, w).value)
    ensures WallRun(ticks, w, 3) == WallStep(ticks, WallStep(ticks, WallStep(ticks, w).value).value)
  {
    hide WallStep;
    assert WallRun(ticks, w, 0) == Some(w);
  }

  /** One turn: with time left the loop is back at its head, the polled register
      holding the old delay; with none left it falls out behind itself. */
  lemma {:induction false} Turn(ticks: nat -> int, w: Wall, x: nibble)
    requires AtLoop(w, x)
    ensures w.delay != 0 ==>
      WallRun(ticks, w, 3) == Some(Interrupt(ticks, w).(core := SetReg(w.core, x, w.delay)))
    ensures w.delay == 0 ==>
      WallRun(ticks, w, 2) == Some(w.(core := SetReg(w.core, x, 0).(pc := (w.core.pc + 6) % 0x10000)))
    ensures WallRun(ticks, w, 1).Some? && WallRun(ticks, w, 1).value.core.pc == w.core.pc + 2
    ensures w.delay != 0 ==> WallRun(ticks, w, 2).Some? && WallRun(ticks, w, 2).value.core.pc == w.core.pc + 4
  {
    hide OpAt, Top, X, KK, NNN, WallStep, WallRun;
    FetchLoop(w, x);
    ReadStep(ticks, w, x);
    var a := w.(core := SkipIf(SetReg(w.core, x, w.delay), false));
    TestStep(ticks, a, x);
    ThreeSteps(ticks, w);
    if w.delay != 0 {
      BackStep(ticks, a.(core := SkipIf(a.core, false)));
    }
  }

  lemma {:induction false} RunOn(ticks: nat -> int, w: Wall, n: nat, m: nat)
    requires WallRun(ticks, w, n).Some?
    ensures WallRun(ticks, w, n + m) == WallRun(ticks, WallRun(ticks, w, n).value, m)
    decreases m
  {
    hide WallStep;
    if m > 0 {
      RunOn(ticks, w, n, m - 1);
      assert n + m - 1 == n + (m - 1);
    }
  }

  /** Run as it stands, the loop takes one service per turn. */
  lemma {:induction false} SpinTurns(ticks: nat -> int, w: Wall, x: nibble, n: nat)
    requires AtLoop(w, x) && forall i :: 0 <= i < n ==> Waited(ticks, w, i).delay != 0
    ensures WallRun(ticks, w, 3 * n).Some?
    ensures
      var v := WallRun(ticks, w, 3 * n).value;
      && v == Waited(ticks, w, n).(core := v.core)
      && v.core == w.core.(regs := v.core.regs) && SetReg(v.core, x, 0) == SetReg(w.core, x, 0)
  {
    hide WallStep, WallRun, DelayLoop;
    if n == 0 {
      ZeroSteps(ticks, w);
    } else {
      SpinTurns(ticks, w, x, n - 1);
      var v := WallRun(ticks, w, 3 * (n - 1)).value;
      assert Waited(ticks, w, n - 1).delay != 0;
      Turn(ticks, v, x);
      RunOn(ticks, w, 3 * (n - 1), 3);
      assert 3 * (n - 1) + 3 == 3 * n;
    }
  }

  lemma ZeroSteps(ticks: nat -> int, w: Wall)
    ensures WallRun(ticks, w, 0) == Some(w)
  {}

  /** The spin leaves the loop after 3n + 2 instructions, in the state any wait
      ends in. */
  lemma {:induction false} SpinEnds(ticks: nat -> int, w: Wall, x: nibble, n: nat)
    requires AtLoop(w, x) && RunsOut(ticks, w, n)
    ensures WallRun(ticks, w, 3 * n + 2).Some? && Over(w, x, WallRun(ticks, w, 3 * n + 2).value)
  {
    hide WallStep, WallRun, DelayLoop, SetReg;
    SpinTurns(ticks, w, x, n);
    WaitedTimers(ticks, w, n);
    var v := WallRun(ticks, w, 3 * n).value;
    Turn(ticks, v, x);
    RunOn(ticks, w, 3 * n, 2);
  }

  /** The elided loop after `n` services: the polled register zeroed, the
      program counter past the loop. */
  function Elided(ticks: nat -> int, w: Wall, x: nibble, n: nat): Wall
  {
    var v := Waited(ticks, w, n);
    v.(core := SetReg(v.core, x, 0).(pc := (w.core.pc + 6) % 0x10000))
  }

  /** The wait ends before its service number `n`: the delay has run out or the
      quit key is down, and neither was so before. */
  ghost predicate Ends(ticks: nat -> int, quit: nat -> bool, w: Wall, n: nat)
  {
    && (Waited(ticks, w, n).delay == 0 || quit(n))
    && forall i :: 0 <= i < n ==> Waited(ticks, w, i).delay != 0 && !quit(i)
  }

  /** idle_wait and the advance of the program counter behind it. `quit(i)` is
      the quit key before service `i`: it cuts the wait short, and the register is
      zeroed all the same. */
  method IdleWait(ticks: nat -> int, quit: nat -> bool, w: Wall, x: nibble, ghost n: nat) returns (v: Wall)
    requires Ends(ticks, quit, w, n)
    ensures v == Elided(ticks, w, x, n)
    ensures v.core == SetReg(w.core, x, 0).(pc := (w.core.pc + 6) % 0x10000)
    ensures v.delay <= w.delay && v.sound == CountDown(w.sound, w.delay - v.delay)
    ensures v.delay == 0 <==> RunsOut(ticks, w, n)
    ensures if v.delay == 0 then Over(w, x, v) else quit(n)
  {
    v := w;
    var i := 0;
    while v.delay != 0
      invariant i <= n && v == Waited(ticks, w, i)
      invariant v.delay == 0 ==> i == n
      decreases n - i
    {
      if quit(i) { break; }
      v := Interrupt(ticks, v);
      i := i + 1;
    }
    WaitedTimers(ticks, w, i);
    v := v.(core := SetReg(v.core, x, 0));
    v := v.(core := v.core.(pc := (v.core.pc + 6) % 0x10000));
    hide SetReg;
  }

  /** Elision changes nothing but time: whatever the two schedules, the spin and
      the elided wait end with the same registers, I, memory, stack, display and
      program counter, the delay at zero and the sound timer down by what the
      delay was. */
  lemma {:induction false} ElisionSame(spun: nat -> int, waited: nat -> int, w: Wall, x: nibble, n: nat, m: nat)
    requires AtLoop(w, x) && RunsOut(spun, w, n) && RunsOut(waited, w, m)
    ensures WallRun(spun, w, 3 * n + 2).Some?
    ensures
      var u, v := WallRun(spun, w, 3 * n + 2).value, Elided(waited, w, x, m);
      u.core == v.core && u.core.pc == w.core.pc + 6
      && u.delay == v.delay == 0 && u.sound == v.sound == CountDown(w.sound, w.delay)
  {
    hide WallRun, SetReg, DelayLoop, CountDown, Waited, RunsOut, OpAt, Elided;
    SpinEnds(spun, w, x, n);
    ElidedOver(waited, w, x, m);
    FetchLoop(w, x);
  }

  lemma {:induction false} ElidedOver(ticks: nat -> int, w: Wall, x: nibble, n: nat)
    requires RunsOut(ticks, w, n)
    ensures Over(w, x, Elided(ticks, w, x, n))
  {
    WaitedTimers(ticks, w, n);
    hide SetReg, CountDown;
  }
}
