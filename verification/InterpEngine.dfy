/** The interpreter in its own form: global buffers and counters updated in
    place by one routine per opcode, and the main loop around them. */
module InterpEngine {
  import opened Chip8
  import opened Bench
  import opened Interp
  import opened Display
  import opened Lowering
  import opened WholeRun

  class Interpreter {
    const regs: array<byte>
    const memory: array<byte>
    const stack: array<word>
    const screen: Framebuffer
    var sp: nat
    var addr: word
    var pc: word
    var env: Env

    ghost predicate Valid()
      reads this, screen, screen.pixels
    {
      && regs.Length == 0x10 && memory.Length == 0x1000 && stack.Length == STACK_SIZE && sp <= STACK_SIZE
      && memory != regs && screen.pixels != regs && screen.pixels != memory && screen.Valid()
    }

    function Machine(): Core
      reads this, regs, memory, stack, screen, screen.pixels
      requires Valid()
    {
      Core(regs[..], addr, pc, stack[..sp], memory[..], screen.Lit())
    }

    function State(): Vm
      reads this, regs, memory, stack, screen, screen.pixels
      requires Valid()
    {
      Vm(Machine(), env)
    }

    constructor (rom: Memory)
      ensures Valid() && State() == Boot(rom)
      ensures fresh(regs) && fresh(memory) && fresh(stack) && fresh(screen) && fresh(screen.pixels)
    {
      regs := new byte[0x10](_ => 0);
      memory := new byte[0x1000](k requires 0 <= k < 0x1000 => rom[k]);
      stack := new word[STACK_SIZE](_ => 0);
      screen := new Framebuffer();
      sp, addr, pc, env := 0, 0, ENTRYPOINT, INITIAL;
      new;
      assert regs[..] == seq(0x10, _ => 0);
      assert memory[..] == rom;
    }

    // ------------------------------------------------- timers and keyboard

    method SyncTimers()
      requires Valid()
      modifies this`env
      ensures Valid() && Machine() == old(Machine())
      ensures env == Sync(old(env))
    {
      var now := env.Tick();
      var elapsed := now - env.lastTick;
      if elapsed > 0 {
        env := env.(delay := if env.delay > elapsed then env.delay - elapsed else 0);
        env := env.(sound := if env.sound > elapsed then env.sound - elapsed else 0);
        env := env.(lastTick := now);
      }
    }

    method RollTick()
      requires Valid()
      modifies this`env
      ensures Valid() && Machine() == old(Machine())
      ensures env == Roll(old(env))
    {
      if env.Tick() != env.clearedTick {
        env := env.(clearedTick := env.Tick(), cleared := {});
      }
    }

    method KeysNow(cfg: Config) returns (keys: set<int>)
      requires Valid()
      modifies this`env
      ensures Valid() && Machine() == old(Machine())
      ensures env == Roll(old(env)) && keys == Keys(cfg, env)
    {
      RollTick();
      var t := env.Tick();
      if !cfg.rotate || t % 4 >= 2 {
        return {};
      }
      keys := {t / 4 % 16} - env.cleared;
    }

    method ClearKey(key: int)
      requires Valid()
      modifies this`env
      ensures Valid() && Machine() == old(Machine())
      ensures env == ClearKeys(old(env), {key})
    {
      RollTick();
      env := env.(cleared := env.cleared + {key});
    }

    method PollKeys(cfg: Config) returns (keys: set<int>)
      requires Valid()
      modifies this`env
      ensures Valid() && Machine() == old(Machine())
      ensures env == PollOnce(old(env)) && keys == Keys(cfg, env)
    {
      env := env.(polled := env.polled + 1);
      keys := KeysNow(cfg);
    }

    // ------------------------------------------------- one register or byte

    method SetRegister(x: nibble, v: byte)
      requires Valid()
      modifies regs
      ensures Valid() && env == old(env) && Machine() == SetReg(old(Machine()), x, v)
    {
      hide LitIn;
      regs[x] := v;
      assert screen.pixels[..] == old(screen.pixels[..]) && regs[..] == old(regs[..])[x := v];
    }

    /** MEM_AT (a) = v. */
    method Poke(a: int, v: byte)
      requires Valid()
      modifies memory
      ensures Valid() && env == old(env)
      ensures Machine() == old(Machine()).(mem := old(Machine()).mem[Wrap(a) := v])
    {
      hide LitIn;
      memory[Wrap(a)] := v;
      assert screen.pixels[..] == old(screen.pixels[..]) && memory[..] == old(memory[..])[Wrap(a) := v];
    }

    method Step2()
      requires Valid()
      modifies this`pc
      ensures Valid() && env == old(env) && Machine() == SkipIf(old(Machine()), false)
    {
      pc := (pc + 2) % 0x10000;
    }

    // --------------------------------------------------- opcodes with loops

    /** Fx33. */
    method StoreBcd(x: nibble)
      requires Valid()
      modifies this`pc, memory
      ensures Valid() && env == old(env)
      ensures Machine() == SkipIf(old(Machine()).(mem := Store(old(Machine().mem), addr, Digits(old(Machine()).regs[x]))), false)
    {
      hide Store, LitIn, Valid, Machine, SkipIf, Digits, Wrap;
      ghost var was := Machine();
      ValidArrays();
      var tmp: int := regs[x];
      var hundreds, tens, ones := tmp / 100, tmp % 100 / 10, tmp % 100 % 10;
      StoreDigits(was.mem, addr, tmp, hundreds, tens, ones);
      Poke(addr + 0, hundreds);
      Poke(addr + 1, tens);
      Poke(addr + 2, ones);
      Step2();
    }

    lemma ValidArrays()
      requires Valid()
      ensures regs.Length == 0x10 && memory.Length == 0x1000 && stack.Length == STACK_SIZE
      ensures Machine().regs == regs[..] && Machine().mem == memory[..] && Machine().i == addr && Machine().pc == pc
      ensures memory != regs
    {}

    /** Fx55. */
    method SaveRegisters(x: nibble)
      requires Valid()
      modifies this`pc, memory
      ensures Valid() && env == old(env)
      ensures Machine() == SkipIf(old(Machine()).(mem := Store(old(Machine().mem), addr, old(Machine()).regs[..x + 1])), false)
    {
      hide Store, LitIn, Valid, Machine, SkipIf;
      ghost var was := Machine();
      ValidArrays();
      StoreNone(was.mem, addr);
      for k := 0 to x + 1
        invariant Valid() && env == old(env)
        invariant Machine() == was.(mem := Store(was.mem, was.i, was.regs[..k]))
      {
        ValidArrays();
        StoreMore(was.mem, was.i, was.regs[..k], was.regs[k]);
        assert was.regs[..k] + [was.regs[k]] == was.regs[..k + 1];
        Poke(addr + k, regs[k]);
      }
      Step2();
    }

    /** Fx65. */
    method RestoreRegisters(x: nibble)
      requires Valid()
      modifies this`pc, regs
      ensures Valid() && env == old(env)
      ensures var was := old(Machine());
        Machine() == SkipIf(was.(regs := Load(was.mem, was.i, x + 1) + was.regs[x + 1..]), false)
    {
      hide LitIn, Valid, Machine, SkipIf, Load;
      ghost var was := Machine();
      LoadNone(was);
      for k := 0 to x + 1
        invariant Valid() && env == old(env)
        invariant Machine() == was.(regs := Load(was.mem, was.i, k) + was.regs[k..])
      {
        ValidArrays();
        LoadMore(was, k);
        SetRegister(k, memory[Wrap(addr + k)]);
      }
      Step2();
    }

    /** Dxyn. */
    method DrawSprite(op: word)
      requires Valid()
      modifies this`pc, this`env, regs, screen.pixels
      ensures Valid() && env == Sync(old(env))
      ensures Machine() == SkipIf(ExecDraw(op, old(Machine())), false)
    {
      SyncTimers();
      var n := N(op);
      var sprite: seq<byte> := [];
      for k := 0 to n
        invariant sprite == Load(memory[..], addr, k) && pc == old(pc) && env == Sync(old(env)) && regs[..] == old(regs[..])
      {
        sprite := sprite + [memory[Wrap(addr + k)]];
      }
      var vf := screen.Draw(regs[X(op)], regs[Y(op)], sprite);
      regs[0xF] := vf;
      pc := (pc + 2) % 0x10000;
      assert regs[..] == old(regs[..])[0xF := vf];
    }

    /** Ex9E and ExA1. */
    method SkipKeyX(cfg: Config, up: bool, key: int)
      requires Valid()
      modifies this`pc, this`env
      ensures Valid()
      ensures var (inp, e) := KeyStep(cfg, up, key, old(env)); env == e && Machine() == SkipIf(old(Machine()), inp.hit)
    {
      var keys := KeysNow(cfg);
      if (key in keys) != up {
        ClearKey(key);
        pc := (pc + 2) % 0x10000;
      }
      pc := (pc + 2) % 0x10000;
    }

    method WaitForKey(cfg: Config) returns (keys: set<int>)
      requires Valid()
      modifies this`env
      ensures Valid() && Machine() == old(Machine())
      ensures (keys, env) == Bench.PollKeys(cfg, old(env))
    {
      keys := PollKeys(cfg);
      while !Done(cfg, env) && keys == {}
        invariant Valid() && Machine() == old(Machine()) && keys == Keys(cfg, env)
        invariant Bench.PollKeys(cfg, old(env)) ==
          if Done(cfg, env) || keys != {} then (keys, env) else Bench.PollKeys(cfg, env)
        decreases cfg.Cap() - env.Now()
      {
        keys := PollKeys(cfg);
      }
    }

    /** Fx0A. */
    method LoadOnKey(cfg: Config, x: nibble)
      requires Valid()
      modifies this`pc, this`env, regs
      ensures Valid()
      ensures var (inp, e) := WaitStep(cfg, old(env));
        && env == e
        && Machine() == SkipIf(if inp.key.Some? then SetReg(old(Machine()), x, inp.key.value) else old(Machine()), false)
    {
      hide Bench.PollKeys, LitIn, ClearKeys, Valid, Machine, SkipIf;
      ghost var was := Machine();
      var keys := WaitForKey(cfg);
      ghost var polled := env;
      RolledAgain(cfg, old(env));
      for k := 0 to 16
        invariant Valid() && env == ClearKeys(polled, Below(k))
        invariant Machine() == match Highest(keys, k) case Some(v) => SetReg(was, x, v) case None => was
      {
        ClearKey(k);
        ClearOneMore(polled, k);
        if k in keys {
          SetRegister(x, k);
        }
      }
      BelowAll();
      Step2();
    }

    // ------------------------------------------------------ simple opcodes

    /** 3xkk, 4xkk, 5xy0 and 9xy0, with the comparison already made. */
    method Skip(taken: bool)
      requires Valid()
      modifies this`pc
      ensures Valid() && env == old(env) && Machine() == SkipIf(old(Machine()), taken)
    {
      if taken {
        pc := (pc + 2) % 0x10000;
      }
      pc := (pc + 2) % 0x10000;
    }

    /** The flag is stored after the result, so it wins when x is F. */
    method SetWithFlag(x: nibble, v: int, flag: bool)
      requires Valid()
      modifies regs
      ensures Valid() && env == old(env) && Machine() == SetRegFlag(old(Machine()), x, v, flag)
    {
      SetRegister(x, v % 0x100);
      SetRegister(0xF, Bit(flag));
      hide LitIn;
    }

    /** 8xyn. */
    method Arithmetic(op: word) returns (ok: bool)
      requires Valid() && Top(op) == 8
      modifies this`pc, regs
      ensures Valid() && env == old(env)
      ensures ok <==> ExecArith(op, old(Machine())).Some?
      ensures Machine() == if ok then SkipIf(ExecArith(op, old(Machine())).value, false) else old(Machine())
    {
      hide Top, X, Y, N, LitIn, Bits, SetReg, SetRegFlag;
      var x, vx: int, vy: int := X(op), regs[X(op)], regs[Y(op)];
      ghost var was := Machine();
      match N(op) {
        case 0x0 => SetRegister(x, vy);
        case 0x1 => SetRegister(x, Bits8(OR, vx, vy));
        case 0x2 => SetRegister(x, Bits8(AND, vx, vy));
        case 0x3 => SetRegister(x, Bits8(XOR, vx, vy));
        case 0x4 => SetWithFlag(x, vx + vy, vx + vy > 0xFF);
        case 0x5 => SetWithFlag(x, vx - vy, vx >= vy);
        case 0x6 => SetWithFlag(x, vx / 2, vx % 2 == 1);
        case 0x7 => SetWithFlag(x, vy - vx, vy >= vx);
        case 0xE => SetWithFlag(x, vx * 2, vx >= 0x80);
        case _ => return false;
      }
      ok := true;
      assert Machine() == ExecArith(op, was).value;
      Step2();
    }

    method Jump(target: address)
      requires Valid()
      modifies this`pc, this`env
      ensures Valid() && env == Sync(old(env)) && Machine() == old(Machine()).(pc := target)
    {
      SyncTimers();
      pc := target;
    }

    method Return() returns (ok: bool)
      requires Valid()
      modifies this`pc, this`sp, this`env
      ensures Valid() && env == Sync(old(env)) && (ok <==> ExecReturn(old(Machine())).Some?)
      ensures Machine() == if ok then ExecReturn(old(Machine())).value else old(Machine())
    {
      hide LitIn, Sync;
      SyncTimers();
      ok := sp > 0;
      if ok {
        sp := sp - 1;
        pc := stack[sp];
        assert stack[..sp] == old(stack[..sp])[..sp];
      }
    }

    method Call(target: address) returns (ok: bool)
      requires Valid()
      modifies this`pc, this`sp, this`env, stack
      ensures Valid() && env == Sync(old(env)) && (ok <==> ExecCall(old(Machine()), target).Some?)
      ensures Machine() == if ok then ExecCall(old(Machine()), target).value else old(Machine())
    {
      hide LitIn, Sync;
      SyncTimers();
      ok := sp < STACK_SIZE;
      if ok {
        stack[sp] := (pc + 2) % 0x10000;
        sp := sp + 1;
        pc := target;
        assert stack[..sp] == old(stack[..sp]) + [stack[sp - 1]];
        assert screen.pixels[..] == old(screen.pixels[..]) && memory[..] == old(memory[..]) && regs[..] == old(regs[..]);
      }
    }

    // ------------------------------------------------------------ dispatch

    /** The Fxkk group. */
    method Misc(cfg: Config, op: word) returns (ok: bool)
      requires Valid() && Top(op) == 0xF
      modifies this`pc, this`env, this`addr, regs, memory
      ensures Valid()
      ensures Matches(ok, State(), Effect(cfg, op, old(State())))
    {
      hide Valid, Machine, SkipIf, Matches, Effect, Sync, WaitStep, Store, Load, SetReg, Top, X, KK;
      var x := X(op);
      ghost var was, e := Machine(), env;
      MiscEffect(cfg, op, was, e);
      ValidArrays();
      ok := true;
      match KK(op) {
        case 0x07 => SyncTimers(); SetRegister(x, env.delay); Step2();
        case 0x0A => LoadOnKey(cfg, x);
        case 0x15 => SyncTimers(); SetDelay(regs[x]); Step2();
        case 0x18 => SyncTimers(); SetSound(regs[x]); Step2();
        case 0x1E => SetAddr((addr + regs[x]) % 0x10000); Step2();
        case 0x29 => SetAddr(regs[x] % 0x10 * 5); Step2();
        case 0x33 => StoreBcd(x);
        case 0x55 => SaveRegisters(x);
        case 0x65 => RestoreRegisters(x);
        case _ => ok := false;
      }
      MatchesIs(ok, State(), Effect(cfg, op, Vm(was, e)));
    }

    /** 00E0, 00EE, 0nnn and 1nnn. */
    method System(cfg: Config, op: word) returns (ok: bool)
      requires Valid() && Top(op) <= 1
      modifies this`pc, this`sp, this`env, screen.pixels
      ensures Valid()
      ensures Matches(ok, State(), Effect(cfg, op, old(State())))
    {
      hide Valid, Machine, SkipIf, Matches, Effect, Sync, Top, NNN, ExecReturn;
      ghost var was, e := Machine(), env;
      SystemEffect(cfg, op, was, e);
      ok := true;
      if op == 0x00E0 {
        ClearScreen();
        Step2();
      } else if op == 0x00EE {
        ok := Return();
      } else {
        Jump(NNN(op));
      }
      MatchesIs(ok, State(), Effect(cfg, op, Vm(was, e)));
    }

    method ClearScreen()
      requires Valid()
      modifies screen.pixels
      ensures Valid() && env == old(env) && Machine() == old(Machine()).(lit := {})
    {
      hide LitIn;
      screen.Clear();
      assert regs[..] == old(regs[..]) && memory[..] == old(memory[..]) && stack[..] == old(stack[..]);
    }

    /** The conditional skips on registers and bytes. */
    method SkipOn(cfg: Config, op: word)
      requires Valid() && Top(op) in {3, 4, 5, 9}
      modifies this`pc
      ensures Valid()
      ensures Matches(true, State(), Effect(cfg, op, old(State())))
    {
      hide Valid, Machine, SkipIf, Matches, Effect, Sync, Top, X, Y, KK;
      ghost var was, e := Machine(), env;
      SkipEffect(cfg, op, was, e);
      ValidArrays();
      match Top(op) {
        case 0x3 => Skip(regs[X(op)] == KK(op));
        case 0x4 => Skip(regs[X(op)] != KK(op));
        case 0x5 => Skip(regs[X(op)] == regs[Y(op)]);
        case 0x9 => Skip(regs[X(op)] != regs[Y(op)]);
      }
      MatchesIs(true, State(), Effect(cfg, op, Vm(was, e)));
    }

    /** 6xkk, 7xkk, Annn and Bnnn. */
    method Immediate(cfg: Config, op: word)
      requires Valid() && Top(op) in {6, 7, 0xA, 0xB}
      modifies this`pc, this`addr, regs
      ensures Valid()
      ensures Matches(true, State(), Effect(cfg, op, old(State())))
    {
      hide Valid, Machine, SkipIf, Matches, Effect, SetReg, Top, X, KK, NNN;
      ghost var was, e := Machine(), env;
      ImmediateEffect(cfg, op, was, e);
      ValidArrays();
      var x := X(op);
      match Top(op) {
        case 0x6 => SetRegister(x, KK(op)); Step2();
        case 0x7 => AddImmediate(x, KK(op)); Step2();
        case 0xA => SetAddr(NNN(op)); Step2();
        case 0xB => Branch(NNN(op) + regs[0]);
      }
      MatchesIs(true, State(), Effect(cfg, op, Vm(was, e)));
    }

    method AddImmediate(x: nibble, kk: byte)
      requires Valid()
      modifies regs
      ensures Valid() && env == old(env)
      ensures Machine() == SetReg(old(Machine()), x, old(Machine()).regs[x] + kk)
    {
      hide LitIn;
      var sum: int := regs[x] + kk;
      SetRegister(x, sum % 0x100);
    }

    method Branch(target: word)
      requires Valid()
      modifies this`pc
      ensures Valid() && env == old(env) && Machine() == old(Machine()).(pc := target)
    {
      pc := target;
    }

    /** Cxkk: one draw from the shared stream. */
    method RandomByte(cfg: Config, op: word)
      requires Valid() && Top(op) == 0xC
      modifies this`pc, this`env, regs
      ensures Valid()
      ensures Matches(true, State(), Effect(cfg, op, old(State())))
    {
      hide Valid, Machine, SkipIf, Matches, Effect, SetReg, Top, X, KK, Bits;
      ghost var was, e := Machine(), env;
      RandomEffect(cfg, op, was, e);
      var draw := NextRandom(cfg);
      SetRegister(X(op), Bits8(AND, draw, KK(op)));
      Step2();
      MatchesIs(true, State(), Effect(cfg, op, Vm(was, e)));
    }

    method NextRandom(cfg: Config) returns (draw: byte)
      requires Valid()
      modifies this`env
      ensures Valid() && Machine() == old(Machine())
      ensures env == old(env).(rng := old(env).rng + 1) && draw == cfg.rand(old(env).rng)
    {
      draw := cfg.rand(env.rng);
      env := env.(rng := env.rng + 1);
    }

    /** Ex9E and ExA1; the rest of the group is an error. */
    method KeyGroup(cfg: Config, op: word) returns (ok: bool)
      requires Valid() && Top(op) == 0xE
      modifies this`pc, this`env
      ensures Valid()
      ensures Matches(ok, State(), Effect(cfg, op, old(State())))
    {
      hide Valid, Machine, SkipIf, Matches, Effect, Top, X, KK, KeyStep, KeyOf;
      ghost var was, e := Machine(), env;
      KeyEffect(cfg, op, was, e);
      ValidArrays();
      ok := KK(op) == 0x9E || KK(op) == 0xA1;
      if ok {
        SkipKeyX(cfg, KK(op) == 0xA1, KeyOf(regs[X(op)]));
      }
      MatchesIs(ok, State(), Effect(cfg, op, Vm(was, e)));
    }

    /** 2nnn, 8xyn and Dxyn. */
    method CallArithDraw(cfg: Config, op: word) returns (ok: bool)
      requires Valid() && Top(op) in {2, 8, 0xD}
      modifies this`pc, this`sp, this`env, regs, stack, screen.pixels
      ensures Valid()
      ensures Matches(ok, State(), Effect(cfg, op, old(State())))
    {
      hide Valid, Machine, SkipIf, Matches, Effect, Sync, Top, NNN, ExecCall, ExecArith, ExecDraw;
      ghost var was, e := Machine(), env;
      WorkEffect(cfg, op, was, e);
      ok := true;
      match Top(op) {
        case 0x2 => ok := Call(NNN(op));
        case 0x8 => ok := Arithmetic(op);
        case 0xD => DrawSprite(op);
      }
      MatchesIs(ok, State(), Effect(cfg, op, Vm(was, e)));
    }

    /** basic_block: fetch, decode, execute. */
    method BasicBlock(cfg: Config) returns (ok: bool)
      requires Valid()
      modifies this, regs, memory, stack, screen.pixels
      ensures Valid()
      ensures Matches(ok, State(), Interp.BasicBlock(cfg, old(State())))
    {
      hide Valid, Machine, Matches, Effect, Top, OpAt, Wrap;
      ghost var was := State();
      ValidArrays();
      var high: int, low: int := memory[Wrap(pc)], memory[Wrap(pc + 1)];
      var op: word := high * 0x100 + low;
      EffectIs(cfg, was);
      Fetched(memory[..], pc, high, low);
      ok := true;
      match Top(op) {
        case 0x0 | 0x1 => ok := System(cfg, op);
        case 0x2 | 0x8 | 0xD => ok := CallArithDraw(cfg, op);
        case 0x3 | 0x4 | 0x5 | 0x9 => SkipOn(cfg, op);
        case 0x6 | 0x7 | 0xA | 0xB => Immediate(cfg, op);
        case 0xC => RandomByte(cfg, op);
        case 0xE => ok := KeyGroup(cfg, op);
        case 0xF => ok := Misc(cfg, op);
      }
    }

    method CountInstruction()
      requires Valid()
      modifies this`env
      ensures Valid() && State() == Vm(old(Machine()), Retire(Roll(old(env)), 1))
    {
      RollTick();
      env := env.(retired := env.retired + 1);
    }

    /** One pass of the main loop. */
    method OnePass(cfg: Config) returns (ok: bool)
      requires Valid()
      modifies this, regs, memory, stack, screen.pixels
      ensures Valid()
      ensures Matches(ok, State(), Pass(cfg, old(State())))
    {
      hide Valid, Machine, Matches, Interp.BasicBlock, Roll;
      PassIs(cfg, State());
      CountInstruction();
      ok := BasicBlock(cfg);
    }

    /** The main loop in BENCH mode, from reset to the report. */
    method RunRom(cfg: Config, ghost rom: Memory) returns (ok: bool, n: nat)
      requires Valid() && State() == Boot(rom)
      modifies this, regs, memory, stack, screen.pixels
      ensures Valid() && n > 0 && StopsAfter(cfg, Boot(rom), n)
      ensures Matches(ok, State(), Run(cfg, Boot(rom), n))
    {
      hide Valid, Machine, Done, StopsAfter, NotBefore, Pass;
      n := 0;
      ok := true;
      NothingBefore(cfg, rom);
      while ok && (n == 0 || !Done(cfg, env))
        invariant Valid() && Matches(ok, State(), Run(cfg, Boot(rom), n))
        invariant ok ==> env.retired == n
        invariant NotBefore(cfg, rom, n)
        decreases ok, cfg.budget - env.retired
      {
        ghost var was := State();
        NotDone(cfg, was.env);
        MorePasses(cfg, rom, n, was);
        ok := OnePass(cfg);
        n := n + 1;
      }
      StopsHere(cfg, rom, n, State(), ok);
    }

    method SetDelay(v: byte)
      requires Valid()
      modifies this`env
      ensures Valid() && Machine() == old(Machine()) && env == old(env).(delay := v)
    {
      env := env.(delay := v);
    }

    method SetSound(v: byte)
      requires Valid()
      modifies this`env
      ensures Valid() && Machine() == old(Machine()) && env == old(env).(sound := v)
    {
      env := env.(sound := v);
    }

    method SetAddr(v: word)
      requires Valid()
      modifies this`addr
      ensures Valid() && Machine() == old(Machine()).(i := v) && env == old(env)
    {
      addr := v;
    }
  }

  // --------------------------------------------------- the reference effect

  /** What executing `op` in `s` does. */
  function Effect(cfg: Config, op: word, s: Vm): Outcome
  {
    var (inp, env) := EnvStep(cfg, op, s.core, s.env);
    match ExecCore(op, s.core, inp)
    case Some(core) => Ok(Vm(core, env))
    case None => Err(Vm(s.core, env))
  }

  lemma {:induction false} EffectIs(cfg: Config, s: Vm)
    ensures Interp.BasicBlock(cfg, s) == Effect(cfg, OpAt(s.core.mem, s.core.pc), s)
  {
    hide OpAt, EnvStep, ExecCore;
  }

  lemma {:induction false} Fetched(mem: Memory, pc: word, high: byte, low: byte)
    requires high == mem[Wrap(pc)] && low == mem[Wrap(pc + 1)]
    ensures OpAt(mem, pc) == (high as int) * 0x100 + low as int
  {}

  lemma {:induction false} SystemEffect(cfg: Config, op: word, c: Core, e: Env)
    requires Top(op) <= 1
    ensures op == 0x00E0 ==> Effect(cfg, op, Vm(c, e)) == Ok(Vm(SkipIf(c.(lit := {}), false), e))
    ensures op == 0x00EE ==> (Effect(cfg, op, Vm(c, e)) ==
      match ExecReturn(c) case Some(d) => Ok(Vm(d, Sync(e))) case None => Err(Vm(c, Sync(e))))
    ensures op != 0x00E0 && op != 0x00EE ==> Effect(cfg, op, Vm(c, e)) == Ok(Vm(c.(pc := NNN(op)), Sync(e)))
  {
    SystemTop();
    hide Top, X, KK, Y, N, NNN, SkipIf, Sync, WaitStep, KeyStep, ExecReturn;
  }

  lemma SystemTop()
    ensures Top(0x00E0) == 0 && Top(0x00EE) == 0
  {}

  lemma {:induction false} SkipEffect(cfg: Config, op: word, c: Core, e: Env)
    requires Top(op) in {3, 4, 5, 9}
    ensures
      var vx, vy := c.regs[X(op)], c.regs[Y(op)];
      Effect(cfg, op, Vm(c, e)) == Ok(Vm(SkipIf(c,
        if Top(op) == 3 then vx == KK(op) else if Top(op) == 4 then vx != KK(op) else if Top(op) == 5 then vx == vy else vx != vy), e))
  {
    NotSystem(op);
    QuietEnv(cfg, op, c, e);
    hide Top, X, KK, Y, N, NNN, SkipIf, EnvStep, ExecStraight;
  }

  lemma {:induction false} ImmediateEffect(cfg: Config, op: word, c: Core, e: Env)
    requires Top(op) in {6, 7, 0xA, 0xB}
    ensures Top(op) == 6 ==> Effect(cfg, op, Vm(c, e)) == Ok(Vm(SkipIf(SetReg(c, X(op), KK(op)), false), e))
    ensures Top(op) == 7 ==> Effect(cfg, op, Vm(c, e)) == Ok(Vm(SkipIf(SetReg(c, X(op), c.regs[X(op)] + KK(op)), false), e))
    ensures Top(op) == 0xA ==> Effect(cfg, op, Vm(c, e)) == Ok(Vm(SkipIf(c.(i := NNN(op)), false), e))
    ensures Top(op) == 0xB ==> Effect(cfg, op, Vm(c, e)) == Ok(Vm(c.(pc := NNN(op) + c.regs[0]), e))
  {
    NotSystem(op);
    QuietEnv(cfg, op, c, e);
    hide Top, X, KK, Y, N, NNN, SkipIf, EnvStep, SetReg, ExecArith, ExecDraw, ExecMisc;
  }

  lemma {:induction false} RandomEffect(cfg: Config, op: word, c: Core, e: Env)
    requires Top(op) == 0xC
    ensures Effect(cfg, op, Vm(c, e)) ==
      Ok(Vm(SkipIf(SetReg(c, X(op), Bits8(AND, cfg.rand(e.rng), KK(op))), false), e.(rng := e.rng + 1)))
  {
    NotSystem(op);
    RandomRef(cfg, op, c, e);
    hide Top, X, KK, Y, N, NNN, SkipIf, EnvStep, SetReg, ExecStraight, Bits;
  }

  lemma {:induction false} KeyEffect(cfg: Config, op: word, c: Core, e: Env)
    requires Top(op) == 0xE
    ensures
      if KK(op) == 0x9E || KK(op) == 0xA1 then
        var (inp, r) := KeyStep(cfg, KK(op) == 0xA1, KeyOf(c.regs[X(op)]), e);
        Effect(cfg, op, Vm(c, e)) == Ok(Vm(SkipIf(c, inp.hit), r))
      else Effect(cfg, op, Vm(c, e)) == Err(Vm(c, e))
  {
    NotSystem(op);
    hide Top, X, KK, Y, N, NNN, SkipIf, KeyStep, KeyOf, WaitStep, Sync, ExecStraight;
  }

  lemma {:induction false} WorkEffect(cfg: Config, op: word, c: Core, e: Env)
    requires Top(op) in {2, 8, 0xD}
    ensures Top(op) == 2 ==> (Effect(cfg, op, Vm(c, e)) ==
      match ExecCall(c, NNN(op)) case Some(d) => Ok(Vm(d, Sync(e))) case None => Err(Vm(c, Sync(e))))
    ensures Top(op) == 8 ==> (Effect(cfg, op, Vm(c, e)) ==
      match ExecArith(op, c) case Some(d) => Ok(Vm(SkipIf(d, false), e)) case None => Err(Vm(c, e)))
    ensures Top(op) == 0xD ==> Effect(cfg, op, Vm(c, e)) == Ok(Vm(SkipIf(ExecDraw(op, c), false), Sync(e)))
  {
    NotSystem(op);
    hide Top, X, KK, Y, N, NNN, SkipIf, KeyStep, WaitStep, Sync, ExecCall, ExecArith, ExecDraw, ExecMisc;
  }

  lemma {:induction false} PassIs(cfg: Config, s: Vm)
    ensures Pass(cfg, s) == Interp.BasicBlock(cfg, Vm(s.core, Retire(Roll(s.env), 1)))
  {}

  lemma {:induction false} NotDone(cfg: Config, e: Env)
    ensures !Done(cfg, e) ==> e.retired < cfg.budget
  {}

  /** No earlier pass ended the run. */
  ghost predicate NotBefore(cfg: Config, rom: Memory, n: nat)
  {
    forall i :: 0 < i < n ==> Run(cfg, Boot(rom), i).Ok? && !Done(cfg, Run(cfg, Boot(rom), i).vm.env)
  }

  lemma {:induction false} NothingBefore(cfg: Config, rom: Memory)
    ensures NotBefore(cfg, rom, 0)
  {}

  lemma {:induction false} MorePasses(cfg: Config, rom: Memory, n: nat, s: Vm)
    requires Run(cfg, Boot(rom), n) == Ok(s) && NotBefore(cfg, rom, n)
    requires n == 0 || !Done(cfg, s.env)
    ensures NotBefore(cfg, rom, n + 1)
    ensures Run(cfg, Boot(rom), n + 1) == Pass(cfg, s)
    ensures Pass(cfg, s).vm.env.retired == s.env.retired + 1
  {
    PassClock(cfg, s);
    hide Done, Pass, Boot;
  }

  lemma {:induction false} StopsHere(cfg: Config, rom: Memory, n: nat, s: Vm, ok: bool)
    requires Matches(ok, s, Run(cfg, Boot(rom), n)) && NotBefore(cfg, rom, n)
    requires ok ==> n > 0 && Done(cfg, s.env)
    ensures StopsAfter(cfg, Boot(rom), n)
  {
    hide Done, Run, Boot;
  }

  /** The engine succeeded just when the reference does, in the same state. */
  predicate Matches(ok: bool, s: Vm, out: Outcome)
  {
    (ok <==> out.Ok?) && s == out.vm
  }

  lemma {:induction false} MatchesIs(ok: bool, s: Vm, out: Outcome)
    ensures Matches(ok, s, out) <==> out == if ok then Ok(s) else Err(s)
  {}

  lemma {:induction false} MiscEffect(cfg: Config, op: word, c: Core, e: Env)
    requires Top(op) == 0xF
    ensures
      var x := X(op);
      var vx: int := c.regs[x];
      Effect(cfg, op, Vm(c, e)) ==
      match KK(op)
      case 0x07 => Ok(Vm(SkipIf(SetReg(c, x, Sync(e).delay), false), Sync(e)))
      case 0x0A => (var (inp, r) := WaitStep(cfg, e);
                    Ok(Vm(SkipIf(if inp.key.Some? then SetReg(c, x, inp.key.value) else c, false), r)))
      case 0x15 => Ok(Vm(SkipIf(c, false), Sync(e).(delay := vx)))
      case 0x18 => Ok(Vm(SkipIf(c, false), Sync(e).(sound := vx)))
      case 0x1E => Ok(Vm(SkipIf(c.(i := (c.i + vx) % 0x10000), false), e))
      case 0x29 => Ok(Vm(SkipIf(c.(i := vx % 0x10 * 5), false), e))
      case 0x33 => Ok(Vm(SkipIf(c.(mem := Store(c.mem, c.i, Digits(vx))), false), e))
      case 0x55 => Ok(Vm(SkipIf(c.(mem := Store(c.mem, c.i, c.regs[..x + 1])), false), e))
      case 0x65 => Ok(Vm(SkipIf(c.(regs := Load(c.mem, c.i, x + 1) + c.regs[x + 1..]), false), e))
      case _ => Err(Vm(c, e))
  {
    hide Top, X, KK, N, ExecCore, SkipIf, SetReg, Sync, WaitStep, KeyStep, Store, Load;
    MiscEnv(cfg, op, c, e);
    MiscCoreRef(op, c, EnvStep(cfg, op, c, e).0);
  }

  lemma {:induction false} MiscEnv(cfg: Config, op: word, c: Core, e: Env)
    requires Top(op) == 0xF
    ensures EnvStep(cfg, op, c, e) ==
      match KK(op)
      case 0x07 => (NO_INPUT.(delay := Sync(e).delay), Sync(e))
      case 0x0A => WaitStep(cfg, e)
      case 0x15 => (NO_INPUT, Sync(e).(delay := c.regs[X(op)]))
      case 0x18 => (NO_INPUT, Sync(e).(sound := c.regs[X(op)]))
      case _ => (NO_INPUT, e)
  {
    NotSystem(op);
    hide Top, X, KK, N, Sync, WaitStep, KeyStep;
  }

  lemma {:induction false} StoreNone(was: Memory, a: int)
    ensures Store(was, a, []) == was
  {}

  lemma {:induction false} StoreThree(was: Memory, a: int, u: byte, v: byte, w: byte)
    ensures Store(was, a, [u, v, w]) == was[Wrap(a + 0) := u][Wrap(a + 1) := v][Wrap(a + 2) := w]
  {
    hide Store;
    StoreNone(was, a);
    StoreMore(was, a, [], u);
    StoreMore(was, a, [u], v);
    StoreMore(was, a, [u, v], w);
    assert [] + [u] == [u] && [u] + [v] == [u, v] && [u, v] + [w] == [u, v, w];
  }

  lemma DigitsAre(v: byte, hundreds: byte, tens: byte, ones: byte)
    requires hundreds == v / 100 && tens == v % 100 / 10 && ones == v % 100 % 10
    ensures Digits(v) == [hundreds, tens, ones]
  {}

  lemma {:induction false} StoreDigits(was: Memory, a: int, v: byte, hundreds: byte, tens: byte, ones: byte)
    requires hundreds == v / 100 && tens == v % 100 / 10 && ones == v % 100 % 10
    ensures Store(was, a, Digits(v)) == was[Wrap(a + 0) := hundreds][Wrap(a + 1) := tens][Wrap(a + 2) := ones]
  {
    hide Store, Wrap, Digits;
    DigitsAre(v, hundreds, tens, ones);
    StoreThree(was, a, hundreds, tens, ones);
  }

  lemma {:induction false} LoadNone(c: Core)
    ensures c == c.(regs := Load(c.mem, c.i, 0) + c.regs[0..])
  {}

  lemma {:induction false} LoadMore(c: Core, k: nibble)
    ensures
      var before: Regs := Load(c.mem, c.i, k) + c.regs[k..];
      before[k := c.mem[Wrap(c.i + k)]] == Load(c.mem, c.i, k + 1) + c.regs[k + 1..]
  {}

  lemma {:induction false} StoreMore(was: seq<byte>, a: int, vs: seq<byte>, v: byte)
    requires |was| == 0x1000 && |vs| < 0x1000
    ensures Store(was, a, vs + [v]) == Store(was, a, vs)[Wrap(a + |vs|) := v]
  {}

  /** Polling leaves the tick rolled, so clearing keys starts from there. */
  lemma {:induction false} RolledAgain(cfg: Config, e: Env)
    ensures ClearKeys(Bench.PollKeys(cfg, e).1, {}) == Bench.PollKeys(cfg, e).1
    decreases cfg.Cap() - e.Now()
  {
    var p := PollOnce(e);
    if !Done(cfg, p) && Keys(cfg, p) == {} { RolledAgain(cfg, p); }
  }

  function Below(k: nat): set<int>
  {
    if k == 0 then {} else Below(k - 1) + {k - 1}
  }

  lemma {:induction false} InBelow(k: nat, i: int)
    ensures i in Below(k) <==> 0 <= i < k
  {
    if k > 0 { InBelow(k - 1, i); }
  }

  lemma {:induction false} BelowAll()
    ensures Below(16) == ALL_KEYS
  {
    forall i: int ensures i in Below(16) <==> 0 <= i < 16 { InBelow(16, i); }
  }

  lemma {:induction false} ClearOneMore(e: Env, k: nat)
    ensures ClearKeys(ClearKeys(e, Below(k)), {k}) == ClearKeys(e, Below(k + 1))
  {}
}
