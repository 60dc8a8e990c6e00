/** How often an engine catches up its timers or polls its keyboard makes no
    difference: extra calls can be inserted anywhere in a BENCH run. */
module Laziness {
  import opened Chip8
  import opened Bench
  import opened Interp

  /** What an engine does between two instructions, over and above the
      interpreter: catch up the timers, poll the keys, or both. */
  datatype Extra = Extra(sync: bool, roll: bool)

  function Busy(x: Extra, e: Env): Env
  {
    var synced := if x.sync then Sync(e) else e;
    if x.roll then Roll(synced) else synced
  }

  /** The main loop with extra calls before each pass. */
  function BusyRun(cfg: Config, s: Vm, extra: nat -> Extra, n: nat): Outcome
  {
    if n == 0 then Ok(s)
    else match BusyRun(cfg, s, extra, n - 1)
      case Ok(t) => Pass(cfg, Vm(t.core, Busy(extra(n), t.env)))
      case Err(t) => Err(t)
  }

  lemma {:induction false} BusyAlike(x: Extra, a: Env, b: Env)
    requires Alike(a, b)
    ensures Alike(Busy(x, a), b)
  {
    hide Alike, Sync, Roll;
    SyncAlike(a, b);
    RollAlike(a, b);
    RollAlike(Sync(a), b);
  }

  lemma {:induction false} PassAlike(cfg: Config, a: Vm, b: Vm)
    requires AlikeVm(a, b)
    ensures AlikeOutcome(Pass(cfg, a), Pass(cfg, b))
  {
    hide Alike, BasicBlock, Roll;
    RollAlike(a.env, b.env);
    RetireAlike(Roll(a.env), Roll(b.env), 1);
    BasicBlockAlike(cfg, cfg, Vm(a.core, Retire(Roll(a.env), 1)), Vm(b.core, Retire(Roll(b.env), 1)));
  }

  /** A run with any number of extra timer syncs and key polls executes the same
      instructions with the same results: every timer, key and random value read
      is the same, and so is the machine after every instruction. */
  lemma {:induction false} ExtraCalls(cfg: Config, mem: Memory, extra: nat -> Extra, n: nat)
    ensures AlikeOutcome(BusyRun(cfg, Boot(mem), extra, n), Run(cfg, Boot(mem), n))
  {
    if n > 0 {
      ExtraCalls(cfg, mem, extra, n - 1);
      var a, b := BusyRun(cfg, Boot(mem), extra, n - 1), Run(cfg, Boot(mem), n - 1);
      if a.Ok? {
        BusyAlike(extra(n), a.vm.env, b.vm.env);
        PassAlike(cfg, Vm(a.vm.core, Busy(extra(n), a.vm.env)), b.vm);
      }
      hide Alike, Pass, Busy;
    }
  }

  /** The keys visible now are those held in the current tick, less the ones
      cleared during that same tick, whenever the last poll was. */
  lemma {:induction false} VisibleKeys(cfg: Config, e: Env, k: int)
    ensures k in Keys(cfg, Roll(e)) <==>
      k in Held(cfg, e.Tick()) && !(e.clearedTick == e.Tick() && k in e.cleared)
    ensures Roll(Roll(e)) == Roll(e)
  {}

  // -------------------------------------------------------- the schedule

  /** Every key in turn is down for the first two ticks of its slot of four, and no
      other key ever is. */
  lemma {:induction false} KeySchedule(cfg: Config, t: nat, k: int)
    ensures k in Held(cfg, t) <==> cfg.rotate && 0 <= k < 16 && (t % 64 == 4 * k || t % 64 == 4 * k + 1)
  {
    var q, r := t / 4, t % 4;
    assert t == 4 * q + r && q == 16 * (q / 16) + q % 16;
    assert t == 64 * (q / 16) + (4 * (q % 16) + r);
    assert t % 64 == 4 * (q % 16) + r;
  }

  /** The first tick behind `t` in which a key goes down. */
  function NextPress(t: nat): (g: nat)
    ensures t < g <= t + 3 && g % 4 < 2
  {
    if t % 4 == 1 then t + 3 else if t % 4 == 2 then t + 2 else t + 1
  }

  /** Nothing that was cleared in tick `t` or before still is. */
  ghost predicate Unblocked(e: Env, t: nat)
  {
    e.clearedTick <= e.Tick() && (e.Tick() > t && e.clearedTick == e.Tick() ==> e.cleared == {})
  }

  lemma {:induction false} PollLater(cfg: Config, e: Env, t: nat)
    requires Unblocked(e, t) && t <= e.Tick()
    ensures Unblocked(PollOnce(e), t) && t <= PollOnce(e).Tick()
    ensures PollOnce(e).Tick() > t ==> Keys(cfg, PollOnce(e)) == Held(cfg, PollOnce(e).Tick())
  {}

  lemma {:induction false} WaitOn(cfg: Config, e: Env, t: nat)
    requires cfg.rotate && e.retired < cfg.budget && Unblocked(e, t) && t <= e.Tick()
    requires e.Now() < INSTR_PER_TICK * NextPress(t) < cfg.Cap()
    ensures PollKeys(cfg, e).0 != {} && PollKeys(cfg, e).1.Now() <= INSTR_PER_TICK * NextPress(t)
    decreases INSTR_PER_TICK * NextPress(t) - e.Now()
  {
    hide Roll, Keys, Held, PollOnce, Unblocked;
    var p := PollOnce(e);
    PollLater(cfg, e, t);
    if p.Now() == INSTR_PER_TICK * NextPress(t) {
      assert p.Tick() == NextPress(t);
      PressHeld(cfg, NextPress(t));
    } else if Keys(cfg, p) == {} {
      WaitOn(cfg, p, t);
    }
  }

  lemma PressHeld(cfg: Config, t: nat)
    requires cfg.rotate && t % 4 < 2
    ensures Held(cfg, t) != {}
  {
    assert t / 4 % 16 in Held(cfg, t);
  }

  /** A wait for a key ends with one as long as the run is not over before: at the
      latest at the start of the third tick to come, whatever was cleared. */
  lemma {:induction false} WaitEnds(cfg: Config, e: Env)
    requires cfg.rotate && Sane(e) && e.retired < cfg.budget && INSTR_PER_TICK * (e.Tick() + 3) < cfg.Cap()
    ensures PollKeys(cfg, e).0 != {} && PollKeys(cfg, e).1.Now() <= INSTR_PER_TICK * (e.Tick() + 3)
  {
    WaitOn(cfg, e, e.Tick());
    hide PollKeys;
  }

  // ------------------------------------------------------------ the timers

  /** The delay timer set to `v` reads, whenever it is next looked at, `v` less the
      ticks that have begun since, or zero; the sound timer goes on as it was. */
  lemma {:induction false} DelayReads(e: Env, v: byte, later: Env)
    requires Sane(e) && later == Sync(e).(delay := v, retired := later.retired, polled := later.polled) && later.Tick() >= e.Tick()
    ensures
      var gone := later.Tick() - e.Tick();
      && Sync(later).delay == (if v > gone then v - gone else 0)
      && Sync(later).sound == Sync(e.(retired := later.retired, polled := later.polled)).sound
  {
    SyncReads(e);
    SyncReads(later);
    SyncReads(e.(retired := later.retired, polled := later.polled));
    CountTwice(e.sound, e.Tick() - e.lastTick, later.Tick() - e.Tick());
    hide Sync, CountDown, Env.Tick;
  }

  /** And so does the sound timer. */
  lemma {:induction false} SoundReads(e: Env, v: byte, later: Env)
    requires Sane(e) && later == Sync(e).(sound := v, retired := later.retired, polled := later.polled) && later.Tick() >= e.Tick()
    ensures
      var gone := later.Tick() - e.Tick();
      && Sync(later).sound == (if v > gone then v - gone else 0)
      && Sync(later).delay == Sync(e.(retired := later.retired, polled := later.polled)).delay
  {
    SyncReads(e);
    SyncReads(later);
    SyncReads(e.(retired := later.retired, polled := later.polled));
    CountTwice(e.delay, e.Tick() - e.lastTick, later.Tick() - e.Tick());
    hide Sync, CountDown, Env.Tick;
  }

  lemma CountTwice(timer: byte, a: nat, b: nat)
    ensures CountDown(CountDown(timer, a), b) == CountDown(timer, a + b)
    ensures CountDown(timer, a) == if timer > a then timer - a else 0
  {}

  lemma SyncReads(e: Env)
    requires Sane(e)
    ensures Sync(e) == e.(delay := CountDown(e.delay, e.Tick() - e.lastTick), sound := CountDown(e.sound, e.Tick() - e.lastTick), lastTick := e.Tick())
  {}

  /** Ex9E and ExA1 look at the key whose number is the low five bits of Vx: it is down
      in its two ticks of the schedule unless it was cleared in this tick, and is
      cleared when the instruction skips. */
  lemma {:induction false} KeyTest(cfg: Config, up: bool, v: byte, e: Env)
    requires cfg.rotate
    ensures
      var k, t := v % 32, e.Tick();
      var down := k < 16 && (t % 64 == 4 * k || t % 64 == 4 * k + 1) && !(e.clearedTick == t && k in e.cleared);
      var (inp, f) := KeyStep(cfg, up, KeyOf(v), e);
      inp.hit == (down != up) && f == if inp.hit then Roll(e).(cleared := Roll(e).cleared + {k}) else Roll(e)
  {
    KeySchedule(cfg, e.Tick(), v % 32);
    VisibleKeys(cfg, e, v % 32);
    hide Held;
  }
}
