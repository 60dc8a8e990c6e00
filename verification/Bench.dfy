/** The deterministic environment of a BENCH run: the virtual clock, the 60 Hz
    timers caught up lazily from it, the synthetic keyboard and the shared
    random stream. */
module Bench {
  import opened Chip8

  const INSTR_PER_TICK: int := 2000
  const SAFEPOINT_INTERVAL: int := 64
  const CLOCK_CAP_FACTOR: int := 64

  /** The flags of a run. `rand(k)` is the low byte of the k-th draw from the
      seeded generator. */
  datatype Config = Config(rotate: bool, rand: nat -> byte, budget: nat) {
    ghost predicate Valid() { budget > 0 }

    function Cap(): nat { budget * CLOCK_CAP_FACTOR }
  }

  datatype Env = Env(retired: nat, polled: nat,
                     lastTick: nat, delay: byte, sound: byte,
                     cleared: set<int>, clearedTick: int,
                     rng: nat)
  {
    function Now(): nat { retired + polled }

    function Tick(): nat { Now() / INSTR_PER_TICK }
  }

  const INITIAL: Env := Env(0, 0, 0, 0, 0, {}, -1, 0)

  // ------------------------------------------------------------------ timers

  function CountDown(timer: byte, elapsed: nat): byte
  {
    if timer > elapsed then timer - elapsed else 0
  }

  /** sync_timers: charge both timers for the ticks since the last sync. */
  function Sync(e: Env): Env
  {
    var elapsed := e.Tick() - e.lastTick;
    if elapsed > 0
    then e.(delay := CountDown(e.delay, elapsed), sound := CountDown(e.sound, elapsed), lastTick := e.Tick())
    else e
  }

  // ---------------------------------------------------------------- keyboard

  /** bench_roll_tick: a clear lasts for the tick in which it was made. */
  function Roll(e: Env): (r: Env)
    ensures r.retired == e.retired && r.polled == e.polled
  {
    if e.Tick() != e.clearedTick then e.(clearedTick := e.Tick(), cleared := {}) else e
  }

  /** The keys held down during tick `t` before any clear. */
  function Held(cfg: Config, t: nat): set<int>
  {
    if !cfg.rotate || t % 4 >= 2 then {} else {t / 4 % 16}
  }

  /** bench_keys_now, on an environment whose tick has been rolled. */
  function Keys(cfg: Config, e: Env): set<int>
  {
    Held(cfg, e.Tick()) - e.cleared
  }

  function ClearKeys(e: Env, ks: set<int>): Env
  {
    var r := Roll(e);
    r.(cleared := r.cleared + ks)
  }

  // --------------------------------------------------------------- stopping

  predicate Done(cfg: Config, e: Env)
  {
    e.retired >= cfg.budget || e.Now() >= cfg.Cap()
  }

  function Retire(e: Env, n: nat): Env { e.(retired := e.retired + n) }

  function PollOnce(e: Env): (r: Env)
    ensures r.retired == e.retired && r.polled == e.polled + 1
  {
    Roll(e.(polled := e.polled + 1))
  }

  /** The Fx0A spin: each poll is charged to the clock; it ends when a key is
      seen or the run is over. */
  function PollKeys(cfg: Config, e: Env): (r: (set<int>, Env))
    ensures r.1.retired == e.retired && r.1.polled > e.polled
    decreases cfg.Cap() - e.Now()
  {
    var polled := PollOnce(e);
    if Done(cfg, polled) || Keys(cfg, polled) != {}
    then (Keys(cfg, polled), polled)
    else PollKeys(cfg, polled)
  }

  /** The key Fx0A stores: the highest of the sixteen that is down. */
  function Highest(keys: set<int>, below: nat): (r: Option<byte>)
    requires below <= 16
    ensures r.Some? ==> r.value in keys && r.value < below && forall k :: r.value < k < below ==> k !in keys
    ensures r.None? ==> forall k :: 0 <= k < below ==> k !in keys
  {
    if below == 0 then None
    else if below - 1 in keys then Some(below - 1)
    else Highest(keys, below - 1)
  }

  const ALL_KEYS: set<int> := set k | 0 <= k < 16

  // ------------------------------------------------------------ instructions

  const NO_INPUT: Input := Input(0, false, None, 0)

  /** The key bit `1 << Vx` selects: the low five bits of the register. */
  function KeyOf(v: byte): int { v % 32 }

  function KeyStep(cfg: Config, up: bool, key: int, e: Env): (Input, Env)
  {
    var r := Roll(e);
    var hit := (key in Keys(cfg, r)) != up;
    (NO_INPUT.(hit := hit), if hit then ClearKeys(r, {key}) else r)
  }

  function WaitStep(cfg: Config, e: Env): (Input, Env)
  {
    var (keys, r) := PollKeys(cfg, e);
    (NO_INPUT.(key := Highest(keys, 16)), ClearKeys(r, ALL_KEYS))
  }

  /** What opcode `op` reads from the environment and how it changes it, with
      the timer syncs the interpreter performs. */
  function EnvStep(cfg: Config, op: word, c: Core, e: Env): (Input, Env)
  {
    var vx := c.regs[X(op)];
    if op == 0x00E0 then (NO_INPUT, e)
    else if op == 0x00EE then (NO_INPUT, Sync(e))
    else match Top(op)
      case 0x0 => (NO_INPUT, Sync(e))
      case 0x1 => (NO_INPUT, Sync(e))
      case 0x2 => (NO_INPUT, Sync(e))
      case 0xC => (NO_INPUT.(rnd := cfg.rand(e.rng)), e.(rng := e.rng + 1))
      case 0xD => (NO_INPUT, Sync(e))
      case 0xE =>
        if KK(op) == 0x9E then KeyStep(cfg, false, KeyOf(vx), e)
        else if KK(op) == 0xA1 then KeyStep(cfg, true, KeyOf(vx), e)
        else (NO_INPUT, e)
      case 0xF => (
        match KK(op)
        case 0x07 => (NO_INPUT.(delay := Sync(e).delay), Sync(e))
        case 0x0A => WaitStep(cfg, e)
        case 0x15 => (NO_INPUT, Sync(e).(delay := vx))
        case 0x18 => (NO_INPUT, Sync(e).(sound := vx))
        case _ => (NO_INPUT, e))
      case _ => (NO_INPUT, e)
  }

  // ------------------------------------------- observable equality of clocks

  /** Timers and clears never run ahead of the clock. */
  ghost predicate Sane(e: Env)
  {
    e.lastTick <= e.Tick() && e.clearedTick <= e.Tick()
  }

  /** The environment with everything lazy brought up to the current clock. */
  function Norm(e: Env): Env
  {
    Roll(Sync(e))
  }

  /** Indistinguishable from now on, however often either side has synced its
      timers or polled its keys. */
  ghost predicate Alike(a: Env, b: Env)
  {
    Sane(a) && Sane(b) && Norm(a) == Norm(b)
  }

  lemma {:induction false} AlikeSym(a: Env, b: Env)
    requires Alike(a, b)
    ensures Alike(b, a)
  {}

  lemma {:induction false} AlikeTrans(a: Env, b: Env, c: Env)
    requires Alike(a, b) && Alike(b, c)
    ensures Alike(a, c)
  {}

  lemma {:induction false} SyncAlike(a: Env, b: Env)
    requires Alike(a, b)
    ensures Alike(Sync(a), b) && Alike(Sync(a), Sync(b))
    ensures Sync(a).delay == Sync(b).delay && Sync(a).sound == Sync(b).sound
  {}

  lemma {:induction false} RollAlike(a: Env, b: Env)
    requires Alike(a, b)
    ensures Alike(Roll(a), b) && Alike(Roll(a), Roll(b))
    ensures Roll(a).cleared == Roll(b).cleared
    ensures a.retired == b.retired && a.polled == b.polled
  {}

  /** Syncing at t1 and again at t2 is syncing at t2; a clear outlives only
      its own tick. */
  lemma {:induction false} CatchUp(e: Env, later: Env)
    requires Sane(e)
    requires later == e.(retired := later.retired, polled := later.polled)
    requires later.Tick() >= e.Tick()
    ensures Sane(later)
    ensures Norm(later) == Norm(Norm(e).(retired := later.retired, polled := later.polled))
  {
    var n := Norm(e).(retired := later.retired, polled := later.polled);
    assert n.Tick() == later.Tick();
    assert n.lastTick == n.clearedTick == e.Tick();
    assert n.delay == CountDown(e.delay, e.Tick() - e.lastTick);
    assert n.sound == CountDown(e.sound, e.Tick() - e.lastTick);
  }

  /** The clock may advance under two alike environments. */
  lemma {:induction false} AdvanceAlike(a: Env, b: Env, n: nat, m: nat)
    requires Alike(a, b)
    ensures Alike(a.(retired := a.retired + n, polled := a.polled + m),
                  b.(retired := b.retired + n, polled := b.polled + m))
  {
    hide Norm, Sane;
    NormCounts(a);
    NormCounts(b);
    LaterTick(a, n, m);
    LaterTick(b, n, m);
    CatchUp(a, a.(retired := a.retired + n, polled := a.polled + m));
    CatchUp(b, b.(retired := b.retired + n, polled := b.polled + m));
  }

  lemma NormCounts(e: Env)
    ensures Norm(e).retired == e.retired && Norm(e).polled == e.polled
  {}

  lemma LaterTick(e: Env, n: nat, m: nat)
    ensures e.(retired := e.retired + n, polled := e.polled + m).Tick() >= e.Tick()
  {}

  /** Two budgets under which an instruction retiring as number `retired` polls
      alike: the same one, or two that are both spent already, or two of which
      neither is while the clock `now` stays short of both caps. */
  ghost predicate SameRun(a: Config, b: Config, retired: nat, now: nat)
  {
    a == b || (a.(budget := b.budget) == b && (
      || (retired >= a.budget && retired >= b.budget)
      || (retired < a.budget && retired < b.budget && now < a.Cap() && now < b.Cap())))
  }

  lemma {:induction false} PollOnceAlike(ca: Config, cb: Config, a: Env, b: Env)
    requires Alike(a, b)
    requires ca.rotate == cb.rotate
    ensures Alike(PollOnce(a), PollOnce(b))
    ensures Keys(ca, PollOnce(a)) == Keys(cb, PollOnce(b))
    ensures PollOnce(a).Now() == PollOnce(b).Now() && a.retired == b.retired
  {
    hide Alike, Roll;
    AdvanceAlike(a, b, 0, 1);
    var pa, pb := a.(polled := a.polled + 1), b.(polled := b.polled + 1);
    assert pa == a.(retired := a.retired + 0, polled := a.polled + 1);
    assert pb == b.(retired := b.retired + 0, polled := b.polled + 1);
    RollAlike(pa, pb);
  }

  lemma {:induction false} PollAlike(ca: Config, cb: Config, a: Env, b: Env)
    requires Alike(a, b)
    requires SameRun(ca, cb, a.retired, PollKeys(ca, a).1.Now())
    ensures PollKeys(ca, a).0 == PollKeys(cb, b).0
    ensures Alike(PollKeys(ca, a).1, PollKeys(cb, b).1)
    decreases ca.Cap() - a.Now()
  {
    hide Alike, PollOnce;
    PollOnceAlike(ca, cb, a, b);
    if !Done(ca, PollOnce(a)) && Keys(ca, PollOnce(a)) == {} {
      PollAlike(ca, cb, PollOnce(a), PollOnce(b));
    }
  }

  lemma {:induction false} ClearAlike(a: Env, b: Env, ks: set<int>)
    requires Alike(a, b)
    ensures Alike(ClearKeys(a, ks), ClearKeys(b, ks))
  {
    RollAlike(a, b);
    ClearRolled(Roll(a), Roll(b), Roll(a).cleared + ks);
    hide Alike, Roll;
  }

  lemma {:induction false} ClearRolled(a: Env, b: Env, ks: set<int>)
    requires Alike(a, b) && a == Roll(a) && b == Roll(b)
    ensures Alike(a.(cleared := ks), b.(cleared := ks))
  {}

  lemma {:induction false} KeyStepAlike(ca: Config, cb: Config, up: bool, key: int, a: Env, b: Env)
    requires Alike(a, b)
    requires ca.rotate == cb.rotate
    ensures KeyStep(ca, up, key, a).0 == KeyStep(cb, up, key, b).0
    ensures Alike(KeyStep(ca, up, key, a).1, KeyStep(cb, up, key, b).1)
  {
    hide Alike, Roll;
    RollAlike(a, b);
    ClearAlike(Roll(a), Roll(b), {key});
  }

  lemma {:induction false} WaitStepAlike(ca: Config, cb: Config, a: Env, b: Env)
    requires Alike(a, b)
    requires SameRun(ca, cb, a.retired, WaitStep(ca, a).1.Now())
    ensures WaitStep(ca, a).0 == WaitStep(cb, b).0
    ensures Alike(WaitStep(ca, a).1, WaitStep(cb, b).1)
  {
    PollAlike(ca, cb, a, b);
    ClearAlike(PollKeys(ca, a).1, PollKeys(cb, b).1, ALL_KEYS);
  }

  lemma {:induction false} SetAlike(a: Env, b: Env, v: byte)
    requires Alike(a, b) && a == Sync(a) && b == Sync(b)
    ensures Alike(a.(delay := v), b.(delay := v))
    ensures Alike(a.(sound := v), b.(sound := v))
  {}

  lemma {:induction false} RngAlike(a: Env, b: Env)
    requires Alike(a, b)
    ensures a.rng == b.rng
    ensures Alike(a.(rng := a.rng + 1), b.(rng := b.rng + 1))
  {
    hide Norm, Sane;
    NormRng(a, a.rng + 1);
    NormRng(b, b.rng + 1);
  }

  lemma NormRng(e: Env, r: nat)
    ensures Norm(e).rng == e.rng && Norm(e.(rng := r)) == Norm(e).(rng := r)
    ensures Sane(e.(rng := r)) <==> Sane(e)
  {}

  lemma {:induction false} TimerAlike(a: Env, b: Env, v: byte)
    requires Alike(a, b)
    ensures a.rng == b.rng && Sync(a).delay == Sync(b).delay
    ensures Alike(Sync(a), Sync(b))
    ensures Alike(Sync(a).(delay := v), Sync(b).(delay := v))
    ensures Alike(Sync(a).(sound := v), Sync(b).(sound := v))
    ensures Alike(a.(rng := a.rng + 1), b.(rng := b.rng + 1))
  {
    hide Alike;
    RngAlike(a, b);
    SyncAlike(a, b);
    SetAlike(Sync(a), Sync(b), v);
  }

  /** Only Fx0A consults the stop condition. */
  predicate Waits(op: word)
  {
    Top(op) == 0xF && KK(op) == 0x0A
  }

  /** No instruction can tell alike environments apart, and it leaves them
      alike. This is what frees an engine to choose when to service timers and
      keys. */
  lemma {:induction false} EnvStepAlike(ca: Config, cb: Config, op: word, c: Core, a: Env, b: Env)
    requires Alike(a, b)
    requires ca.(budget := cb.budget) == cb
    requires Waits(op) ==> SameRun(ca, cb, a.retired, EnvStep(ca, op, c, a).1.Now())
    ensures EnvStep(ca, op, c, a).0 == EnvStep(cb, op, c, b).0
    ensures Alike(EnvStep(ca, op, c, a).1, EnvStep(cb, op, c, b).1)
  {
    hide Alike, KeyStep, WaitStep, Sync;
    if op == 0x00E0 {
    } else if Waits(op) {
      WaitStepAlike(ca, cb, a, b);
    } else if Top(op) == 0xE {
      KeyStepAlike(ca, cb, false, KeyOf(c.regs[X(op)]), a, b);
      KeyStepAlike(ca, cb, true, KeyOf(c.regs[X(op)]), a, b);
    } else {
      TimerAlike(a, b, c.regs[X(op)]);
    }
  }
}
