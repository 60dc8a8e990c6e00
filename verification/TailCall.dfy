/** The optimizer's tail-call rewrite, `CALL x; RET` to `JP x; RET`, on the
    machine: the rewritten program simulates the original with the frames that
    only lead to such a RET erased from its stack. */
module TailCall {
  import opened Chip8
  import opened Bench
  import opened Tape
  import Asm

  // -------------------------------------------------------------- rewriting

  /** Every site is a CALL with a RET behind it. */
  ghost predicate SitesOk(sites: set<int>, mem: Memory)
  {
    forall p :: p in sites ==> 0 <= p && p + 3 < 0x1000 && Top(OpAt(mem, p)) == 2 && OpAt(mem, p + 2) == 0x00EE
  }

  /** The first byte of 2nnn made that of 1nnn. */
  function Turned(b: byte): byte
  {
    var v: int := b;
    (v + 0xF0) % 0x100
  }

  /** 2nnn becomes 1nnn at every site. */
  function Patch(sites: set<int>, mem: Memory): (r: Memory)
    ensures forall b :: 0 <= b < 0x1000 ==> r[b] == if b in sites then Turned(mem[b]) else mem[b]
  {
    seq(0x1000, b requires 0 <= b < 0x1000 => if b in sites then Turned(mem[b]) else mem[b])
  }

  /** The rewrite of the source is the rewrite of the word: the same operand
      behind JP instead of CALL assembles to an opcode 0x1000 lower. */
  lemma {:induction false} RewrittenWord(operand: string, symbols: Asm.Symbols, resolve: bool)
    ensures
      var call := Asm.Instruction(["CALL", operand], symbols, resolve);
      var jp := Asm.Instruction(["JP", operand], symbols, resolve);
      && (jp.Ok? <==> call.Ok?)
      && (call.Ok? ==> Top(call.value) == 2 && call.value >= 0x1000 && jp.value == call.value - 0x1000)
  {
    hide Asm.Ranged;
    assert 0x2000 / 0x1000 == 2;
  }

  /** A frame that returns to the RET behind a site. */
  predicate Idle(sites: set<int>, f: word) { f - 2 in sites }

  function Erase(sites: set<int>, s: seq<word>): (r: seq<word>)
    ensures |r| <= |s|
  {
    if s == [] then []
    else Erase(sites, s[..|s| - 1]) + if Idle(sites, s[|s| - 1]) then [] else [s[|s| - 1]]
  }

  function Rewritten(sites: set<int>, c: Core): Core
  {
    c.(mem := Patch(sites, c.mem), stack := Erase(sites, c.stack))
  }

  /** `b` runs the rewritten program, `a` the original: the same machine up to
      the rewritten bytes and the erased frames, at the same instruction, or
      both at a RET while the original still unwinds. */
  ghost predicate Matches(sites: set<int>, a: Mach, b: Mach)
  {
    && b.core == Rewritten(sites, a.core).(pc := b.core.pc)
    && (b.core.pc == a.core.pc || (Fetch(a) == 0x00EE && Fetch(b) == 0x00EE))
    && b.used == a.used && b.sent == a.sent
  }

  // ------------------------------------------------ what a run may not touch

  /** How many bytes from I upwards the instruction reads or writes as data. */
  function DataRead(op: word): nat
  {
    if Top(op) == 0xD then N(op) else if Top(op) == 0xF && KK(op) == 0x65 then X(op) + 1 else 0
  }

  function DataWritten(op: word): nat
  {
    if Top(op) == 0xF && KK(op) == 0x33 then 3 else if Top(op) == 0xF && KK(op) == 0x55 then X(op) + 1 else 0
  }

  /** `b` belongs to a site: its CALL or its RET. */
  predicate Guarded(sites: set<int>, b: int)
  {
    b in sites || b - 1 in sites || b - 2 in sites || b - 3 in sites
  }

  /** None of the `n` bytes from `i` upwards is rewritten. */
  ghost predicate NotRead(sites: set<int>, i: int, n: nat)
  {
    forall b :: 0 <= b < 0x1000 && Offset(b, i) < n ==> b !in sites
  }

  ghost predicate NotWritten(sites: set<int>, i: int, n: nat)
  {
    forall b :: 0 <= b < 0x1000 && Offset(b, i) < n ==> !Guarded(sites, b)
  }

  /** The next instruction does not start inside a site, read its rewritten
      byte as data, or write to its CALL or RET. */
  ghost predicate Safe(sites: set<int>, m: Mach)
  {
    && (m.core.pc in sites || (Wrap(m.core.pc) !in sites && Wrap(m.core.pc + 1) !in sites))
    && NotRead(sites, m.core.i, DataRead(Fetch(m)))
    && NotWritten(sites, m.core.i, DataWritten(Fetch(m)))
  }

  // ---------------------------------------------------------------- fetching

  lemma {:induction false} SitesApart(sites: set<int>, mem: Memory, p: int)
    requires SitesOk(sites, mem) && p in sites
    ensures p + 1 !in sites
  {
    hide Top;
    TopOf(mem, p);
    TopOf(mem, p + 1);
    TopOf(mem, p + 2);
    if p + 1 in sites { TopOf(mem, p + 3); }
  }

  lemma TopOf(mem: Memory, p: int)
    requires 0 <= p < 0xFFF
    ensures OpAt(mem, p) == 0x100 * (mem[p] as int) + mem[p + 1] as int
    ensures Top(OpAt(mem, p)) == mem[p] / 0x10
  {}

  lemma TurnedCall(high: byte, low: byte)
    requires high / 0x10 == 2
    ensures
      var h: int := high;
      var op: word := h * 0x100 + low;
      && Turned(high) == h - 0x10
      && op >= 0x1000 && Top(op - 0x1000) == 1 && NNN(op - 0x1000) == NNN(op)
  {}

  lemma {:induction false} FetchSite(sites: set<int>, mem: Memory, p: int)
    requires SitesOk(sites, mem) && p in sites
    ensures OpAt(mem, p) >= 0x1000 && OpAt(Patch(sites, mem), p) == OpAt(mem, p) - 0x1000
    ensures Top(OpAt(Patch(sites, mem), p)) == 1 && NNN(OpAt(Patch(sites, mem), p)) == NNN(OpAt(mem, p))
  {
    hide Turned, Top, NNN, OpAt;
    SitesApart(sites, mem, p);
    TopOf(mem, p);
    TopOf(Patch(sites, mem), p);
    TurnedCall(mem[p], mem[p + 1]);
  }

  lemma {:induction false} FetchElsewhere(sites: set<int>, mem: Memory, pc: int)
    requires Wrap(pc) !in sites && Wrap(pc + 1) !in sites
    ensures OpAt(Patch(sites, mem), pc) == OpAt(mem, pc)
  {}

  // ------------------------------------------------------------ instructions

  lemma OffsetBack(i: int, j: int)
    requires 0 <= j < 0x1000
    ensures Offset(Wrap(i + j), i) == j
  {}

  lemma {:induction false} LoadSame(sites: set<int>, mem: Memory, i: int, n: nat)
    requires n <= 0x10 && NotRead(sites, i, n)
    ensures Load(Patch(sites, mem), i, n) == Load(mem, i, n)
  {
    hide Wrap, Offset, NotRead;
    forall j | 0 <= j < n ensures Load(Patch(sites, mem), i, n)[j] == Load(mem, i, n)[j] {
      LoadAt(sites, mem, i, n, j);
    }
  }

  lemma {:induction false} LoadAt(sites: set<int>, mem: Memory, i: int, n: nat, j: nat)
    requires j < n <= 0x10 && NotRead(sites, i, n)
    ensures Patch(sites, mem)[Wrap(i + j)] == mem[Wrap(i + j)]
  {
    OffsetBack(i, j);
    hide Wrap, Offset;
  }

  lemma {:induction false} StoreSame(sites: set<int>, mem: Memory, i: int, vs: seq<byte>)
    requires NotWritten(sites, i, |vs|)
    ensures Store(Patch(sites, mem), i, vs) == Patch(sites, Store(mem, i, vs))
  {
    hide Offset;
    assert Store(Patch(sites, mem), i, vs) == Patch(sites, Store(mem, i, vs));
  }

  lemma {:induction false} GuardedKept(sites: set<int>, mem: Memory, i: int, vs: seq<byte>, p: int)
    requires NotWritten(sites, i, |vs|) && SitesOk(sites, mem) && p in sites
    ensures var now := Store(mem, i, vs);
      now[p] == mem[p] && now[p + 1] == mem[p + 1] && now[p + 2] == mem[p + 2] && now[p + 3] == mem[p + 3]
  {
    hide Offset, Top, OpAt;
    assert Guarded(sites, p) && Guarded(sites, p + 1) && Guarded(sites, p + 2) && Guarded(sites, p + 3);
  }

  lemma {:induction false} StoreKeepsSites(sites: set<int>, mem: Memory, i: int, vs: seq<byte>)
    requires NotWritten(sites, i, |vs|) && SitesOk(sites, mem)
    ensures SitesOk(sites, Store(mem, i, vs))
  {
    hide Top, Store, OpAt, NotWritten;
    forall p | p in sites ensures OpAt(Store(mem, i, vs), p) == OpAt(mem, p) && OpAt(Store(mem, i, vs), p + 2) == OpAt(mem, p + 2) {
      GuardedKept(sites, mem, i, vs, p);
      SameBytes(mem, Store(mem, i, vs), p);
      SameBytes(mem, Store(mem, i, vs), p + 2);
    }
  }

  lemma SameBytes(mem: Memory, now: Memory, p: int)
    requires 0 <= p < 0xFFF && now[p] == mem[p] && now[p + 1] == mem[p + 1]
    ensures OpAt(now, p) == OpAt(mem, p)
  {}

  // ------------------------------------------------------------- one step

  /** What the rewritten machine holds besides its stack and program counter is
      all that these instructions look at. */
  predicate Plain(op: word)
  {
    op != 0x00EE && Top(op) != 2
  }

  lemma {:induction false} StraightMatches(sites: set<int>, op: word, c: Core, inp: Input)
    requires SitesOk(sites, c.mem) && NotRead(sites, c.i, DataRead(op)) && NotWritten(sites, c.i, DataWritten(op))
    ensures ExecStraight(op, Rewritten(sites, c), inp) ==
      match ExecStraight(op, c, inp) case Some(d) => Some(Rewritten(sites, d)) case None => None
    ensures ExecStraight(op, c, inp).Some? ==>
      SitesOk(sites, ExecStraight(op, c, inp).value.mem) && ExecStraight(op, c, inp).value.stack == c.stack
  {
    hide X, Y, N, KK, NNN, Bits, Patch, Erase, SitesOk, NotRead, NotWritten, Load, Store, SpritePixels;
    if Top(op) == 0xD { LoadSame(sites, c.mem, c.i, N(op)); }
    if Top(op) == 0xF { MiscMatches(sites, op, c, inp); }
  }

  lemma {:induction false} MiscMatches(sites: set<int>, op: word, c: Core, inp: Input)
    requires Top(op) == 0xF
    requires SitesOk(sites, c.mem) && NotRead(sites, c.i, DataRead(op)) && NotWritten(sites, c.i, DataWritten(op))
    ensures ExecMisc(op, Rewritten(sites, c), inp) ==
      match ExecMisc(op, c, inp) case Some(d) => Some(Rewritten(sites, d)) case None => None
    ensures ExecMisc(op, c, inp).Some? ==>
      SitesOk(sites, ExecMisc(op, c, inp).value.mem) && ExecMisc(op, c, inp).value.stack == c.stack
  {
    hide X, Y, N, KK, NNN, Bits, Patch, Erase, SitesOk, NotRead, NotWritten, Load, Store, SpritePixels, Top;
    if KK(op) == 0x33 {
      StoreSame(sites, c.mem, c.i, Digits(c.regs[X(op)]));
      StoreKeepsSites(sites, c.mem, c.i, Digits(c.regs[X(op)]));
    }
    if KK(op) == 0x55 {
      StoreSame(sites, c.mem, c.i, c.regs[..X(op) + 1]);
      StoreKeepsSites(sites, c.mem, c.i, c.regs[..X(op) + 1]);
    }
    if KK(op) == 0x65 { LoadSame(sites, c.mem, c.i, X(op) + 1); }
  }

  /** Everything but a call or return does the same to both. */
  lemma {:induction false} PlainMatches(sites: set<int>, op: word, c: Core, inp: Input)
    requires Plain(op)
    requires SitesOk(sites, c.mem) && NotRead(sites, c.i, DataRead(op)) && NotWritten(sites, c.i, DataWritten(op))
    ensures ExecCore(op, Rewritten(sites, c), inp) ==
      match ExecCore(op, c, inp) case Some(d) => Some(Rewritten(sites, d)) case None => None
    ensures ExecCore(op, c, inp).Some? ==> SitesOk(sites, ExecCore(op, c, inp).value.mem) && ExecCore(op, c, inp).value.stack == c.stack
  {
    hide X, Y, N, KK, NNN, Patch, Erase, SitesOk, NotRead, NotWritten, ExecStraight;
    StraightMatches(sites, op, c, inp);
  }

  lemma {:induction false} EraseMore(sites: set<int>, s: seq<word>, f: word)
    ensures Erase(sites, s + [f]) == Erase(sites, s) + if Idle(sites, f) then [] else [f]
  {
    assert (s + [f])[..|s|] == s;
  }

  /** The original returns to a RET behind a site: the rewritten program has no
      such frame and waits. */
  predicate Stutters(sites: set<int>, m: Mach)
  {
    Fetch(m) == 0x00EE && m.core.stack != [] && Idle(sites, m.core.stack[|m.core.stack| - 1])
  }

  lemma {:induction false} ReturnStep(tape: nat -> Input, m: Mach)
    requires Fetch(m) == 0x00EE
    ensures TapeStep(tape, m) == match ExecReturn(m.core) case Some(c) => Some(m.(core := c)) case None => None
  {
    hide OpAt, ExecReturn;
    assert Top(0x00EE) == 0;
    assert m.sent + [] == m.sent;
  }

  lemma {:induction false} CallStep(tape: nat -> Input, m: Mach)
    requires Top(Fetch(m)) == 2
    ensures TapeStep(tape, m) == match ExecCall(m.core, NNN(Fetch(m))) case Some(c) => Some(m.(core := c)) case None => None
  {
    hide OpAt, ExecCall, NNN;
    assert m.sent + [] == m.sent;
    NotSystem(Fetch(m));
    hide Top;
  }

  lemma {:induction false} JumpStep(tape: nat -> Input, m: Mach)
    requires Top(Fetch(m)) == 1
    ensures TapeStep(tape, m) == Some(m.(core := m.core.(pc := NNN(Fetch(m)))))
  {
    hide OpAt, NNN;
    assert m.sent + [] == m.sent;
    NotSystem(Fetch(m));
    hide Top;
  }

  /** A RET: the rewritten program pops the same frame, unless that was erased. */
  lemma {:induction false} ReturnMatches(tape: nat -> Input, sites: set<int>, a: Mach, b: Mach)
    requires Matches(sites, a, b) && SitesOk(sites, a.core.mem) && Safe(sites, a)
    requires Fetch(a) == 0x00EE && TapeStep(tape, a).Some?
    ensures Fetch(b) == 0x00EE && a.core.stack != [] && TapeStep(tape, a).value.core.mem == a.core.mem
    ensures Stutters(sites, a) ==> Matches(sites, TapeStep(tape, a).value, b)
    ensures !Stutters(sites, a) ==> TapeStep(tape, b).Some? && Matches(sites, TapeStep(tape, a).value, TapeStep(tape, b).value)
    ensures Stutters(sites, a) ==> |TapeStep(tape, a).value.core.stack| == |a.core.stack| - 1
    ensures !Stutters(sites, a) ==>
      |TapeStep(tape, a).value.core.stack| - |TapeStep(tape, b).value.core.stack| <= |a.core.stack| - |b.core.stack| + 1
  {
    hide OpAt, Patch, Erase, NotRead, NotWritten, TapeStep;
    SamePlace(sites, a, b);
    ReturnStep(tape, a);
    ReturnStep(tape, b);
    var s := a.core.stack;
    var f := s[|s| - 1];
    assert s == s[..|s| - 1] + [f];
    EraseMore(sites, s[..|s| - 1], f);
    var e := Erase(sites, s[..|s| - 1]);
    assert (e + [f])[..|e|] == e;
    if Stutters(sites, a) { IdleReturns(sites, a.core.mem, f); }
  }

  lemma {:induction false} IdleReturns(sites: set<int>, mem: Memory, f: word)
    requires SitesOk(sites, mem) && Idle(sites, f)
    ensures OpAt(mem, f) == 0x00EE
  {
    hide OpAt;
    assert f - 2 in sites && OpAt(mem, f - 2 + 2) == 0x00EE;
  }

  /** Both programs see the same instruction, except at a site. */
  lemma {:induction false} SamePlace(sites: set<int>, a: Mach, b: Mach)
    requires Matches(sites, a, b) && SitesOk(sites, a.core.mem) && Safe(sites, a)
    ensures Fetch(a) == 0x00EE ==> Fetch(b) == 0x00EE
    ensures Fetch(a) != 0x00EE ==> b.core.pc == a.core.pc
    ensures Fetch(a) != 0x00EE && a.core.pc !in sites ==> Fetch(b) == Fetch(a)
    ensures a.core.pc in sites ==>
      && Top(Fetch(a)) == 2 && Fetch(a) != 0x00EE
      && Top(Fetch(b)) == 1 && NNN(Fetch(b)) == NNN(Fetch(a))
  {
    hide Patch, OpAt, Top, NNN, NotRead, NotWritten;
    NotSystem(Fetch(a));
    if a.core.pc in sites { FetchSite(sites, a.core.mem, a.core.pc); }
    else { FetchElsewhere(sites, a.core.mem, a.core.pc); }
  }

  /** A CALL: at a site the rewritten program jumps and pushes nothing. */
  lemma {:induction false} CallMatches(tape: nat -> Input, sites: set<int>, a: Mach, b: Mach)
    requires Matches(sites, a, b) && SitesOk(sites, a.core.mem) && Safe(sites, a)
    requires Top(Fetch(a)) == 2 && TapeStep(tape, a).Some?
    ensures TapeStep(tape, a).value.core.mem == a.core.mem
    ensures TapeStep(tape, b).Some? && Matches(sites, TapeStep(tape, a).value, TapeStep(tape, b).value)
    ensures |TapeStep(tape, a).value.core.stack| - |TapeStep(tape, b).value.core.stack| <= |a.core.stack| - |b.core.stack| + 1
  {
    hide OpAt, Patch, Erase, NotRead, NotWritten, TapeStep, Top, NNN;
    NotSystem(Fetch(a));
    SamePlace(sites, a, b);
    CallStep(tape, a);
    if a.core.pc in sites { JumpStep(tape, b); } else { CallStep(tape, b); }
    Pushed(sites, a.core.mem, a.core.pc);
    EraseMore(sites, a.core.stack, (a.core.pc + 2) % 0x10000);
  }

  lemma {:induction false} Pushed(sites: set<int>, mem: Memory, pc: word)
    requires SitesOk(sites, mem)
    ensures Idle(sites, (pc + 2) % 0x10000) <==> pc in sites
  {
    hide OpAt, Top;
  }

  /** Any other instruction does the same to both. */
  lemma {:induction false} OtherMatches(tape: nat -> Input, sites: set<int>, a: Mach, b: Mach)
    requires Matches(sites, a, b) && SitesOk(sites, a.core.mem) && Safe(sites, a) && Plain(Fetch(a))
    ensures TapeStep(tape, b).Some? <==> TapeStep(tape, a).Some?
    ensures TapeStep(tape, a).Some? ==>
      && SitesOk(sites, TapeStep(tape, a).value.core.mem)
      && Matches(sites, TapeStep(tape, a).value, TapeStep(tape, b).value)
      && TapeStep(tape, a).value.core.stack == a.core.stack && TapeStep(tape, b).value.core.stack == b.core.stack
  {
    SamePlace(sites, a, b);
    assert Fetch(b) == Fetch(a);
    PlainMatches(sites, Fetch(a), a.core, Given(tape, a));
    hide OpAt, Patch, Erase, NotRead, NotWritten, ExecCore, SitesOk, Reads, Top;
    assert b.core == Rewritten(sites, a.core);
  }

  /** One step of the original is at most one step of the rewritten program. */
  lemma {:induction false} StepMatches(tape: nat -> Input, sites: set<int>, a: Mach, b: Mach)
    requires Matches(sites, a, b) && SitesOk(sites, a.core.mem) && Safe(sites, a) && TapeStep(tape, a).Some?
    ensures SitesOk(sites, TapeStep(tape, a).value.core.mem)
    ensures Stutters(sites, a) ==> Matches(sites, TapeStep(tape, a).value, b)
    ensures !Stutters(sites, a) ==> TapeStep(tape, b).Some? && Matches(sites, TapeStep(tape, a).value, TapeStep(tape, b).value)
    ensures Stutters(sites, a) ==> |TapeStep(tape, a).value.core.stack| == |a.core.stack| - 1
    ensures !Stutters(sites, a) ==>
      |TapeStep(tape, a).value.core.stack| - |TapeStep(tape, b).value.core.stack| <= |a.core.stack| - |b.core.stack| + 1
  {
    hide Matches, SitesOk, Safe, TapeStep, Top, Fetch, OpAt;
    if Fetch(a) == 0x00EE { ReturnMatches(tape, sites, a, b); }
    else if Top(Fetch(a)) == 2 { CallMatches(tape, sites, a, b); }
    else { OtherMatches(tape, sites, a, b); }
  }

  /** Where the original stops with an error the rewritten program does too,
      unless that error is a CALL on a full stack which is rewritten, or for
      which it has room left. */
  lemma {:induction false} ErrorMatches(tape: nat -> Input, sites: set<int>, a: Mach, b: Mach)
    requires Matches(sites, a, b) && SitesOk(sites, a.core.mem) && Safe(sites, a) && TapeStep(tape, a).None?
    ensures TapeStep(tape, b).None? <==>
      Top(Fetch(a)) != 2 || (a.core.pc !in sites && |b.core.stack| == |a.core.stack|)
  {
    hide NotRead, NotWritten, TapeStep, Top, OpAt, Patch, SitesOk, NNN, Erase;
    SamePlace(sites, a, b);
    NotSystem(Fetch(a));
    if Fetch(a) == 0x00EE {
      assert Top(0x00EE) != 2 by { ReturnGroup(); }
      ReturnStep(tape, a);
      ReturnStep(tape, b);
      assert Erase(sites, []) == [] by { EraseNone(sites); }
    } else if Top(Fetch(a)) == 2 {
      CallStep(tape, a);
      if a.core.pc in sites { JumpStep(tape, b); } else { CallStep(tape, b); }
    } else {
      OtherMatches(tape, sites, a, b);
    }
  }

  lemma ReturnGroup()
    ensures Top(0x00EE) == 0
  {}

  lemma EraseNone(sites: set<int>)
    ensures Erase(sites, []) == []
  {}

  // ------------------------------------------------------------ whole runs

  /** The original gets to its `i`-th step, which leaves the sites alone. */
  ghost predicate SafeAt(tape: nat -> Input, sites: set<int>, a: Mach, i: nat)
  {
    TapeRun(tape, a, i).Some? && Safe(sites, TapeRun(tape, a, i).value)
  }

  /** The original runs `n` steps from `a` without error and without touching
      the sites. */
  ghost predicate RunsSafely(tape: nat -> Input, sites: set<int>, a: Mach, n: nat)
  {
    TapeRun(tape, a, n).Some? && forall i :: 0 <= i < n ==> SafeAt(tape, sites, a, i)
  }

  /** The steps of the rewritten program after `n` of the original. */
  function Kept(tape: nat -> Input, sites: set<int>, a: Mach, n: nat): (m: nat)
    ensures m <= n
  {
    if n == 0 then 0 else
    match TapeRun(tape, a, n - 1)
    case Some(m) => Kept(tape, sites, a, n - 1) + (if Stutters(sites, m) then 0 else 1)
    case None => Kept(tape, sites, a, n - 1)
  }

  function Start(c: Core): Mach { Mach(c, 0, []) }

  /** `a` after `n` steps of the original, `b` after `m` of the rewritten one. */
  ghost predicate Together(sites: set<int>, a: Mach, n: nat, b: Mach, m: nat)
  {
    && Matches(sites, a, b) && SitesOk(sites, a.core.mem)
    && n + |a.core.stack| <= 2 * m + |b.core.stack|
  }

  lemma {:induction false} TogetherNext(tape: nat -> Input, sites: set<int>, a: Mach, n: nat, b: Mach, m: nat)
    requires Together(sites, a, n, b, m) && Safe(sites, a) && TapeStep(tape, a).Some?
    ensures Stutters(sites, a) ==> Together(sites, TapeStep(tape, a).value, n + 1, b, m)
    ensures !Stutters(sites, a) ==>
      TapeStep(tape, b).Some? && Together(sites, TapeStep(tape, a).value, n + 1, TapeStep(tape, b).value, m + 1)
  {
    hide Matches, SitesOk, Safe, TapeStep, Stutters;
    StepMatches(tape, sites, a, b);
  }

  /** The rewrite preserves the run: after `n` steps of the original the
      rewritten program, having taken `m` of its own, is the same machine up to
      the erased frames; it took no more steps, at least half as many, and its
      stack is no deeper. */
  lemma {:induction false} TailCalls(tape: nat -> Input, sites: set<int>, c: Core, n: nat)
    requires SitesOk(sites, c.mem) && c.stack == [] && RunsSafely(tape, sites, Start(c), n)
    ensures TapeRun(tape, Start(Rewritten(sites, c)), Kept(tape, sites, Start(c), n)).Some?
    ensures
      var m := Kept(tape, sites, Start(c), n);
      var a, b := TapeRun(tape, Start(c), n).value, TapeRun(tape, Start(Rewritten(sites, c)), m).value;
      Together(sites, a, n, b, m) && m <= n <= 2 * m && |b.core.stack| <= |a.core.stack|
  {
    hide Matches, SitesOk, Safe, TapeStep, Stutters, Patch, Erase;
    if n == 0 {
      StartTogether(sites, c);
    } else {
      assert SafeAt(tape, sites, Start(c), n - 1);
      TailCalls(tape, sites, c, n - 1);
      var a := TapeRun(tape, Start(c), n - 1).value;
      var m := Kept(tape, sites, Start(c), n - 1);
      TogetherNext(tape, sites, a, n - 1, TapeRun(tape, Start(Rewritten(sites, c)), m).value, m);
    }
    Shallower(sites, TapeRun(tape, Start(c), n).value,
              TapeRun(tape, Start(Rewritten(sites, c)), Kept(tape, sites, Start(c), n)).value);
  }

  lemma {:induction false} StartTogether(sites: set<int>, c: Core)
    requires SitesOk(sites, c.mem) && c.stack == []
    ensures Together(sites, Start(c), 0, Start(Rewritten(sites, c)), 0)
  {
    hide SitesOk, Patch;
  }

  lemma {:induction false} Shallower(sites: set<int>, a: Mach, b: Mach)
    requires Matches(sites, a, b)
    ensures |b.core.stack| <= |a.core.stack|
  {
    hide Patch, OpAt;
  }

  /** Nothing else happens in the rewritten program: every state it reaches in
      that many steps belongs to some state of the original. */
  lemma {:induction false} TailCallsOnly(tape: nat -> Input, sites: set<int>, c: Core, n: nat, j: nat) returns (i: nat)
    requires SitesOk(sites, c.mem) && c.stack == [] && RunsSafely(tape, sites, Start(c), n)
    requires j <= Kept(tape, sites, Start(c), n)
    ensures i <= n && Kept(tape, sites, Start(c), i) == j && TapeRun(tape, Start(c), i).Some?
    ensures TapeRun(tape, Start(Rewritten(sites, c)), j).Some?
    ensures Matches(sites, TapeRun(tape, Start(c), i).value, TapeRun(tape, Start(Rewritten(sites, c)), j).value)
  {
    hide Matches, SitesOk, Safe, TapeStep, Stutters, Patch, Erase;
    i := n;
    while Kept(tape, sites, Start(c), i) > j
      invariant i <= n && j <= Kept(tape, sites, Start(c), i) && RunsSafely(tape, sites, Start(c), i)
      decreases i
    {
      assert SafeAt(tape, sites, Start(c), i - 1);
      i := i - 1;
    }
    TailCalls(tape, sites, c, i);
  }

  // --------------------------------------------------------- deep recursion

  /** A routine that is nothing but a tail call to itself. */
  ghost predicate Recursive(c: Core)
  {
    c.pc == ENTRYPOINT && OpAt(c.mem, 0x200) == 0x2200 && OpAt(c.mem, 0x202) == 0x00EE
  }

  lemma {:induction false} RecursiveStep(tape: nat -> Input, m: Mach)
    requires Recursive(m.core)
    ensures TapeStep(tape, m).Some? <==> |m.core.stack| < STACK_SIZE
    ensures TapeStep(tape, m).Some? ==>
      Recursive(TapeStep(tape, m).value.core) && |TapeStep(tape, m).value.core.stack| == |m.core.stack| + 1
  {
    assert Top(0x2200) == 2 && NNN(0x2200) == 0x200;
    CallStep(tape, m);
    hide OpAt, TapeStep, Top, NNN;
  }

  lemma {:induction false} RecursiveRun(tape: nat -> Input, c: Core, n: nat)
    requires Recursive(c) && c.stack == []
    ensures TapeRun(tape, Start(c), n).Some? <==> n <= STACK_SIZE
    ensures n <= STACK_SIZE ==>
      Recursive(TapeRun(tape, Start(c), n).value.core) && |TapeRun(tape, Start(c), n).value.core.stack| == n
  {
    if n > 0 {
      RecursiveRun(tape, c, n - 1);
      if n - 1 <= STACK_SIZE { RecursiveStep(tape, TapeRun(tape, Start(c), n - 1).value); }
    }
    hide Recursive, TapeStep;
  }

  lemma {:induction false} LoopRun(tape: nat -> Input, c: Core, n: nat)
    requires c.pc == ENTRYPOINT && OpAt(c.mem, 0x200) == 0x1200
    ensures TapeRun(tape, Start(c), n) == Some(Start(c))
  {
    assert Top(0x1200) == 1 && NNN(0x1200) == 0x200;
    if n > 0 {
      LoopRun(tape, c, n - 1);
      JumpStep(tape, Start(c));
    }
    hide OpAt, TapeStep, Top, NNN;
  }

  /** The rewrite is not an equivalence for programs that overflow the stack:
      this one stops with an error on its seventeenth step, and runs forever
      once rewritten. */
  lemma {:induction false} DeepRecursion(tape: nat -> Input, c: Core, n: nat)
    requires Recursive(c) && c.stack == []
    ensures SitesOk({0x200}, c.mem)
    ensures TapeRun(tape, Start(c), n).Some? <==> n <= STACK_SIZE
    ensures TapeRun(tape, Start(Rewritten({0x200}, c)), n).Some?
  {
    assert Top(0x2200) == 2;
    assert SitesOk({0x200}, c.mem);
    RecursiveRun(tape, c, n);
    FetchSite({0x200}, c.mem, 0x200);
    assert Erase({0x200}, []) == [];
    LoopRun(tape, Rewritten({0x200}, c), n);
    hide OpAt, TapeStep, Top, NNN, Patch;
  }
}
