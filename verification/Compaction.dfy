/** What compaction does to a run. Under the old-to-new address map the compacted
    program does what the original does: one step for every step, none where a
    statement was dropped. */
module Compaction {
  import opened Chip8
  import opened Bench
  import opened Tape
  import opened TailCall
  import opened Peephole

  // ---------------------------------------------------------- the two programs

  /** The word statement `i` assembles to under the edit. */
  function Assembled(p: Source, e: Edit, i: nat): int
    requires i < |p| && p[i].Insn? && (p[i].target.Some? ==> p[i].target.value <= |p|)
  {
    if i in e.total then 0x6000 + 0x100 * X(p[i].op) + e.total[i]
    else if p[i].target.Some? then 0x1000 * Top(p[i].op) + Addr(p, e, p[i].target.value)
    else p[i].op
  }

  /** The instruction statements that are left stand in memory where the edit
      puts them. */
  ghost predicate Loaded(p: Source, e: Edit, mem: Memory)
    requires Accepted(p)
  {
    forall i :: 0 <= i < |p| && p[i].Insn? && i !in e.drop ==> HoldsAt(p, e, mem, i)
  }

  ghost predicate HoldsAt(p: Source, e: Edit, mem: Memory, i: nat)
    requires Accepted(p) && i < |p| && p[i].Insn?
  {
    assert StmtOk(p, p[i]);
    OpAt(mem, Addr(p, e, i)) == Assembled(p, e, i)
  }

  // ------------------------------------------------------ the registers

  /** A load dropped as overwritten, and no no-op. */
  predicate Loose(p: Source, e: Edit, i: nat)
    requires i < |p|
  {
    i in e.drop && !FoldedAt(p, e, i) && p[i].Insn? && !NoOp(p[i].op) && !LoadsI(p[i].op)
  }

  /** The registers a load puts something into. */
  predicate Changes(op: word, r: int)
  {
    if LoadsMemory(op) then r <= X(op) else r == X(op)
  }

  /** The registers on arrival at statement `i`: ahead by a folded addition that
      the original still has to do, or free at those about to be loaded. */
  ghost predicate RegsMatch(p: Source, e: Edit, i: nat, a: Regs, b: Regs)
    requires i <= |p|
  {
    if i < |p| && FoldedAt(p, e, i)
    then b == a[X(p[i].op) := Plus(a[X(p[i].op)], KK(p[i].op))]
    else if i > 0 && Loose(p, e, i - 1)
    then Apart(p[i - 1].op, a, b)
    else a == b
  }

  /** Equal but for what `op` loads. */
  ghost predicate Apart(op: word, a: Regs, b: Regs)
  {
    forall r :: 0 <= r < 16 && !Changes(op, r) ==> a[r] == b[r]
  }

  function Plus(a: byte, b: byte): byte
  {
    var v: int := a;
    (v + b) % 0x100
  }

  // --------------------------------------------------- the return stack

  /** The return addresses correspond, each to the statement behind a call. */
  ghost predicate Frames(p: Source, e: Edit, s: seq<word>, t: seq<word>)
    decreases |s|
  {
    if s == [] then t == []
    else t != [] && Frames(p, e, s[..|s| - 1], t[..|t| - 1]) && Framed(p, e, s[|s| - 1], t[|t| - 1])
  }

  ghost predicate Framed(p: Source, e: Edit, f: word, g: word)
  {
    exists j :: 0 < j <= |p| && CallBefore(p, e, j) && f == Old(p, j) && g == Addr(p, e, j)
  }

  predicate CallBefore(p: Source, e: Edit, j: nat)
    requires 0 < j <= |p|
  {
    p[j - 1].Insn? && Top(p[j - 1].op) == 2
  }

  ghost predicate Related(p: Source, e: Edit, i: nat, a: Side, b: Side)
  {
    && Accepted(p) && i < |p| && a.core.pc == Old(p, i) && b.core.pc == Addr(p, e, i)
    && Loaded(p, UNCHANGED, a.core.mem) && Loaded(p, e, b.core.mem)
    && Frames(p, e, a.core.stack, b.core.stack)
    && RegsMatch(p, e, i, a.core.regs, b.core.regs)
    && a.core.lit == b.core.lit && a.sent == b.sent
  }

  // ------------------------------------------------------------- the data

  /** The byte at `x` in the original is the byte at `y` in the compacted program:
      outside the ROM the same address, inside it the same byte of a data
      statement; the last word of one is not, if it names an address. */
  ghost predicate Corresponds(p: Source, e: Edit, x: int, y: int)
  {
    || (x == y && (x < ENTRYPOINT || x >= Old(p, |p|)))
    || exists k :: 0 <= k < |p| && InData(p, k, x) && y == x - Old(p, k) + Addr(p, e, k)
  }

  predicate InData(p: Source, k: nat, x: int)
    requires k < |p|
  {
    p[k].Data? && Old(p, k) <= x < Old(p, k) + p[k].size - if p[k].target.Some? then 2 else 0
  }

  ghost predicate SameData(p: Source, e: Edit, a: Memory, b: Memory)
  {
    forall x, y {:trigger Corresponds(p, e, x, y)} :: 0 <= x < 0x1000 && 0 <= y < 0x1000 && Corresponds(p, e, x, y) ==> a[x] == b[y]
  }

  /** The statement I was last loaded with the address of, if it was one. */
  function NextBase(s: Stmt, base: Option<nat>): Option<nat>
  {
    if !s.Insn? then base
    else if LoadsI(s.op) then s.target
    else if Top(s.op) == 0xF && KK(s.op) == 0x29 then None
    else base
  }

  /** What the compacted program has in I when the original has `i`. */
  function Shifted(p: Source, e: Edit, base: Option<nat>, i: word): word
  {
    match base
    case Some(t) => if t <= |p| then (i + Addr(p, e, t) - Old(p, t)) % 0x10000 else i
    case None => i
  }

  /** I on arrival at statement `i`: anything if a load of I was dropped before it. */
  ghost predicate IMatch(p: Source, e: Edit, i: nat, base: Option<nat>, a: word, b: word)
  {
    b == Shifted(p, e, base, a) || (0 < i <= |p| && i - 1 in e.drop && p[i - 1].Insn? && LoadsI(p[i - 1].op))
  }

  ghost predicate DataRelated(p: Source, e: Edit, i: nat, base: Option<nat>, a: Core, b: Core)
  {
    SameData(p, e, a.mem, b.mem) && IMatch(p, e, i, base, a.i, b.i)
  }

  /** Data behind a label moves with it while nothing between them is dropped. */
  lemma {:induction false} MovesTogether(p: Source, e: Edit, t: nat, k: nat, x: int)
    requires t <= k < |p| && InData(p, k, x) && forall m :: t <= m < k ==> m !in e.drop
    ensures Corresponds(p, e, x, x + Addr(p, e, t) - Old(p, t))
  {
    SameDistance(p, e, t, k);
    hide Addr;
  }

  // ------------------------------------------------------- what is required

  /** Every overwritten load dropped is followed by one that loads as much. */
  ghost predicate Sound(p: Source, e: Edit)
  {
    forall i :: 0 <= i < |p| && Loose(p, e, i) ==> i + 1 < |p| && p[i + 1].Insn? && Rightly(p[i].op, p[i + 1].op, true)
  }

  /** The instructions a run may execute: no computed jump, none that has no
      mnemonic. */
  predicate Allowed(op: word)
  {
    Top(op) != 0xB && (Top(op) == 0 ==> op == 0x00E0 || op == 0x00EE)
  }

  /** How many bytes from I upwards the instruction reads or writes. */
  function Touched(op: word): nat { DataRead(op) + DataWritten(op) }

  ghost predicate PairAt(p: Source, e: Edit, base: Option<nat>, i: word, j: nat)
  {
    Corresponds(p, e, Wrap(i + j), Wrap(Shifted(p, e, base, i) + j))
  }

  /** The bytes it touches are data that moved as I did. */
  ghost predicate Within(p: Source, e: Edit, base: Option<nat>, i: word, n: nat)
  {
    forall j :: 0 <= j < n ==> PairAt(p, e, base, i, j)
  }

  /** The machine is at instruction statement `i`, which it may execute. */
  predicate AtStmt(p: Source, i: nat, s: Side)
  {
    i < |p| && p[i].Insn? && s.core.pc == Old(p, i) && Allowed(p[i].op)
  }

  /** And what it touches there moved as I did, and a wait behind a dropped load
      ends with a key. */
  ghost predicate Stands(p: Source, e: Edit, i: nat, base: Option<nat>, inp: Input, s: Side)
  {
    && AtStmt(p, i, s)
    && Within(p, e, base, s.core.i, Touched(p[i].op))
    && (i > 0 && Loose(p, e, i - 1) && WaitsForKey(p[i].op) ==> inp.key.Some?)
  }

  // ------------------------------------------------- what instructions do

  lemma {:induction false} LoadStep(op: word, c: Core, inp: Input)
    requires LoadsRegister(op)
    ensures ExecCore(op, c, inp) == Some(SkipIf(c.(regs := LoadedRegs(op, c, inp)), false))
    ensures Sends(op, c) == []
  {
    LoadStraight(op, c, inp);
    LoadKinds(op);
    FallsCore(op, c, inp);
    hide Top, X, Y, N, KK, NNN, SkipIf, ExecCore, ExecStraight, LoadedRegs;
  }

  lemma LoadKinds(op: word)
    ensures LoadsRegister(op) ==> Falls(op) && !LoadsI(op) && Top(op) in {6, 8, 0xF} && DataWritten(op) == 0
    ensures LoadsRegister(op) && Top(op) == 0xF ==> KK(op) in {0x07, 0x0A, 0x65}
    ensures LoadsRegister(op) && DataRead(op) > 0 ==> LoadsMemory(op)
  {
    hide X, Y, N, KK;
  }

  lemma {:induction false} AddStep(op: word, c: Core, inp: Input)
    requires Top(op) == 7
    ensures ExecCore(op, c, inp) == Some(SkipIf(c.(regs := c.regs[X(op) := Plus(c.regs[X(op)], KK(op))]), false))
    ensures Sends(op, c) == []
  {
    NotSystem(op);
    hide Top, X, KK, NNN, SkipIf;
  }

  lemma {:induction false} LoadIStep(op: word, c: Core, inp: Input)
    requires Top(op) == 0xA
    ensures ExecCore(op, c, inp) == Some(SkipIf(c.(i := NNN(op)), false))
    ensures Sends(op, c) == []
  {
    NotSystem(op);
    hide Top, X, KK, NNN, SkipIf;
  }

  /** The instructions that can be dropped, by what they do to the registers. */
  function Dropped(op: word, c: Core, inp: Input): Regs
  {
    if LoadsRegister(op) then LoadedRegs(op, c, inp)
    else if Top(op) == 7 then c.regs[X(op) := Plus(c.regs[X(op)], KK(op))]
    else c.regs
  }

  lemma {:induction false} DroppedStep(op: word, c: Core, inp: Input)
    requires LoadsRegister(op) || Top(op) == 7 || LoadsI(op)
    ensures
      var r := ExecCore(op, c, inp);
      r.Some? && r.value == c.(pc := (c.pc + 2) % 0x10000, regs := Dropped(op, c, inp), i := if LoadsI(op) then NNN(op) else c.i)
    ensures Sends(op, c) == []
  {
    hide Top, X, Y, N, KK, NNN, LoadsRegister, LoadedRegs, ExecCore;
    AddNoLoad(op);
    if LoadsRegister(op) { LoadStep(op, c, inp); }
    else if Top(op) == 7 { AddStep(op, c, inp); }
    else { LoadIStep(op, c, inp); }
  }

  /** What a dropped statement is. */
  lemma {:induction false} DropKinds(p: Source, e: Edit, i: nat)
    requires Legal(p, e) && i in e.drop
    ensures i < |p| && p[i].Insn?
    ensures LoadsRegister(p[i].op) || Top(p[i].op) == 7 || LoadsI(p[i].op)
    ensures FoldedAt(p, e, i) ==> Top(p[i].op) == 7
    ensures NoOp(p[i].op) ==> !LoadsI(p[i].op)
    ensures Loose(p, e, i) ==> LoadsRegister(p[i].op) && !WaitsForKey(p[i].op) && DeadAt(p, i)
    ensures LoadsI(p[i].op) ==> i + 1 < |p| && p[i + 1].Insn? && LoadsI(p[i + 1].op)
    ensures i !in e.total && (i + 1 < |p| ==> !FoldedAt(p, e, i + 1))
  {
    hide Protected, Top, X, Y, N, KK;
    AddNoLoad(p[i].op);
    assert DropOk(p, e, i);
  }

  lemma AddNoLoad(op: word)
    ensures Top(op) == 7 ==> !LoadsRegister(op) && !LoadsI(op)
    ensures LoadsI(op) ==> !LoadsRegister(op) && Top(op) != 7 && !NoOp(op)
  {}

  lemma {:induction false} NoOpRegs(op: word, c: Core, inp: Input)
    requires NoOp(op)
    ensures Dropped(op, c, inp) == c.regs
  {
    NoOpKinds(op);
    hide Top, X, Y, N;
  }

  /** A load leaves alone what it does not change. */
  lemma {:induction false} LoadsOnly(op: word, c: Core, inp: Input)
    requires LoadsRegister(op)
    ensures Apart(op, LoadedRegs(op, c, inp), c.regs)
  {
    hide X, Y, N, KK, Load;
  }

  /** What stands behind a loose load is a load of as many registers, and no
      no-op. */
  lemma {:induction false} LooseNext(p: Source, e: Edit, i: nat)
    requires Legal(p, e) && Sound(p, e) && i < |p|
    ensures i > 0 && Loose(p, e, i - 1) ==>
      && p[i].Insn? && LoadsRegister(p[i].op) && !NoOp(p[i].op) && !FoldedAt(p, e, i) && !LoadsI(p[i].op)
      && X(p[i].op) == X(p[i - 1].op) && LoadsRegister(p[i - 1].op) && Covers(p[i - 1].op, p[i].op)
  {
    hide X, Y, N, KK;
    if i > 0 && Loose(p, e, i - 1) {
      DropKinds(p, e, i - 1);
      assert Rightly(p[i - 1].op, p[i - 1 + 1].op, true);
      NoOpKinds(p[i].op);
      AddNoLoad(p[i].op);
    }
  }

  /** A load of all that `a` loads, which reads none of it. */
  predicate Covers(a: word, b: word)
  {
    && (LoadsMemory(a) ==> LoadsMemory(b) || X(a) == 0)
    && (LoadsMemory(b) || Top(b) != 8 || Y(b) != X(b))
  }

  /** The registers still match once a dropped statement has been passed. */
  lemma {:induction false} RegsDropped(p: Source, e: Edit, i: nat, c: Core, b: Regs, inp: Input)
    requires Legal(p, e) && Sound(p, e) && i in e.drop && i + 1 < |p|
    requires RegsMatch(p, e, i, c.regs, b)
    ensures RegsMatch(p, e, i + 1, Dropped(p[i].op, c, inp), b)
  {
    hide Top, X, Y, N, KK, Legal, LoadsRegister, LoadedRegs, Plus, Covers, Apart, WaitsForKey, NoOp, DeadAt;
    DropKinds(p, e, i);
    FoldNotLoose(p, e, i);
    if NoOp(p[i].op) { NoOpRegs(p[i].op, c, inp); }
    LooseNext(p, e, i);
    AddNoLoad(p[i].op);
    if Loose(p, e, i) {
      LoadsOnly(p[i].op, c, inp);
      if i > 0 && Loose(p, e, i - 1) {
        ApartCovers(p[i - 1].op, p[i].op, c.regs, b);
      }
      ApartMore(p[i].op, LoadedRegs(p[i].op, c, inp), c.regs, b);
    }
  }

  lemma {:induction false} ApartCovers(a: word, b: word, r: Regs, s: Regs)
    requires Covers(a, b) && X(a) == X(b) && Apart(a, r, s)
    ensures Apart(b, r, s)
  {
    hide X, Y, KK, Top;
  }

  lemma {:induction false} ApartMore(op: word, r: Regs, s: Regs, t: Regs)
    requires Apart(op, r, s) && (s == t || Apart(op, s, t))
    ensures Apart(op, r, t)
  {
    hide X, KK, Top;
  }

  lemma FoldNotLoose(p: Source, e: Edit, i: nat)
    requires i < |p|
    ensures FoldedAt(p, e, i) ==> !Loose(p, e, i) && (i > 0 ==> !Loose(p, e, i - 1))
  {
    hide Folds, Sum;
  }

  // ---------------------------------------------------------- kept statements

  /** Instructions that only fall through. */
  predicate Falls(op: word)
  {
    op != 0x00EE && (op == 0x00E0 || Top(op) in {6, 7, 8, 0xA, 0xC, 0xD, 0xF})
  }

  function NextI(op: word, c: Core): word
  {
    if LoadsI(op) then NNN(op)
    else if Top(op) == 0xF && KK(op) == 0x1E then (c.i + c.regs[X(op)]) % 0x10000
    else if Top(op) == 0xF && KK(op) == 0x29 then c.regs[X(op)] % 0x10 * 5
    else c.i
  }

  /** The bytes stored at I. */
  function Written(op: word, c: Core): (r: seq<byte>)
    ensures DataWritten(op) > 0 ==> |r| == DataWritten(op)
  {
    if KK(op) == 0x33 then Digits(c.regs[X(op)]) else c.regs[..X(op) + 1]
  }

  function NextMem(op: word, c: Core): Memory
  {
    if DataWritten(op) == 0 then c.mem else Store(c.mem, c.i, Written(op, c))
  }

  /** The same effect on both machines, each on its own I and memory. */
  ghost predicate SameOutcome(op: word, r: Option<Core>, t: Option<Core>, c: Core, d: Core)
  {
    && (r.Some? <==> t.Some?)
    && (r.Some? ==>
          && r.value.regs == t.value.regs && r.value.lit == t.value.lit
          && r.value == c.(regs := r.value.regs, lit := r.value.lit, i := NextI(op, c), mem := NextMem(op, c))
          && t.value == d.(regs := t.value.regs, lit := t.value.lit, i := NextI(op, d), mem := NextMem(op, d)))
  }

  /** An instruction's effect depends on nothing but registers, display and the
      bytes it reads. */
  lemma {:induction false} StraightSame(op: word, c: Core, d: Core, inp: Input)
    requires c.regs == d.regs && c.lit == d.lit && Load(c.mem, c.i, DataRead(op)) == Load(d.mem, d.i, DataRead(op))
    ensures SameOutcome(op, ExecStraight(op, c, inp), ExecStraight(op, d, inp), c, d)
  {
    hide X, Y, N, KK, NNN, Bits, Store, SpritePixels, Written, Load;
    if Top(op) == 0xF { MiscSame(op, c, d, inp); }
    if Top(op) == 8 { ArithSame(op, c, d); }
    NotSystem(op);
    hide ExecMisc, ExecArith, Top;
  }

  lemma {:induction false} ArithSame(op: word, c: Core, d: Core)
    requires c.regs == d.regs && c.lit == d.lit && Top(op) == 8
    ensures SameOutcome(op, ExecArith(op, c), ExecArith(op, d), c, d)
  {
    hide X, Y, N, KK, NNN, Bits, Top;
  }

  lemma {:induction false} MiscSame(op: word, c: Core, d: Core, inp: Input)
    requires c.regs == d.regs && c.lit == d.lit && Load(c.mem, c.i, DataRead(op)) == Load(d.mem, d.i, DataRead(op)) && Top(op) == 0xF
    ensures SameOutcome(op, ExecMisc(op, c, inp), ExecMisc(op, d, inp), c, d)
  {
    hide X, N, KK, Store, Load, Top, NNN, Digits;
  }

  lemma {:induction false} FallsCore(op: word, c: Core, inp: Input)
    requires Falls(op)
    ensures ExecCore(op, c, inp) == match ExecStraight(op, c, inp) case Some(d) => Some(SkipIf(d, false)) case None => None
  {
    NotSystem(op);
    hide X, Y, N, KK, NNN, ExecStraight, SkipIf;
  }

  // --------------------------------------------------- corresponding bytes

  lemma {:induction false} Sizes(p: Source)
    requires Accepted(p)
    ensures forall k :: 0 <= k < |p| ==> p[k].Size() > 0
  {
    hide Addr;
    forall k | 0 <= k < |p| ensures p[k].Size() > 0 { assert StmtOk(p, p[k]); }
  }

  /** No byte of the original belongs to two statements. */
  lemma {:induction false} OneStatement(p: Source, k: nat, l: nat, x: int)
    requires Accepted(p) && k < |p| && l < |p|
    requires Old(p, k) <= x < Old(p, k) + p[k].Size() && Old(p, l) <= x < Old(p, l) + p[l].Size()
    ensures k == l
  {
    Sizes(p);
    assert Old(p, k + 1) == Old(p, k) + p[k].Size() && Old(p, l + 1) == Old(p, l) + p[l].Size();
    if k < l { OldIncreases(p, k + 1, l); }
    if l < k { OldIncreases(p, l + 1, k); }
    hide Addr;
  }

  lemma {:induction false} NewIncreases(p: Source, e: Edit, i: nat, j: nat)
    requires i <= j <= |p|
    ensures Addr(p, e, i) <= Addr(p, e, j)
  {
    if i < j { NewIncreases(p, e, i, j - 1); }
  }

  /** Nor does one of the compacted program. */
  lemma {:induction false} OneKept(p: Source, e: Edit, k: nat, l: nat, y: int)
    requires k < |p| && l < |p| && k !in e.drop && l !in e.drop
    requires Addr(p, e, k) <= y < Addr(p, e, k) + p[k].Size() && Addr(p, e, l) <= y < Addr(p, e, l) + p[l].Size()
    ensures k == l
  {
    assert Addr(p, e, k + 1) == Addr(p, e, k) + p[k].Size() && Addr(p, e, l + 1) == Addr(p, e, l) + p[l].Size();
    if k < l { NewIncreases(p, e, k + 1, l); }
    if l < k { NewIncreases(p, e, l + 1, k); }
    hide Addr;
  }

  lemma {:induction false} Inside(p: Source, e: Edit, k: nat)
    requires Accepted(p) && k < |p| && k !in e.drop
    ensures ENTRYPOINT <= Old(p, k) && Old(p, k) + p[k].Size() <= Old(p, |p|) <= 0x1000
    ensures ENTRYPOINT <= Addr(p, e, k) && Addr(p, e, k) + p[k].Size() <= Old(p, |p|)
  {
    Sizes(p);
    assert Old(p, k + 1) == Old(p, k) + p[k].Size() && Addr(p, e, k + 1) == Addr(p, e, k) + p[k].Size();
    OldIncreases(p, k + 1, |p|);
    NewIncreases(p, e, k + 1, |p|);
    NewBelowOld(p, e, |p|);
    hide Addr;
  }

  lemma DataKept(p: Source, e: Edit, k: nat)
    requires Legal(p, e) && k < |p| && p[k].Data?
    ensures k !in e.drop
  {
    hide Protected;
    assert k in e.drop ==> DropOk(p, e, k);
  }

  /** The correspondence is one to one. */
  lemma {:induction false} OneToOne(p: Source, e: Edit, x: int, y: int, u: int, v: int)
    requires Accepted(p) && Legal(p, e) && Corresponds(p, e, x, y) && Corresponds(p, e, u, v)
    ensures x == u <==> y == v
  {
    hide Addr, Legal, Accepted;
    if !(x == y && (x < ENTRYPOINT || x >= Old(p, |p|))) {
      var k :| 0 <= k < |p| && InData(p, k, x) && y == x - Old(p, k) + Addr(p, e, k);
      DataKept(p, e, k);
      Inside(p, e, k);
      if !(u == v && (u < ENTRYPOINT || u >= Old(p, |p|))) {
        var l :| 0 <= l < |p| && InData(p, l, u) && v == u - Old(p, l) + Addr(p, e, l);
        DataKept(p, e, l);
        if x == u { OneStatement(p, k, l, x); }
        if y == v { OneKept(p, e, k, l, y); }
      }
    } else if !(u == v && (u < ENTRYPOINT || u >= Old(p, |p|))) {
      var l :| 0 <= l < |p| && InData(p, l, u) && v == u - Old(p, l) + Addr(p, e, l);
      DataKept(p, e, l);
      Inside(p, e, l);
    }
  }

  /** An instruction statement has no byte among the data. */
  lemma {:induction false} InsnApart(p: Source, e: Edit, i: nat, x: int, y: int)
    requires Accepted(p) && Legal(p, e) && i < |p| && p[i].Insn? && Corresponds(p, e, x, y)
    ensures x != Old(p, i) && x != Old(p, i) + 1
    ensures i !in e.drop ==> y != Addr(p, e, i) && y != Addr(p, e, i) + 1
  {
    hide Addr, Legal, Accepted;
    Inside(p, UNCHANGED, i);
    if i !in e.drop { Inside(p, e, i); }
    if !(x == y && (x < ENTRYPOINT || x >= Old(p, |p|))) {
      var k :| 0 <= k < |p| && InData(p, k, x) && y == x - Old(p, k) + Addr(p, e, k);
      DataKept(p, e, k);
      if x == Old(p, i) || x == Old(p, i) + 1 { OneStatement(p, i, k, x); }
      if i !in e.drop && (y == Addr(p, e, i) || y == Addr(p, e, i) + 1) { OneKept(p, e, i, k, y); }
    }
  }

  // ------------------------------------------------- memory under the map

  lemma {:induction false} LoadCorresponds(p: Source, e: Edit, base: Option<nat>, c: Core, d: Core, n: nat)
    requires SameData(p, e, c.mem, d.mem) && d.i == Shifted(p, e, base, c.i) && Within(p, e, base, c.i, n)
    ensures Load(c.mem, c.i, n) == Load(d.mem, d.i, n)
  {
    hide Corresponds, Wrap, Shifted;
    forall j | 0 <= j < n ensures Load(c.mem, c.i, n)[j] == Load(d.mem, d.i, n)[j] {
      assert PairAt(p, e, base, c.i, j);
    }
  }

  lemma OffsetAt(i: int, j: int, b: int)
    requires 0 <= j < 0x1000 && 0 <= b < 0x1000
    ensures Offset(b, i) == j <==> b == Wrap(i + j)
  {}

  /** A store in both programs keeps corresponding bytes equal. */
  lemma {:induction false} StoreCorresponds(p: Source, e: Edit, base: Option<nat>, c: Core, d: Core, vs: seq<byte>)
    requires Accepted(p) && Legal(p, e) && |vs| <= 0x10
    requires SameData(p, e, c.mem, d.mem) && d.i == Shifted(p, e, base, c.i) && Within(p, e, base, c.i, |vs|)
    ensures SameData(p, e, Store(c.mem, c.i, vs), Store(d.mem, d.i, vs))
  {
    hide Accepted, Legal, Corresponds, Wrap, Shifted, Store, Offset;
    var m, n := Store(c.mem, c.i, vs), Store(d.mem, d.i, vs);
    forall x, y {:trigger Corresponds(p, e, x, y)} | 0 <= x < 0x1000 && 0 <= y < 0x1000 && Corresponds(p, e, x, y)
      ensures m[x] == n[y]
    {
      SameOffset(p, e, base, c.i, d.i, |vs|, x, y);
      assert c.mem[x] == d.mem[y];
    }
  }

  lemma {:induction false} SameOffset(p: Source, e: Edit, base: Option<nat>, i: word, k: word, n: nat, x: int, y: int)
    requires Accepted(p) && Legal(p, e) && n <= 0x10
    requires k == Shifted(p, e, base, i) && Within(p, e, base, i, n)
    requires 0 <= x < 0x1000 && 0 <= y < 0x1000 && Corresponds(p, e, x, y)
    ensures Offset(x, i) < n || Offset(y, k) < n ==> Offset(x, i) == Offset(y, k)
  {
    hide Accepted, Legal, Corresponds, Wrap, Shifted, Offset;
    var a: int, b: int := Offset(x, i), Offset(y, k);
    OffsetAt(i, a, x);
    OffsetAt(k, b, y);
    if a < n {
      assert PairAt(p, e, base, i, a);
      OneToOne(p, e, x, y, Wrap(i + a), Wrap(k + a));
      OffsetAt(k, a, y);
    }
    if b < n {
      assert PairAt(p, e, base, i, b);
      OneToOne(p, e, x, y, Wrap(i + b), Wrap(k + b));
      OffsetAt(i, b, x);
    }
  }

  /** Nor does it touch an instruction. */
  lemma {:induction false} StoreLoaded(p: Source, e: Edit, base: Option<nat>, c: Core, d: Core, vs: seq<byte>)
    requires Accepted(p) && Legal(p, e) && |vs| <= 0x10
    requires d.i == Shifted(p, e, base, c.i) && Within(p, e, base, c.i, |vs|)
    requires Loaded(p, UNCHANGED, c.mem) && Loaded(p, e, d.mem)
    ensures Loaded(p, UNCHANGED, Store(c.mem, c.i, vs)) && Loaded(p, e, Store(d.mem, d.i, vs))
  {
    hide Accepted, Legal, Corresponds, Shifted, Store, OpAt, Assembled, Addr, Within;
    forall i | 0 <= i < |p| && p[i].Insn?
      ensures HoldsAt(p, UNCHANGED, Store(c.mem, c.i, vs), i)
      ensures i !in e.drop ==> HoldsAt(p, e, Store(d.mem, d.i, vs), i)
    {
      InsnKept(p, e, base, c, d, vs, i);
      assert HoldsAt(p, UNCHANGED, c.mem, i);
      if i !in e.drop { assert HoldsAt(p, e, d.mem, i); }
    }
  }

  lemma {:induction false} InsnKept(p: Source, e: Edit, base: Option<nat>, c: Core, d: Core, vs: seq<byte>, i: nat)
    requires Accepted(p) && Legal(p, e) && |vs| <= 0x10 && i < |p| && p[i].Insn?
    requires d.i == Shifted(p, e, base, c.i) && Within(p, e, base, c.i, |vs|)
    ensures OpAt(Store(c.mem, c.i, vs), Old(p, i)) == OpAt(c.mem, Old(p, i))
    ensures i !in e.drop ==> OpAt(Store(d.mem, d.i, vs), Addr(p, e, i)) == OpAt(d.mem, Addr(p, e, i))
  {
    hide Accepted, Legal, Corresponds, Shifted, Store, Addr, Offset;
    Inside(p, UNCHANGED, i);
    NotStored(p, e, base, c.i, d.i, |vs|, i, Old(p, i));
    NotStored(p, e, base, c.i, d.i, |vs|, i, Old(p, i) + 1);
    SameWord(c.mem, Store(c.mem, c.i, vs), Old(p, i));
    if i !in e.drop {
      Inside(p, e, i);
      NotStored(p, e, base, c.i, d.i, |vs|, i, Addr(p, e, i));
      NotStored(p, e, base, c.i, d.i, |vs|, i, Addr(p, e, i) + 1);
      SameWord(d.mem, Store(d.mem, d.i, vs), Addr(p, e, i));
    }
  }

  lemma SameWord(m: Memory, n: Memory, a: int)
    requires 0 <= a < 0xFFF && n[a] == m[a] && n[a + 1] == m[a + 1]
    ensures OpAt(n, a) == OpAt(m, a)
  {}

  /** The bytes of an instruction are not among those stored. */
  lemma {:induction false} NotStored(p: Source, e: Edit, base: Option<nat>, c: word, d: word, n: nat, i: nat, b: int)
    requires Accepted(p) && Legal(p, e) && n <= 0x10 && i < |p| && p[i].Insn? && 0 <= b < 0x1000
    requires d == Shifted(p, e, base, c) && Within(p, e, base, c, n)
    ensures b == Old(p, i) || b == Old(p, i) + 1 ==> Offset(b, c) >= n
    ensures i !in e.drop && (b == Addr(p, e, i) || b == Addr(p, e, i) + 1) ==> Offset(b, d) >= n
  {
    hide Accepted, Legal, Corresponds, Shifted, Addr, Offset, Wrap;
    OffsetAt(c, Offset(b, c), b);
    OffsetAt(d, Offset(b, d), b);
    if Offset(b, c) < n {
      assert PairAt(p, e, base, c, Offset(b, c));
      InsnApart(p, e, i, b, Wrap(d + Offset(b, c)));
    }
    if Offset(b, d) < n {
      assert PairAt(p, e, base, c, Offset(b, d));
      InsnApart(p, e, i, Wrap(c + Offset(b, d)), b);
    }
  }

  lemma {:induction false} InRange(p: Source, e: Edit, t: nat)
    requires Accepted(p) && t < |p|
    ensures Addr(p, e, t) <= Old(p, t) < Old(p, t + 1) <= 0x1000
  {
    assert forall k :: 0 <= k < |p| ==> StmtOk(p, p[k]);
    OldIncreases(p, t, t + 1);
    OldIncreases(p, t + 1, |p|);
    NewBelowOld(p, e, t);
    hide Addr;
  }

  // ----------------------------------------------------- the registers kept

  /** Registers in step before an instruction both programs execute are equal
      but for what it loads. */
  lemma {:induction false} RegsKept(p: Source, e: Edit, i: nat, a: Regs, b: Regs)
    requires Legal(p, e) && Sound(p, e) && i < |p| && p[i].Insn? && i !in e.drop && RegsMatch(p, e, i, a, b)
    ensures a == b || (i > 0 && Loose(p, e, i - 1) && Behind(p[i - 1].op, p[i].op) && Apart(p[i - 1].op, a, b))
  {
    LooseNext(p, e, i);
    if i > 0 && Loose(p, e, i - 1) { assert Rightly(p[i - 1].op, p[i - 1 + 1].op, true); }
    hide Top, X, Y, Loose, NoOp, Apart, Legal, LoadsRegister, Covers;
  }

  /** `b` makes good for a dropped `a`. */
  predicate Behind(a: word, b: word)
  {
    X(a) == X(b) && LoadsRegister(a) && LoadsRegister(b) && Covers(a, b)
  }

  lemma {:induction false} LoadKept(a: word, b: word, c: Core, d: Core, inp: Input)
    requires Behind(a, b) && Apart(a, c.regs, d.regs) && Load(c.mem, c.i, DataRead(b)) == Load(d.mem, d.i, DataRead(b))
    requires WaitsForKey(b) ==> inp.key.Some?
    ensures LoadedRegs(b, c, inp) == LoadedRegs(b, d, inp)
  {
    hide Y, N, Load;
    LoadKinds(b);
  }

  /** An instruction both programs execute unchanged, falling through. */
  lemma {:induction false} KeptSame(p: Source, e: Edit, i: nat, c: Core, d: Core, inp: Input)
    requires Legal(p, e) && Sound(p, e) && i < |p| && p[i].Insn? && i !in e.drop && RegsMatch(p, e, i, c.regs, d.regs) && c.lit == d.lit
    requires Load(c.mem, c.i, DataRead(p[i].op)) == Load(d.mem, d.i, DataRead(p[i].op))
    requires i > 0 && Loose(p, e, i - 1) && WaitsForKey(p[i].op) ==> inp.key.Some?
    ensures SameOutcome(p[i].op, ExecStraight(p[i].op, c, inp), ExecStraight(p[i].op, d, inp), c, d)
  {
    var op := p[i].op;
    RegsKept(p, e, i, c.regs, d.regs);
    if c.regs == d.regs {
      StraightSame(op, c, d, inp);
    } else {
      LoadKept(p[i - 1].op, op, c, d, inp);
      LoadStraight(op, c, inp);
      LoadStraight(op, d, inp);
      LoadNext(op, c);
      LoadNext(op, d);
    }
    hide ExecStraight, LoadsRegister, RegsMatch, Top, X, Y, Load, Legal, Sound, NextI, NextMem, Covers, Apart, LoadedRegs;
  }

  lemma LoadNext(op: word, c: Core)
    requires LoadsRegister(op)
    ensures NextI(op, c) == c.i && NextMem(op, c) == c.mem
  {
    LoadKinds(op);
    hide X, N, Store;
  }

  /** After a statement both execute, nothing is pending at the next one unless
      it was folded. */
  lemma {:induction false} NothingPending(p: Source, e: Edit, i: nat, a: Regs, b: Regs)
    requires Legal(p, e) && i + 1 < |p| && i !in e.drop && i !in e.total && a == b
    ensures RegsMatch(p, e, i + 1, a, b)
  {
    hide DropOk;
  }

  /** A folded load: the compacted program is one addition ahead. */
  lemma {:induction false} FoldPending(p: Source, e: Edit, i: nat, a: Regs, b: Regs)
    requires Legal(p, e) && Sound(p, e) && i < |p| && i in e.total && RegsMatch(p, e, i, a, b)
    ensures i + 1 < |p| && i !in e.drop && p[i].Insn? && Top(p[i].op) == 6
    ensures
      var x := X(p[i].op);
      RegsMatch(p, e, i + 1, a[x := KK(p[i].op)], b[x := e.total[i]])
  {
    assert FoldedAt(p, e, i + 1);
    RegsKept(p, e, i, a, b);
    if a != b { ApartFold(p[i - 1].op, p[i].op, a, b); }
    hide Top, X, Y, KK, LoadsRegister, RegsMatch, Covers, Apart;
    FoldShape(p, e, i, a[X(p[i].op) := KK(p[i].op)], b[X(p[i].op) := e.total[i]]);
  }

  lemma {:induction false} ApartFold(a: word, b: word, r: Regs, s: Regs)
    requires Behind(a, b) && Top(b) == 6 && Apart(a, r, s)
    ensures forall x :: 0 <= x < 16 && x != X(b) ==> r[x] == s[x]
  {
    hide Y, N, KK;
    NoOpKinds(b);
  }

  lemma {:induction false} FoldShape(p: Source, e: Edit, i: nat, a: Regs, b: Regs)
    requires i + 1 < |p| && FoldedAt(p, e, i + 1)
    requires a[X(p[i].op)] == KK(p[i].op) && b[X(p[i].op)] == e.total[i]
    requires forall r :: 0 <= r < 16 && r != X(p[i].op) ==> a[r] == b[r]
    ensures RegsMatch(p, e, i + 1, a, b)
  {
    hide Top, X, KK;
    var x := X(p[i + 1].op);
    assert b == a[x := Plus(a[x], KK(p[i + 1].op))];
  }

  // ------------------------------------------------------------- one step

  /** Memory and I are as they were. */
  predicate Untouched(s: Side, t: Side)
  {
    t.core.mem == s.core.mem && t.core.i == s.core.i
  }

  lemma TopOfWord(n: int, a: int)
    requires 0 <= n < 0x10 && 0 <= a < 0x1000
    ensures var op: word := 0x1000 * n + a; Top(op) == n && NNN(op) == a
  {}

  /** What a statement with a label operand assembles to. */
  lemma {:induction false} AssembledTarget(p: Source, e: Edit, i: nat)
    requires Accepted(p) && i < |p| && p[i].Insn? && p[i].target.Some? && i !in e.total
    ensures p[i].target.value <= |p| && 0 <= Assembled(p, e, i) < 0x10000
    ensures var op: word := Assembled(p, e, i); Top(op) == Top(p[i].op) && NNN(op) == Addr(p, e, p[i].target.value)
  {
    assert StmtOk(p, p[i]);
    NewBelowOld(p, e, p[i].target.value);
    TopOfWord(Top(p[i].op), Addr(p, e, p[i].target.value));
    hide Addr, Top, NNN;
  }

  lemma {:induction false} Fetches(p: Source, e: Edit, i: nat, a: Side, b: Side)
    requires Related(p, e, i, a, b) && p[i].Insn?
    ensures p[i].target.Some? ==> p[i].target.value <= |p|
    ensures OpAt(a.core.mem, a.core.pc) == Assembled(p, UNCHANGED, i)
    ensures i !in e.drop ==> OpAt(b.core.mem, b.core.pc) == Assembled(p, e, i)
  {
    hide OpAt, Addr, Frames, RegsMatch, Assembled;
    assert StmtOk(p, p[i]);
    assert HoldsAt(p, UNCHANGED, a.core.mem, i);
    if i !in e.drop { assert HoldsAt(p, e, b.core.mem, i); }
  }

  /** The next statement, in both programs. */
  lemma {:induction false} NextAddr(p: Source, e: Edit, i: nat, j: nat)
    requires Accepted(p) && i < |p| && j < |p| && p[i].Insn?
    requires Old(p, j) == (Old(p, i) + 2) % 0x10000
    ensures j == i + 1 && Addr(p, e, j) == Addr(p, e, i) + if i in e.drop then 0 else 2
  {
    InRange(p, e, i);
    assert Old(p, i + 1) == Old(p, i) + 2;
    SameStatement(p, i + 1, j);
    hide Old;
  }

  /** A dropped statement: the original passes it, the compacted program is
      already behind it. */
  lemma {:induction false} PassDropped(p: Source, e: Edit, i: nat, a: Side, b: Side, inp: Input, j: nat)
    requires Related(p, e, i, a, b) && Legal(p, e) && Sound(p, e) && AtStmt(p, i, a) && i in e.drop
    requires StepWith(inp, a).Some? && j < |p| && StepWith(inp, a).value.core.pc == Old(p, j)
    ensures j == i + 1 && Related(p, e, j, StepWith(inp, a).value, b)
    ensures StepWith(inp, a).value.core.mem == a.core.mem && (!LoadsI(p[i].op) ==> StepWith(inp, a).value.core.i == a.core.i)
  {
    hide OpAt, Frames, Addr, ExecCore, Legal, Sound, Allowed, LoadsRegister, LoadsI, Top, X, Dropped, RegsMatch, Assembled, FoldedAt, NoOp, Loose,
      WaitsForKey, DeadAt;
    DropKinds(p, e, i);
    Fetches(p, e, i, a, b);
    DroppedWord(p, e, i);
    var op := p[i].op;
    assert StmtOk(p, p[i]);
    if LoadsI(op) {
      DroppedStep(OpAt(a.core.mem, a.core.pc), a.core, inp);
      DroppedLoadI(OpAt(a.core.mem, a.core.pc), op, a.core, inp);
    } else {
      DroppedStep(op, a.core, inp);
    }
    NextAddr(p, e, i, j);
    RegsDropped(p, e, i, a.core, b.core.regs, inp);
    assert a.sent + [] == a.sent;
  }

  lemma {:induction false} DroppedLoadI(w: word, op: word, c: Core, inp: Input)
    requires LoadsI(w) && LoadsI(op)
    ensures Dropped(w, c, inp) == Dropped(op, c, inp)
  {}

  /** What stands in memory for a statement that may be dropped. */
  lemma {:induction false} DroppedWord(p: Source, e: Edit, i: nat)
    requires Accepted(p) && i < |p| && p[i].Insn? && (LoadsRegister(p[i].op) || Top(p[i].op) == 7 || LoadsI(p[i].op))
    ensures p[i].target.Some? ==> p[i].target.value <= |p|
    ensures 0 <= Assembled(p, UNCHANGED, i) < 0x10000
    ensures !LoadsI(p[i].op) ==> Assembled(p, UNCHANGED, i) == p[i].op
    ensures LoadsI(p[i].op) ==> LoadsI(Assembled(p, UNCHANGED, i))
  {
    assert StmtOk(p, p[i]);
    LoadKinds(p[i].op);
    if p[i].target.Some? { AssembledTarget(p, UNCHANGED, i); }
    hide Addr, N, KK, X, Y, NNN, LoadsRegister;
  }

  /** A kept statement without a label operand assembles to itself, unless it
      takes in the addition behind it. */
  lemma {:induction false} KeptWord(p: Source, e: Edit, i: nat)
    requires Accepted(p) && Legal(p, e) && i < |p| && p[i].Insn? && p[i].target.None?
    ensures Assembled(p, UNCHANGED, i) == p[i].op
    ensures i !in e.total ==> Assembled(p, e, i) == p[i].op
    ensures i in e.total ==>
      && Top(p[i].op) == 6
      && var w := Assembled(p, e, i);
         0 <= w < 0x10000 && Top(w) == 6 && X(w) == X(p[i].op) && KK(w) == e.total[i]
  {
    if i in e.total {
      assert FoldedAt(p, e, i + 1);
      FoldedWord(X(p[i].op), e.total[i]);
    }
    hide Top, X, KK, DropOk;
  }

  lemma FoldedWord(x: nibble, k: byte)
    ensures
      var xi: int, ki: int := x, k;
      var w: word := 0x6000 + 0x100 * xi + ki;
      Top(w) == 6 && X(w) == x && KK(w) == k
  {}

  lemma {:induction false} FoldLoad(op: word, c: Core, inp: Input)
    requires Top(op) == 6
    ensures ExecCore(op, c, inp) == Some(SkipIf(c.(regs := c.regs[X(op) := KK(op)]), false)) && Sends(op, c) == []
  {
    LoadStep(op, c, inp);
    hide Top, X, KK, ExecCore, SkipIf;
  }

  /** The load that takes in an addition. */
  lemma {:induction false} PassFold(p: Source, e: Edit, i: nat, a: Side, b: Side, inp: Input, j: nat)
    requires Related(p, e, i, a, b) && Legal(p, e) && Sound(p, e) && AtStmt(p, i, a) && i in e.total
    requires StepWith(inp, a).Some? && j < |p| && StepWith(inp, a).value.core.pc == Old(p, j)
    ensures StepWith(inp, b).Some? && Related(p, e, j, StepWith(inp, a).value, StepWith(inp, b).value)
    ensures Untouched(a, StepWith(inp, a).value) && Untouched(b, StepWith(inp, b).value)
  {
    hide OpAt, Frames, Addr, ExecCore, Legal, Sound, Allowed, Top, X, KK, RegsMatch, Assembled, Loose;
    FoldPending(p, e, i, a.core.regs, b.core.regs);
    assert StmtOk(p, p[i]);
    FoldTarget(p[i].op);
    Fetches(p, e, i, a, b);
    KeptWord(p, e, i);
    FoldLoad(OpAt(a.core.mem, a.core.pc), a.core, inp);
    FoldLoad(OpAt(b.core.mem, b.core.pc), b.core, inp);
    NextAddr(p, e, i, j);
    InRange(p, e, i);
    assert a.sent + [] == a.sent && b.sent + [] == b.sent;
  }

  lemma FoldTarget(op: word)
    ensures Top(op) == 6 ==> Top(op) !in {1, 2, 0xA}
  {}

  lemma {:induction false} SendsSame(op: word, c: Core, d: Core)
    requires c.regs == d.regs || LoadsRegister(op)
    ensures Sends(op, c) == Sends(op, d)
  {
    LoadKinds(op);
    hide X, N;
  }

  /** Any other instruction that falls through. */
  lemma {:induction false} PassFalls(p: Source, e: Edit, i: nat, base: Option<nat>, a: Side, b: Side, inp: Input, j: nat)
    requires Related(p, e, i, a, b) && Legal(p, e) && Sound(p, e) && Stands(p, e, i, base, inp, a)
    requires DataRelated(p, e, i, base, a.core, b.core)
    requires i !in e.drop && i !in e.total && Falls(p[i].op) && p[i].target.None?
    requires StepWith(inp, a).Some? && j < |p| && StepWith(inp, a).value.core.pc == Old(p, j)
    ensures j == i + 1 && StepWith(inp, b).Some? && Related(p, e, j, StepWith(inp, a).value, StepWith(inp, b).value)
    ensures DataRelated(p, e, j, NextBase(p[i], base), StepWith(inp, a).value.core, StepWith(inp, b).value.core)
  {
    hide OpAt, Frames, Addr, ExecCore, ExecStraight, Legal, Sound, DataRead, DataWritten, Top, X, KK, RegsMatch, Assembled, Falls, LoadsRegister,
      Sends, Load, Within, SameData, IMatch, NextI, NextMem, Loaded, NextBase, WaitsForKey, Loose;
    var op := p[i].op;
    Fetches(p, e, i, a, b);
    KeptWord(p, e, i);
    FallsCore(op, a.core, inp);
    FallsCore(op, b.core, inp);
    DataReads(p, e, i, base, a.core, b.core);
    KeptSame(p, e, i, a.core, b.core, inp);
    RegsKept(p, e, i, a.core.regs, b.core.regs);
    SendsSame(op, a.core, b.core);
    NextAddr(p, e, i, j);
    InRange(p, e, i);
    NothingPending(p, e, i, ExecStraight(op, a.core, inp).value.regs, ExecStraight(op, b.core, inp).value.regs);
    DataNext(p, e, i, base, a.core, b.core);
  }

  /** At an instruction that touches memory I is in step. */
  lemma {:induction false} InStep(p: Source, e: Edit, i: nat, base: Option<nat>, a: word, b: word)
    requires Legal(p, e) && i < |p| && p[i].Insn? && IMatch(p, e, i, base, a, b)
    ensures LoadsI(p[i].op) || b == Shifted(p, e, base, a)
  {
    hide Addr, Legal, LoadsI;
    if i > 0 && i - 1 in e.drop { DropKinds(p, e, i - 1); }
  }

  lemma TouchKinds(op: word)
    ensures Touched(op) > 0 ==> !LoadsI(op) && Top(op) in {0xD, 0xF}
    ensures DataWritten(op) > 0 ==> Touched(op) == DataWritten(op) <= 0x10 && !LoadsRegister(op)
    ensures DataRead(op) > 0 ==> Touched(op) == DataRead(op)
    ensures LoadsI(op) ==> !LoadsRegister(op)
    ensures Top(op) == 0xF && KK(op) in {0x1E, 0x29} ==> !LoadsRegister(op) && !LoadsI(op)
  {
    hide X, N;
  }

  lemma {:induction false} DataReads(p: Source, e: Edit, i: nat, base: Option<nat>, c: Core, d: Core)
    requires Legal(p, e) && i < |p| && p[i].Insn? && DataRelated(p, e, i, base, c, d) && Within(p, e, base, c.i, Touched(p[i].op))
    ensures Load(c.mem, c.i, DataRead(p[i].op)) == Load(d.mem, d.i, DataRead(p[i].op))
  {
    hide Addr, Legal, LoadsI, Top, Within, DataRead, DataWritten, Shifted, SameData, IMatch, Load;
    TouchKinds(p[i].op);
    InStep(p, e, i, base, c.i, d.i);
    if DataRead(p[i].op) > 0 {
      LoadCorresponds(p, e, base, c, d, DataRead(p[i].op));
    } else {
      NothingLoaded(c, d);
    }
  }

  lemma NothingLoaded(c: Core, d: Core)
    ensures Load(c.mem, c.i, 0) == Load(d.mem, d.i, 0)
  {}

  /** I and memory after an instruction that falls through. */
  lemma {:induction false} DataNext(p: Source, e: Edit, i: nat, base: Option<nat>, c: Core, d: Core)
    requires Accepted(p) && Legal(p, e) && Sound(p, e) && i < |p| && p[i].Insn? && p[i].target.None? && i !in e.drop
    requires RegsMatch(p, e, i, c.regs, d.regs)
    requires DataRelated(p, e, i, base, c, d) && Within(p, e, base, c.i, Touched(p[i].op))
    requires Loaded(p, UNCHANGED, c.mem) && Loaded(p, e, d.mem)
    ensures SameData(p, e, NextMem(p[i].op, c), NextMem(p[i].op, d))
    ensures IMatch(p, e, i + 1, NextBase(p[i], base), NextI(p[i].op, c), NextI(p[i].op, d))
    ensures Loaded(p, UNCHANGED, NextMem(p[i].op, c)) && Loaded(p, e, NextMem(p[i].op, d))
  {
    hide Addr, Legal, Sound, Within, DataRead, DataWritten, Touched, SameData, Loaded, Accepted, Written, Store, X, KK, Top, NNN, LoadsRegister,
      RegsMatch, Loose, Covers, Apart, Shifted;
    var op := p[i].op;
    TouchKinds(op);
    InStep(p, e, i, base, c.i, d.i);
    RegsKept(p, e, i, c.regs, d.regs);
    if DataWritten(op) > 0 {
      WrittenSame(op, c, d);
      StoreCorresponds(p, e, base, c, d, Written(op, c));
      StoreLoaded(p, e, base, c, d, Written(op, c));
    }
    if Top(op) == 0xF && KK(op) == 0x1E { ShiftAdd(p, e, base, c.i, c.regs[X(op)]); }
    ShiftNone(p, e, NextI(op, c));
  }

  lemma WrittenSame(op: word, c: Core, d: Core)
    requires c.regs == d.regs
    ensures Written(op, c) == Written(op, d)
  {}

  lemma ShiftNone(p: Source, e: Edit, i: word)
    ensures Shifted(p, e, None, i) == i
  {}

  lemma {:induction false} ShiftAdd(p: Source, e: Edit, base: Option<nat>, i: word, v: byte)
    ensures (Shifted(p, e, base, i) + v) % 0x10000 == Shifted(p, e, base, (i + v) % 0x10000)
  {
    hide Addr;
  }

  /** LD I with a label operand: the two programs load different addresses. */
  lemma {:induction false} PassLoadI(p: Source, e: Edit, i: nat, a: Side, b: Side, inp: Input, j: nat)
    requires Related(p, e, i, a, b) && Legal(p, e) && Sound(p, e) && AtStmt(p, i, a)
    requires i !in e.drop && LoadsI(p[i].op) && p[i].target.Some?
    requires StepWith(inp, a).Some? && j < |p| && StepWith(inp, a).value.core.pc == Old(p, j)
    ensures j == i + 1 && StepWith(inp, b).Some? && Related(p, e, j, StepWith(inp, a).value, StepWith(inp, b).value)
    ensures StepWith(inp, a).value.core.mem == a.core.mem && StepWith(inp, b).value.core.mem == b.core.mem
    ensures StepWith(inp, b).value.core.i == Shifted(p, e, p[i].target, StepWith(inp, a).value.core.i)
  {
    hide OpAt, Frames, Addr, ExecCore, Legal, Sound, Allowed, Top, NNN, RegsMatch, Assembled;
    TotalKinds(p, e, i);
    Fetches(p, e, i, a, b);
    AssembledTarget(p, UNCHANGED, i);
    AssembledTarget(p, e, i);
    LoadIStep(OpAt(a.core.mem, a.core.pc), a.core, inp);
    LoadIStep(OpAt(b.core.mem, b.core.pc), b.core, inp);
    NextAddr(p, e, i, j);
    InRange(p, e, i);
    LoadIRegs(p, e, i, a.core.regs, b.core.regs);
    NothingPending(p, e, i, a.core.regs, b.core.regs);
    ShiftTarget(p, e, p[i].target.value);
    assert a.sent + [] == a.sent && b.sent + [] == b.sent;
  }

  lemma ShiftTarget(p: Source, e: Edit, t: nat)
    requires t <= |p| && Old(p, t) < 0x10000 && Addr(p, e, t) < 0x10000
    ensures Shifted(p, e, Some(t), Old(p, t)) == Addr(p, e, t)
  {
    hide Addr;
  }

  lemma {:induction false} TotalKinds(p: Source, e: Edit, i: nat)
    requires Legal(p, e) && i < |p| && p[i].Insn?
    ensures i in e.total ==> Top(p[i].op) == 6 && i !in e.drop
  {
    hide DropOk, Top;
    if i in e.total { assert FoldedAt(p, e, i + 1); }
  }

  /** Nothing is pending ahead of an instruction that is no load. */
  lemma {:induction false} LoadIRegs(p: Source, e: Edit, i: nat, a: Regs, b: Regs)
    requires Legal(p, e) && Sound(p, e) && i < |p| && p[i].Insn? && i !in e.drop && RegsMatch(p, e, i, a, b)
    requires Top(p[i].op) !in {6, 8, 0xF}
    ensures a == b
  {
    RegsKept(p, e, i, a, b);
    LoadKinds(p[i].op);
    hide RegsMatch, X, Y, Top, LoadsRegister, Covers, Apart, Legal, Sound;
  }

  lemma {:induction false} SkipCore(op: word, c: Core, d: Core, inp: Input)
    requires IsSkip(op) && c.regs == d.regs
    ensures ExecCore(op, c, inp).Some? <==> ExecCore(op, d, inp).Some?
    ensures ExecCore(op, c, inp).Some? ==> exists taken ::
      ExecCore(op, c, inp) == Some(SkipIf(c, taken)) && ExecCore(op, d, inp) == Some(SkipIf(d, taken))
    ensures Sends(op, c) == [] == Sends(op, d)
  {
    NotSystem(op);
    hide X, Y, KK, N, NNN, SkipIf, ExecStraight;
    var taken := if Top(op) == 0xE then inp.hit else if Top(op) == 3 then c.regs[X(op)] == KK(op)
      else if Top(op) == 4 then c.regs[X(op)] != KK(op) else if Top(op) == 5 then c.regs[X(op)] == c.regs[Y(op)]
      else c.regs[X(op)] != c.regs[Y(op)];
    if ExecCore(op, c, inp).Some? {
      assert ExecCore(op, c, inp) == Some(SkipIf(c, taken)) && ExecCore(op, d, inp) == Some(SkipIf(d, taken));
    }
  }

  /** A skip steps over exactly one kept statement in both programs. */
  lemma {:induction false} PassSkip(p: Source, e: Edit, i: nat, a: Side, b: Side, inp: Input, j: nat)
    requires Related(p, e, i, a, b) && Legal(p, e) && Sound(p, e) && AtStmt(p, i, a)
    requires i !in e.drop && IsSkip(p[i].op) && p[i].target.None?
    requires StepWith(inp, a).Some? && j < |p| && StepWith(inp, a).value.core.pc == Old(p, j)
    ensures StepWith(inp, b).Some? && Related(p, e, j, StepWith(inp, a).value, StepWith(inp, b).value)
    ensures Untouched(a, StepWith(inp, a).value) && Untouched(b, StepWith(inp, b).value)
  {
    hide OpAt, Frames, Addr, ExecCore, Legal, Sound, Allowed, Top, RegsMatch, Assembled, Sends;
    var op := p[i].op;
    SkipTop(op);
    TotalKinds(p, e, i);
    Fetches(p, e, i, a, b);
    KeptWord(p, e, i);
    LoadIRegs(p, e, i, a.core.regs, b.core.regs);
    SkipCore(op, a.core, b.core, inp);
    var taken :| ExecCore(op, a.core, inp) == Some(SkipIf(a.core, taken)) && ExecCore(op, b.core, inp) == Some(SkipIf(b.core, taken));
    InRange(p, e, i);
    if taken {
      SkipLands(p, e, i, j);
    } else {
      NextAddr(p, e, i, j);
      NextProtected(p, i);
      KeptIfProtected(p, e, j);
    }
    Kept(p, e, j, a.core.regs);
    assert a.sent + [] == a.sent && b.sent + [] == b.sent;
  }

  lemma SkipTop(op: word)
    ensures IsSkip(op) ==> Top(op) !in {6, 8, 0xF, 0xA}
  {}

  lemma {:induction false} NextProtected(p: Source, i: nat)
    requires i + 1 < |p| && p[i].Insn? && IsSkip(p[i].op)
    ensures Protected(p, i + 1)
  {
    assert Old(p, i) + 2 == Old(p, i + 1);
    hide Addr, IsSkip;
  }

  /** Equal registers match on arrival at any statement that is not the second
      half of a fold. */
  lemma {:induction false} Kept(p: Source, e: Edit, j: nat, a: Regs)
    requires j < |p| && !FoldedAt(p, e, j)
    ensures RegsMatch(p, e, j, a, a)
  {}

  lemma {:induction false} JumpCore(op: word, c: Core, inp: Input)
    requires Top(op) == 1
    ensures ExecCore(op, c, inp) == Some(c.(pc := NNN(op))) && Sends(op, c) == []
  {
    NotSystem(op);
    hide X, KK, NNN, ExecStraight;
  }

  lemma {:induction false} CallCore(op: word, c: Core, inp: Input)
    requires Top(op) == 2
    ensures ExecCore(op, c, inp) == ExecCall(c, NNN(op)) && Sends(op, c) == []
  {
    NotSystem(op);
    hide X, KK, NNN, ExecStraight, ExecCall;
  }

  lemma {:induction false} ReturnCore(op: word, c: Core, inp: Input)
    requires op == 0x00EE
    ensures ExecCore(op, c, inp) == ExecReturn(c) && Sends(op, c) == []
  {
    assert Top(0x00EE) == 0;
    hide X, KK, NNN, ExecStraight, ExecReturn;
  }

  /** A jump or call can only get to a statement through its label. */
  lemma {:induction false} JumpTarget(p: Source, e: Edit, i: nat, j: nat)
    requires Accepted(p) && Legal(p, e) && i < |p| && p[i].Insn? && IsJump(p[i].op) && i !in e.total && j < |p|
    requires p[i].target.Some? ==> p[i].target.value <= |p|
    requires 0 <= Assembled(p, UNCHANGED, i) < 0x10000 && NNN(Assembled(p, UNCHANGED, i)) == Old(p, j)
    ensures p[i].target == Some(j) && j !in e.drop
    ensures 0 <= Assembled(p, e, i) < 0x10000 && NNN(Assembled(p, e, i)) == Addr(p, e, j)
    ensures Top(Assembled(p, UNCHANGED, i)) == Top(Assembled(p, e, i)) == Top(p[i].op)
  {
    hide Addr, NNN, Top;
    assert StmtOk(p, p[i]);
    if p[i].target.None? {
      NumberOutside(p, i, j);
    } else {
      AssembledTarget(p, UNCHANGED, i);
      AssembledTarget(p, e, i);
      SameStatement(p, p[i].target.value, j);
      assert Protected(p, j);
      KeptIfProtected(p, e, j);
    }
  }

  lemma {:induction false} NumberOutside(p: Source, i: nat, j: nat)
    requires Accepted(p) && i < |p| && j < |p| && p[i].Insn? && IsJump(p[i].op) && p[i].target.None?
    ensures NNN(p[i].op) != Old(p, j)
  {
    assert StmtOk(p, p[i]);
    assert forall k :: 0 <= k < |p| ==> StmtOk(p, p[k]);
    OldIncreases(p, j, |p|);
    hide NNN;
  }

  lemma {:induction false} PassJump(p: Source, e: Edit, i: nat, a: Side, b: Side, inp: Input, j: nat)
    requires Related(p, e, i, a, b) && Legal(p, e) && Sound(p, e) && AtStmt(p, i, a)
    requires i !in e.drop && Top(p[i].op) == 1
    requires StepWith(inp, a).Some? && j < |p| && StepWith(inp, a).value.core.pc == Old(p, j)
    ensures StepWith(inp, b).Some? && Related(p, e, j, StepWith(inp, a).value, StepWith(inp, b).value)
    ensures Untouched(a, StepWith(inp, a).value) && Untouched(b, StepWith(inp, b).value)
  {
    hide OpAt, Frames, Addr, ExecCore, Legal, Sound, Allowed, Top, NNN, RegsMatch, Assembled, Sends;
    TotalKinds(p, e, i);
    Fetches(p, e, i, a, b);
    JumpWord(p, i);
    JumpCore(OpAt(a.core.mem, a.core.pc), a.core, inp);
    JumpTarget(p, e, i, j);
    JumpCore(OpAt(b.core.mem, b.core.pc), b.core, inp);
    LoadIRegs(p, e, i, a.core.regs, b.core.regs);
    Kept(p, e, j, a.core.regs);
    assert a.sent + [] == a.sent && b.sent + [] == b.sent;
  }

  lemma {:induction false} JumpWord(p: Source, i: nat)
    requires Accepted(p) && i < |p| && p[i].Insn? && IsJump(p[i].op)
    ensures p[i].target.Some? ==> p[i].target.value <= |p|
    ensures 0 <= Assembled(p, UNCHANGED, i) < 0x10000 && Top(Assembled(p, UNCHANGED, i)) == Top(p[i].op)
  {
    assert StmtOk(p, p[i]);
    if p[i].target.Some? { AssembledTarget(p, UNCHANGED, i); }
    hide Addr, Top;
  }

  lemma {:induction false} FramesPush(p: Source, e: Edit, s: seq<word>, t: seq<word>, i: nat)
    requires Frames(p, e, s, t) && i < |p| && p[i].Insn? && Top(p[i].op) == 2 && i !in e.drop
    requires Old(p, i + 1) < 0x10000 && Addr(p, e, i + 1) < 0x10000
    ensures Frames(p, e, s + [Old(p, i + 1)], t + [Addr(p, e, i + 1)])
    ensures |s| == |t|
  {
    FramesLength(p, e, s, t);
    hide Addr, Top;
    var u, v := s + [Old(p, i + 1)], t + [Addr(p, e, i + 1)];
    assert u[..|u| - 1] == s && v[..|v| - 1] == t;
    assert CallBefore(p, e, i + 1);
    assert Framed(p, e, u[|u| - 1], v[|v| - 1]);
  }

  lemma {:induction false} FramesLength(p: Source, e: Edit, s: seq<word>, t: seq<word>)
    requires Frames(p, e, s, t)
    ensures |s| == |t|
    decreases |s|
  {
    if s != [] { FramesLength(p, e, s[..|s| - 1], t[..|t| - 1]); }
  }

  lemma {:induction false} PassCall(p: Source, e: Edit, i: nat, a: Side, b: Side, inp: Input, j: nat)
    requires Related(p, e, i, a, b) && Legal(p, e) && Sound(p, e) && AtStmt(p, i, a)
    requires i !in e.drop && Top(p[i].op) == 2
    requires StepWith(inp, a).Some? && j < |p| && StepWith(inp, a).value.core.pc == Old(p, j)
    ensures StepWith(inp, b).Some? && Related(p, e, j, StepWith(inp, a).value, StepWith(inp, b).value)
    ensures Untouched(a, StepWith(inp, a).value) && Untouched(b, StepWith(inp, b).value)
  {
    hide OpAt, Frames, Addr, ExecCore, Legal, Sound, Allowed, Top, NNN, RegsMatch, Assembled, Sends;
    TotalKinds(p, e, i);
    Fetches(p, e, i, a, b);
    JumpWord(p, i);
    CallCore(OpAt(a.core.mem, a.core.pc), a.core, inp);
    JumpTarget(p, e, i, j);
    CallCore(OpAt(b.core.mem, b.core.pc), b.core, inp);
    LoadIRegs(p, e, i, a.core.regs, b.core.regs);
    Kept(p, e, j, a.core.regs);
    CallReturns(p, e, i);
    FramesPush(p, e, a.core.stack, b.core.stack, i);
    assert a.sent + [] == a.sent && b.sent + [] == b.sent;
  }

  /** The address a call pushes is that of the statement behind it. */
  lemma {:induction false} CallReturns(p: Source, e: Edit, i: nat)
    requires Accepted(p) && i < |p| && p[i].Insn? && i !in e.drop
    ensures Old(p, i + 1) == (Old(p, i) + 2) % 0x10000 && Addr(p, e, i + 1) == (Addr(p, e, i) + 2) % 0x10000
    ensures Old(p, i + 1) < 0x10000 && Addr(p, e, i + 1) < 0x10000
  {
    InRange(p, e, i);
    NewBelowOld(p, e, i + 1);
    assert Old(p, i + 1) == Old(p, i) + 2 && Addr(p, e, i + 1) == Addr(p, e, i) + 2;
    hide Old;
  }

  lemma {:induction false} FramesPop(p: Source, e: Edit, s: seq<word>, t: seq<word>, j: nat)
    requires Accepted(p) && Legal(p, e) && Frames(p, e, s, t) && s != [] && j < |p| && s[|s| - 1] == Old(p, j)
    ensures t != [] && Frames(p, e, s[..|s| - 1], t[..|t| - 1]) && t[|t| - 1] == Addr(p, e, j) && !FoldedAt(p, e, j)
  {
    hide Addr;
    assert Framed(p, e, s[|s| - 1], t[|t| - 1]);
    var k :| 0 < k <= |p| && CallBefore(p, e, k) && s[|s| - 1] == Old(p, k) && t[|t| - 1] == Addr(p, e, k);
    SameStatement(p, k, j);
    TotalKinds(p, e, j - 1);
    hide Top;
  }

  lemma {:induction false} PassReturn(p: Source, e: Edit, i: nat, a: Side, b: Side, inp: Input, j: nat)
    requires Related(p, e, i, a, b) && Legal(p, e) && Sound(p, e) && AtStmt(p, i, a)
    requires i !in e.drop && p[i].op == 0x00EE
    requires StepWith(inp, a).Some? && j < |p| && StepWith(inp, a).value.core.pc == Old(p, j)
    ensures StepWith(inp, b).Some? && Related(p, e, j, StepWith(inp, a).value, StepWith(inp, b).value)
    ensures Untouched(a, StepWith(inp, a).value) && Untouched(b, StepWith(inp, b).value)
  {
    assert Top(0x00EE) == 0;
    hide OpAt, Addr, ExecCore, Legal, Sound, Allowed, Top, RegsMatch, Assembled, Sends, Frames;
    assert StmtOk(p, p[i]);
    TotalKinds(p, e, i);
    Fetches(p, e, i, a, b);
    KeptWord(p, e, i);
    ReturnCore(0x00EE, a.core, inp);
    ReturnCore(0x00EE, b.core, inp);
    LoadIRegs(p, e, i, a.core.regs, b.core.regs);
    FramesPop(p, e, a.core.stack, b.core.stack, j);
    Kept(p, e, j, a.core.regs);
    assert a.sent + [] == a.sent && b.sent + [] == b.sent;
  }

  /** Every instruction a run may execute is one of the kinds above. */
  lemma AllKinds(op: word)
    requires Allowed(op)
    ensures op == 0x00EE || IsSkip(op) || Top(op) == 1 || Top(op) == 2 || Falls(op)
    ensures LoadsI(op) ==> Falls(op)
    ensures IsSkip(op) || Falls(op) || op == 0x00EE ==> !IsJump(op)
    ensures IsSkip(op) || op == 0x00EE ==> !LoadsI(op)
    ensures op == 0x00EE ==> Top(op) == 0
  {
    hide X, N, KK;
  }

  /** One step of the original is one step of the compacted program, or none
      when the statement was dropped. */
  lemma {:induction false} StepRelated(p: Source, e: Edit, i: nat, base: Option<nat>, a: Side, b: Side, inp: Input, j: nat)
    requires Related(p, e, i, a, b) && DataRelated(p, e, i, base, a.core, b.core)
    requires Legal(p, e) && Sound(p, e) && Stands(p, e, i, base, inp, a)
    requires StepWith(inp, a).Some? && j < |p| && StepWith(inp, a).value.core.pc == Old(p, j)
    ensures i !in e.drop ==> StepWith(inp, b).Some?
    ensures
      var c, d := StepWith(inp, a).value, if i in e.drop then b else StepWith(inp, b).value;
      Related(p, e, j, c, d) && DataRelated(p, e, j, NextBase(p[i], base), c.core, d.core)
  {
    hide Related, Legal, Sound, StepWith, Allowed, Falls, Top, Addr, Within, SameData, Shifted, KK, WaitsForKey, Loose;
    var op := p[i].op;
    AllKinds(op);
    assert StmtOk(p, p[i]) by { RelatedStmt(p, e, i, a, b); }
    InStep(p, e, i, base, a.core.i, b.core.i);
    if i in e.drop {
      PassDropped(p, e, i, a, b, inp, j);
      DropKinds(p, e, i);
      LoadKinds(op);
    }
    else if i in e.total { PassFold(p, e, i, a, b, inp, j); TotalKinds(p, e, i); }
    else if IsSkip(op) { PassSkip(p, e, i, a, b, inp, j); SkipTop(op); }
    else if Top(op) == 1 { PassJump(p, e, i, a, b, inp, j); }
    else if Top(op) == 2 { PassCall(p, e, i, a, b, inp, j); }
    else if op == 0x00EE { PassReturn(p, e, i, a, b, inp, j); assert Top(0x00EE) == 0 by { ReturnTop(); } }
    else if p[i].target.Some? { TargetKinds(op); PassLoadI(p, e, i, a, b, inp, j); }
    else { PassFalls(p, e, i, base, a, b, inp, j); }
  }

  lemma TargetKinds(op: word)
    requires TakesAddress(op) && Allowed(op)
    ensures Top(op) == 1 || Top(op) == 2 || LoadsI(op)
  {}

  lemma ReturnTop()
    ensures Top(0x00EE) == 0
  {}

  lemma RelatedStmt(p: Source, e: Edit, i: nat, a: Side, b: Side)
    requires Related(p, e, i, a, b)
    ensures StmtOk(p, p[i])
  {
    hide Addr;
  }

  // ------------------------------------------------------------ whole runs

  /** What I was loaded from on arrival at the last statement of `path`. */
  function BaseAt(p: Source, path: seq<nat>): Option<nat>
  {
    if |path| <= 1 || path[|path| - 2] >= |p| then None
    else NextBase(p[path[|path| - 2]], BaseAt(p, path[..|path| - 1]))
  }

  /** The original, fed `inps`, passes the statements `path`, all instructions it
      may execute; it ends at another statement. */
  ghost predicate Passes(p: Source, e: Edit, s: Side, inps: seq<Input>, path: seq<nat>)
    decreases |inps|
  {
    && |path| == |inps| + 1 && path[|inps|] < |p|
    && RunWith(inps, s).Some? && RunWith(inps, s).value.core.pc == Old(p, path[|inps|])
    && (inps != [] ==>
          var n := |inps| - 1;
          Passes(p, e, s, inps[..n], path[..n + 1])
          && Stands(p, e, path[n], BaseAt(p, path[..n + 1]), inps[n], RunWith(inps[..n], s).value))
  }

  /** The inputs of the instructions that are left. */
  function Left(e: Edit, inps: seq<Input>, path: seq<nat>): seq<Input>
    requires |path| == |inps| + 1
  {
    if inps == [] then []
    else Left(e, inps[..|inps| - 1], path[..|inps|]) + if path[|inps| - 1] in e.drop then [] else [inps[|inps| - 1]]
  }

  /** Both programs at reset, their data loaded. */
  ghost predicate Started(p: Source, e: Edit, a: Core, b: Core)
    requires Accepted(p)
  {
    && |p| > 0 && a.pc == ENTRYPOINT == b.pc && a.stack == [] == b.stack && a.regs == b.regs && a.lit == b.lit && a.i == b.i
    && Loaded(p, UNCHANGED, a.mem) && Loaded(p, e, b.mem) && SameData(p, e, a.mem, b.mem)
  }

  /** Compaction preserves the run. Fed the inputs of the instructions that are
      left, the compacted program takes one step for each of them and ends at the
      same statement with the same display, the same timer settings sent, a
      corresponding return stack, matching registers, I and data. */
  lemma {:induction false} Preserved(p: Source, e: Edit, a: Core, b: Core, inps: seq<Input>, path: seq<nat>)
    requires Accepted(p) && Legal(p, e) && Sound(p, e) && Started(p, e, a, b)
    requires Passes(p, e, Side(a, []), inps, path)
    ensures RunWith(Left(e, inps, path), Side(b, [])).Some?
    ensures
      var c, d := RunWith(inps, Side(a, [])).value, RunWith(Left(e, inps, path), Side(b, [])).value;
      Related(p, e, path[|inps|], c, d) && DataRelated(p, e, path[|inps|], BaseAt(p, path), c.core, d.core)
    decreases |inps|
  {
    hide Legal, Sound, Related, DataRelated, StepWith, Loaded, SameData, Stands, NextBase;
    if inps == [] {
      StartRelated(p, e, a, b, path[0]);
    } else {
      var front, inp, before := inps[..|inps| - 1], inps[|inps| - 1], path[..|inps|];
      Preserved(p, e, a, b, front, before);
      StepRelated(p, e, path[|inps| - 1], BaseAt(p, before), RunWith(front, Side(a, [])).value,
                  RunWith(Left(e, front, before), Side(b, [])).value, inp, path[|inps|]);
      RunMore(Left(e, front, before), inp, Side(b, []));
      assert Left(e, front, before) + [] == Left(e, front, before);
    }
  }

  lemma {:induction false} StartRelated(p: Source, e: Edit, a: Core, b: Core, i: nat)
    requires Accepted(p) && Legal(p, e) && Started(p, e, a, b) && i < |p| && Old(p, i) == ENTRYPOINT
    ensures i == 0 && Related(p, e, 0, Side(a, []), Side(b, [])) && DataRelated(p, e, 0, None, a, b)
  {
    hide Loaded, Legal, SameData;
    SameStatement(p, i, 0);
  }
}
