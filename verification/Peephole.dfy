/** The optimizer's byte-removing peepholes, on the assembled statements: which
    may go (no-ops, overwritten loads, additions folded into the load before
    them), where everything behind them moves to, and when dropping an overwritten
    load is right. What the optimizer itself looks at is the text of the statements:
    module Optimizer. Module Compaction follows the runs of the two programs. */
module Peephole {
  import opened Chip8
  import opened Bench
  import opened Tape

  /** A statement of the source: its words, the opcode or size it assembles to,
      and the statement a label as last operand names. `labels` are those at its
      address, in the order of the source; `named` says that the last of them is
      on the statement's own line. */
  datatype Stmt =
    | Insn(text: seq<string>, op: word, target: Option<nat>, labels: seq<string>, named: bool)
    | Data(text: seq<string>, size: nat, target: Option<nat>, labels: seq<string>, named: bool)
    | Org(text: seq<string>, gap: nat, labels: seq<string>, named: bool)
  {
    function Size(): nat
    {
      match this
      case Insn(_, _, _, _, _) => 2
      case Data(_, n, _, _, _) => n
      case Org(_, n, _, _) => n
    }

    predicate Labelled() { named || labels != [] }

    /** A line with nothing but a label stands before it. */
    predicate Apart() { |labels| > if named then 1 else 0 }
  }

  type Source = seq<Stmt>

  /** `drop` are the deleted statements, `total` the folded constants, `turn` the
      tail calls turned into jumps, which move nothing. */
  datatype Edit = Edit(drop: set<nat>, total: map<nat, byte>, turn: set<nat>)

  const UNCHANGED: Edit := Edit({}, map[], {})

  /** The address of statement `i` once the edit is assembled. */
  function Addr(p: Source, e: Edit, i: nat): (a: nat)
    requires i <= |p|
    ensures a >= ENTRYPOINT
  {
    if i == 0 then ENTRYPOINT
    else Addr(p, e, i - 1) + if i - 1 in e.drop then 0 else p[i - 1].Size()
  }

  function Old(p: Source, i: nat): nat
    requires i <= |p|
  {
    Addr(p, UNCHANGED, i)
  }

  // -------------------------------------------------------------- the source

  predicate IsSkip(op: word) { Top(op) in {3, 4, 5, 9, 0xE} }

  predicate IsJump(op: word) { Top(op) in {1, 2} }

  /** JP, CALL, LD I and JP V0. */
  predicate TakesAddress(op: word) { Top(op) in {1, 2, 0xA, 0xB} }

  /** A source whose layout the optimizer may change: it fits memory, nothing
      fixes its layout, symbolic operands stay in range, and no operand names a
      ROM address by number. */
  ghost predicate Accepted(p: Source)
  {
    && Old(p, |p|) <= 0x1000
    && forall i :: 0 <= i < |p| ==> StmtOk(p, p[i])
  }

  ghost predicate StmtOk(p: Source, s: Stmt)
  {
    && !s.Org? && s.Size() > 0
    && (s.target.Some? ==> s.target.value <= |p|)
    && (s.Insn? && s.target.Some? ==> Old(p, s.target.value) < 0x1000 && TakesAddress(s.op))
    && (s.Insn? && TakesAddress(s.op) && s.target.None? ==> !(ENTRYPOINT <= NNN(s.op) < Old(p, |p|)))
  }

  // ----------------------------------------------------------- what is dropped

  /** protected_pcs: an address that must stay an instruction boundary. */
  ghost predicate Protected(p: Source, i: nat)
    requires i < |p|
  {
    || i == 0 || p[i].Labelled()
    || (exists j :: 0 <= j < |p| && p[j].Insn? && IsJump(p[j].op) && p[j].target == Some(i))
    || (exists j :: 0 <= j < |p| && p[j].Insn? && IsSkip(p[j].op) && (Old(p, j) + 2 == Old(p, i) || Old(p, j) + 4 == Old(p, i)))
  }

  /** LD Vx, Vx or ADD Vx, 0. */
  predicate NoOp(op: word)
  {
    (Top(op) == 8 && N(op) == 0 && X(op) == Y(op)) || (Top(op) == 7 && KK(op) == 0)
  }

  /** LD Vx with any source. */
  predicate LoadsRegister(op: word)
  {
    Top(op) == 6 || (Top(op) == 8 && N(op) == 0) || (Top(op) == 0xF && KK(op) in {0x07, 0x0A, 0x65})
  }

  predicate LoadsI(op: word) { Top(op) == 0xA }

  predicate WaitsForKey(op: word) { Top(op) == 0xF && KK(op) == 0x0A }

  /** Two loads of the same place in a row, the first not from K: the first is
      taken to be dead. */
  predicate Overwritten(a: word, b: word)
  {
    (LoadsRegister(a) && !WaitsForKey(a) && LoadsRegister(b) && X(a) == X(b)) || (LoadsI(a) && LoadsI(b))
  }

  predicate Folds(a: word, b: word)
  {
    Top(a) == 6 && Top(b) == 7 && X(a) == X(b)
  }

  function Sum(a: word, b: word): byte
  {
    var k: int := KK(a);
    (k + KK(b)) % 0x100
  }

  /** The statement is dropped into the constant load before it. */
  predicate FoldedAt(p: Source, e: Edit, i: nat)
    requires i < |p|
  {
    && i > 0 && i in e.drop && i - 1 in e.total && i - 1 !in e.drop
    && p[i].Insn? && p[i - 1].Insn? && Folds(p[i - 1].op, p[i].op) && e.total[i - 1] == Sum(p[i - 1].op, p[i].op)
  }

  predicate DeadAt(p: Source, i: nat)
    requires i < |p|
  {
    i + 1 < |p| && p[i].Insn? && p[i + 1].Insn? && !p[i + 1].Apart() && Overwritten(p[i].op, p[i + 1].op)
  }

  ghost predicate DropOk(p: Source, e: Edit, i: nat)
  {
    i < |p| && p[i].Insn? && !Protected(p, i) && (FoldedAt(p, e, i) || NoOp(p[i].op) || DeadAt(p, i))
  }

  /** An edit the optimizer makes. */
  ghost predicate Legal(p: Source, e: Edit)
  {
    && (forall i :: i in e.drop ==> DropOk(p, e, i))
    && (forall i :: i in e.total ==> i + 1 < |p| && FoldedAt(p, e, i + 1))
  }

  // ------------------------------------------------------------- addresses

  lemma {:induction false} OldIncreases(p: Source, i: nat, j: nat)
    requires i <= j <= |p| && forall k :: 0 <= k < |p| ==> p[k].Size() > 0
    ensures Old(p, i) <= Old(p, j) && (i < j ==> Old(p, i) < Old(p, j))
  {
    if i < j {
      assert p[j - 1].Size() > 0;
      OldIncreases(p, i, j - 1);
    }
  }

  lemma {:induction false} NewBelowOld(p: Source, e: Edit, i: nat)
    requires i <= |p|
    ensures Addr(p, e, i) <= Old(p, i)
  {
    if i > 0 { NewBelowOld(p, e, i - 1); }
  }

  lemma {:induction false} SameStatement(p: Source, i: nat, j: nat)
    requires Accepted(p) && i <= |p| && j <= |p| && Old(p, i) == Old(p, j)
    ensures i == j
  {
    assert forall k :: 0 <= k < |p| ==> StmtOk(p, p[k]);
    if i <= j { OldIncreases(p, i, j); } else { OldIncreases(p, j, i); }
    hide Addr;
  }

  /** An instruction between a skip and where it can land is protected. */
  lemma {:induction false} BetweenProtected(p: Source, i: nat, k: nat, j: nat)
    requires Accepted(p) && i < k < j < |p| && Old(p, j) == Old(p, i) + 4
    requires p[i].Insn? && IsSkip(p[i].op) && p[k].Insn?
    ensures Protected(p, k)
  {
    assert forall k :: 0 <= k < |p| ==> StmtOk(p, p[k]);
    OldIncreases(p, i + 1, k);
    OldIncreases(p, k + 1, j);
    assert Old(p, i + 1) == Old(p, i) + 2 && Old(p, k + 1) == Old(p, k) + 2;
    hide Addr;
    assert Old(p, i) + 2 == Old(p, k);
  }

  /** A skip lands as far ahead in the compacted program: both places it can
      land on are kept, and nothing between them is dropped. */
  lemma {:induction false} SkipLands(p: Source, e: Edit, i: nat, j: nat)
    requires Accepted(p) && Legal(p, e) && i < |p| && j < |p|
    requires p[i].Insn? && IsSkip(p[i].op) && i !in e.drop && Old(p, j) == Old(p, i) + 4
    ensures j > i && j !in e.drop && Addr(p, e, j) == Addr(p, e, i) + 4
  {
    hide Addr, IsSkip, DropOk;
    assert forall k :: 0 <= k < |p| ==> StmtOk(p, p[k]);
    if j <= i { OldIncreases(p, j, i); }
    assert Protected(p, j);
    forall k | i < k < j ensures k !in e.drop {
      if p[k].Insn? { BetweenProtected(p, i, k, j); }
      KeptIfProtected(p, e, k);
    }
    KeptIfProtected(p, e, j);
    SameDistance(p, e, i, j);
  }

  lemma KeptIfProtected(p: Source, e: Edit, k: nat)
    requires Legal(p, e) && k < |p|
    ensures !p[k].Insn? || Protected(p, k) ==> k !in e.drop
  {
    hide Protected;
    if k in e.drop { assert DropOk(p, e, k); }
  }

  lemma {:induction false} SameDistance(p: Source, e: Edit, i: nat, j: nat)
    requires i <= j <= |p| && forall k :: i <= k < j ==> k !in e.drop
    ensures Addr(p, e, j) - Addr(p, e, i) == Old(p, j) - Old(p, i)
  {
    if i < j { SameDistance(p, e, i, j - 1); }
  }

  // ---------------------------------------------- the overwritten-load rule

  predicate LoadsMemory(op: word) { Top(op) == 0xF && KK(op) == 0x65 }

  /** The machine after a load. */
  function After(op: word, c: Core, inp: Input): Core
  {
    match ExecStraight(op, c, inp) case Some(d) => d case None => c
  }

  /** A load from a constant, another register or the delay timer: it puts the
      same into Vx whatever is there. */
  predicate Replaces(op: word, x: nibble)
  {
    X(op) == x && (Top(op) == 6 || (Top(op) == 8 && N(op) == 0 && Y(op) != x) || (Top(op) == 0xF && KK(op) == 0x07))
  }

  /** When the rule is right: the dropped statement was a no-op, or loads I; or
      the one behind it loads all that the dropped one loaded. `keyed` says that
      a wait always ends with a key. */
  predicate Rightly(a: word, b: word, keyed: bool)
  {
    || NoOp(a) || LoadsI(a) || LoadsMemory(b)
    || ((Replaces(b, X(a)) || (keyed && WaitsForKey(b))) && (LoadsMemory(a) ==> X(a) == 0))
  }

  /** A load whose first operand is a register, by what it puts into registers. */
  function LoadValue(op: word, c: Core, inp: Input): byte
  {
    if Top(op) == 6 then KK(op) else if Top(op) == 8 then c.regs[Y(op)] else inp.delay
  }

  function LoadedRegs(op: word, c: Core, inp: Input): Regs
  {
    if LoadsMemory(op) then Load(c.mem, c.i, X(op) + 1) + c.regs[X(op) + 1..]
    else if WaitsForKey(op) then (if inp.key.Some? then c.regs[X(op) := inp.key.value] else c.regs)
    else c.regs[X(op) := LoadValue(op, c, inp)]
  }

  lemma {:induction false} LoadStraight(op: word, c: Core, inp: Input)
    requires LoadsRegister(op)
    ensures ExecStraight(op, c, inp) == Some(c.(regs := LoadedRegs(op, c, inp)))
  {
    NotSystem(op);
    hide X, Y, N, KK, NNN, Bits, Store, Load, Top;
  }

  lemma {:induction false} LoadIStraight(op: word, c: Core, inp: Input)
    requires LoadsI(op)
    ensures ExecStraight(op, c, inp) == Some(c.(i := NNN(op)))
  {
    NotSystem(op);
    hide X, Y, N, KK, NNN, Bits, Store, Load, Top;
  }

  /** Dropping `a` before `b` makes no difference on this machine. */
  predicate Unmissed(a: word, b: word, c: Core, u: Input, v: Input)
  {
    After(b, After(a, c, u), v) == After(b, c, v)
  }

  /** Dropping the first of two loads is right, whatever the machine and the
      inputs, exactly when the second one loads all that the first one loaded, or
      the first one was a no-op. */
  lemma {:induction false} OverwriteExact(a: word, b: word, keyed: bool)
    requires Overwritten(a, b)
    ensures
      (forall c: Core, u: Input, v: Input :: (keyed ==> v.key.Some?) ==> Unmissed(a, b, c, u, v))
      <==> Rightly(a, b, keyed)
  {
    hide After, Rightly, Overwritten;
    if Rightly(a, b, keyed) {
      forall c: Core, u: Input, v: Input | keyed ==> v.key.Some? ensures Unmissed(a, b, c, u, v) {
        OverwriteHolds(a, b, keyed, c, u, v);
      }
    } else {
      OverwriteFails(a, b, keyed);
    }
  }

  lemma {:induction false} OverwriteHolds(a: word, b: word, keyed: bool, c: Core, u: Input, v: Input)
    requires Overwritten(a, b) && Rightly(a, b, keyed) && (keyed ==> v.key.Some?)
    ensures After(b, After(a, c, u), v) == After(b, c, v)
  {
    hide Top, X, Y, N, KK, NNN, ExecStraight, Load;
    NoOpKinds(a);
    if LoadsI(a) {
      LoadIStraight(a, c, u);
      LoadIStraight(b, c, v);
      LoadIStraight(b, After(a, c, u), v);
    } else {
      LoadStraight(a, c, u);
      LoadStraight(b, c, v);
      LoadStraight(b, After(a, c, u), v);
      if NoOp(a) {
        assert After(a, c, u).regs == c.regs;
      } else {
        assert LoadedRegs(b, After(a, c, u), v) == LoadedRegs(b, c, v);
      }
    }
  }

  lemma NoOpKinds(a: word)
    ensures LoadsRegister(a) && NoOp(a) ==> Top(a) == 8 && X(a) == Y(a) && !LoadsMemory(a) && !WaitsForKey(a)
    ensures LoadsRegister(a) ==> !LoadsI(a)
    ensures Top(a) == 8 ==> !LoadsMemory(a) && !WaitsForKey(a)
    ensures Top(a) == 6 ==> !LoadsMemory(a) && !WaitsForKey(a)
    ensures Top(a) == 0xF && KK(a) == 0x07 ==> !LoadsMemory(a) && !WaitsForKey(a)
  {
    hide X, Y, N, KK;
  }

  /** A machine on which a load other than a no-op leaves a one in register `r`,
      where there was something else. */
  function Witness(a: word): Core
  {
    var zeros: Regs := seq(0x10, _ => 0);
    var x := X(a);
    var regs: Regs := if Top(a) == 6 then zeros[x := if KK(a) == 0 then 1 else 0] else if Top(a) == 8 then zeros[x := 1] else zeros;
    Core(regs, 0, 0, [], seq(0x1000, _ => 1), {})
  }

  const PRESSED: Input := Input(1, false, Some(0), 0)

  lemma {:induction false} WitnessLoads(a: word, r: nat)
    requires LoadsRegister(a) && !WaitsForKey(a) && !NoOp(a) && r < 0x10
    requires if LoadsMemory(a) then r <= X(a) else r == X(a)
    ensures LoadedRegs(a, Witness(a), PRESSED)[r] != Witness(a).regs[r]
  {
    hide Top, X, Y, N, KK;
    NoOpKinds(a);
  }

  /** Registers and inputs on which the rule goes wrong. */
  lemma {:induction false} OverwriteFails(a: word, b: word, keyed: bool)
    requires Overwritten(a, b) && !Rightly(a, b, keyed)
    ensures !Unmissed(a, b, Witness(a), PRESSED, if keyed then PRESSED else NO_INPUT)
  {
    hide Top, X, Y, N, KK, NNN, ExecStraight, Load, Witness;
    NoOpKinds(a);
    NoOpKinds(b);
    var c, u, v := Witness(a), PRESSED, if keyed then PRESSED else NO_INPUT;
    var r: nat := if LoadsMemory(a) && X(a) > 0 then 0 else X(a);
    LoadStraight(a, c, u);
    LoadStraight(b, c, v);
    LoadStraight(b, After(a, c, u), v);
    WitnessLoads(a, r);
    assert LoadedRegs(b, c, v)[r] == c.regs[r];
    assert LoadedRegs(b, After(a, c, u), v)[r] == After(a, c, u).regs[r];
  }
}
