/** The optimizer's control-flow analysis: a worklist over contexts, each a
    program counter with its whole return stack, carrying the constants known
    there for I and the registers. */
module Analysis {
  import opened Chip8
  import opened Bench
  import opened Tape
  import opened TailCall
  import opened Statements
  import Asm

  const ENTRY: int := 0x200
  const LIMIT: int := 0x1000
  /** I inside the interpreter's font, outside the ROM. */
  const EXTERNAL_I: int := -1

  datatype Known = Known(i: Option<int>, regs: seq<Option<int>>) {
    ghost predicate Valid() { |regs| == 16 }

    /** The k-th component: the registers, then I. */
    function Part(k: nat): Option<int>
      requires |regs| == 16 && k < 17
    {
      if k < 16 then regs[k] else i
    }
  }

  /** Where a run starts nothing is known. */
  function NothingKnown(): Known { Known(None, seq(16, _ => None)) }

  datatype Context = Context(pc: int, stack: seq<int>)

  type Incoming = map<Context, Known>

  // ------------------------------------------------------------ the domain

  function JoinPart(a: Option<int>, b: Option<int>): Option<int>
  {
    if a == b then a else None
  }

  /** A disagreeing constant becomes unknown. */
  function Join(a: Known, b: Known): (r: Known)
    requires a.Valid() && b.Valid()
    ensures r.Valid()
  {
    Known(JoinPart(a.i, b.i), seq(16, k requires 0 <= k < 16 => JoinPart(a.regs[k], b.regs[k])))
  }

  /** `a` claims no more than `b`. */
  ghost predicate Below(a: Known, b: Known)
  {
    a.Valid() && b.Valid() && forall k :: 0 <= k < 17 ==> a.Part(k) == None || a.Part(k) == b.Part(k)
  }

  function DynamicBase(base: int): int { -(base + 2) }

  function Added(i: Option<int>, v: Option<int>): Option<int>
  {
    match i
    case None => None
    case Some(base) =>
      if base <= -2 then Some(base)
      else match v
        case None => Some(DynamicBase(base))
        case Some(w) => Some(base + w)
  }

  function SumByte(a: Option<int>, b: Option<int>): Option<int>
  {
    if a.None? || b.None? then None else Some((a.value + b.value) % 0x100)
  }

  /** The constants after a statement. */
  function Transfer(s: Stmt, k: Known): (r: Known)
    requires k.Valid()
    ensures r.Valid()
  {
    match s
    case LdI(v) => k.(i := v)
    case LdConst(x, v) => k.(regs := k.regs[x := v])
    case LdReg(x, y) => k.(regs := k.regs[x := k.regs[y]])
    case LdF => k.(i := Some(EXTERNAL_I))
    case AddI(reg) => k.(i := Added(k.i, match reg case Some(y) => k.regs[y] case None => None))
    case AddConst(x, v) => k.(regs := k.regs[x := SumByte(k.regs[x], v)])
    case AddReg(x, y) => k.(regs := k.regs[x := SumByte(k.regs[x], k.regs[y])])
    case Unknown(x) => k.(regs := k.regs[x := None])
    case _ => k
  }

  // -------------------------------------------------------------- control

  /** Where a statement leads, with the return stack it leads there with. */
  function Transitions(s: Stmt, c: Context): seq<Context>
  {
    match s
    case CallTo(dest) =>
      if dest.None? || |c.stack| >= 16 then [] else [Context(dest.value, c.stack + [c.pc + 2])]
    case Ret =>
      if c.stack == [] then [] else [Context(c.stack[|c.stack| - 1], c.stack[..|c.stack| - 1])]
    case Jump(dest) => if dest.None? then [] else [Context(dest.value, c.stack)]
    case JumpV0 => []
    case Skip => [Context(c.pc + 2, c.stack), Context(c.pc + 4, c.stack)]
    case _ => [Context(c.pc + 2, c.stack)]
  }

  predicate InMemory(c: Context) { ENTRY <= c.pc < LIMIT }

  /** The state at `d` allows for arriving with `k`. */
  ghost predicate Absorbs(inc: Incoming, d: Context, k: Known)
  {
    InMemory(d) ==> d in inc && Below(inc[d], k)
  }

  /** Everything context `c` leads to has been accounted for. */
  ghost predicate ClosedAt(insns: map<int, Stmt>, inc: Incoming, c: Context)
    requires c in inc
  {
    inc[c].Valid() && (c.pc in insns ==>
      forall d :: d in Transitions(insns[c.pc], c) ==> Absorbs(inc, d, Transfer(insns[c.pc], inc[c])))
  }

  // ------------------------------------------------- finitely many contexts

  predicate Frame(f: int) { 0 <= f < LIMIT + 2 }

  /** The return stacks of at most `n` frames. */
  ghost function Stacks(n: nat): set<seq<int>>
  {
    if n == 0 then {[]} else Stacks(n - 1) + (set s, f | s in Stacks(n - 1) && 0 <= f < LIMIT + 2 :: s + [f])
  }

  lemma {:induction false} InStacks(s: seq<int>, n: nat)
    requires |s| <= n && forall k :: 0 <= k < |s| ==> Frame(s[k])
    ensures s in Stacks(n)
  {
    if n > 0 && s != [] {
      InStacks(s[..|s| - 1], n - 1);
      assert s == s[..|s| - 1] + [s[|s| - 1]];
    } else if n > 0 {
      InStacks(s, n - 1);
    }
  }

  ghost predicate ContextOk(c: Context)
  {
    InMemory(c) && |c.stack| <= 16 && forall k :: 0 <= k < |c.stack| ==> Frame(c.stack[k])
  }

  ghost function Contexts(): set<Context>
  {
    set pc, s | ENTRY <= pc < LIMIT && s in Stacks(16) :: Context(pc, s)
  }

  lemma {:induction false} InContexts(c: Context)
    requires ContextOk(c)
    ensures c in Contexts()
  {
    InStacks(c.stack, 16);
    hide Stacks;
  }

  /** What can still be lost: contexts not met yet, and constants still known.
      Every change of the worklist's table makes it smaller. */
  ghost function Hopes(inc: Incoming): set<(Context, int)>
  {
    set c, k | c in Contexts() && 0 <= k < 18 && Hope(inc, c, k) :: (c, k)
  }

  ghost predicate Hope(inc: Incoming, c: Context, k: int)
  {
    c !in inc || (0 <= k < 17 && inc[c].Valid() && inc[c].Part(k).Some?)
  }

  lemma {:induction false} NewContext(inc: Incoming, c: Context, k: Known)
    requires ContextOk(c) && c !in inc && k.Valid()
    ensures Hopes(inc[c := k]) < Hopes(inc)
  {
    InContexts(c);
    hide Contexts;
    assert (c, 17) in Hopes(inc) && (c, 17) !in Hopes(inc[c := k]);
    assert Hopes(inc[c := k]) <= Hopes(inc);
  }

  lemma {:induction false} LostConstant(inc: Incoming, c: Context, k: Known)
    requires ContextOk(c) && c in inc && inc[c].Valid() && k.Valid() && Join(inc[c], k) != inc[c]
    ensures Hopes(inc[c := Join(inc[c], k)]) < Hopes(inc)
  {
    InContexts(c);
    hide Contexts;
    var j := Join(inc[c], k);
    JoinDiffers(inc[c], k);
    var p :| 0 <= p < 17 && j.Part(p) != inc[c].Part(p);
    JoinPart17(inc[c], k, p);
    assert (c, p) in Hopes(inc) && (c, p) !in Hopes(inc[c := j]);
    forall q | 0 <= q < 17 ensures j.Part(q).Some? ==> inc[c].Part(q).Some? { JoinPart17(inc[c], k, q); }
    assert Hopes(inc[c := j]) <= Hopes(inc);
  }

  lemma JoinPart17(a: Known, b: Known, p: nat)
    requires a.Valid() && b.Valid() && p < 17
    ensures Join(a, b).Part(p) == JoinPart(a.Part(p), b.Part(p))
  {}

  lemma {:induction false} JoinDiffers(a: Known, b: Known)
    requires a.Valid() && b.Valid() && Join(a, b) != a
    ensures exists p :: 0 <= p < 17 && Join(a, b).Part(p) != a.Part(p)
  {
    assert Join(a, b).Part(16) == JoinPart(a.i, b.i);
    if Join(a, b).i == a.i {
      assert Join(a, b).regs != a.regs;
      var p :| 0 <= p < 16 && Join(a, b).regs[p] != a.regs[p];
      assert Join(a, b).Part(p) != a.Part(p);
    } else {
      assert Join(a, b).Part(16) != a.Part(16);
    }
  }

  lemma {:induction false} JoinBelow(a: Known, b: Known)
    requires a.Valid() && b.Valid()
    ensures Below(Join(a, b), a) && Below(Join(a, b), b)
  {
    forall k | 0 <= k < 17 ensures Join(a, b).Part(k) == JoinPart(a.Part(k), b.Part(k)) { JoinPart17(a, b, k); }
    hide Join;
  }

  lemma {:induction false} BelowTrans(a: Known, b: Known, c: Known)
    requires Below(a, b) && Below(b, c)
    ensures Below(a, c)
  {}

  lemma BelowSame(a: Known)
    requires a.Valid()
    ensures Below(a, a)
  {}

  // -------------------------------------------------------------- the loop

  ghost predicate TableOk(insns: map<int, Stmt>, inc: Incoming)
  {
    && Context(ENTRY, []) in inc && Below(inc[Context(ENTRY, [])], NothingKnown())
    && forall c :: c in inc ==> ContextOk(c) && inc[c].Valid()
  }

  /** Lowering or adding one entry keeps the others closed. */
  lemma {:induction false} StaysClosed(insns: map<int, Stmt>, inc: Incoming, d: Context, k: Known, c: Context)
    requires c in inc && c != d && ClosedAt(insns, inc, c)
    requires d in inc ==> Below(k, inc[d])
    ensures ClosedAt(insns, inc[d := k], c)
  {
    hide Transitions, Transfer, Below;
    if c.pc in insns {
      forall e | e in Transitions(insns[c.pc], c)
        ensures Absorbs(inc[d := k], e, Transfer(insns[c.pc], inc[c]))
      {
        assert Absorbs(inc, e, Transfer(insns[c.pc], inc[c]));
        if e == d && InMemory(d) { BelowTrans(k, inc[d], Transfer(insns[c.pc], inc[c])); }
      }
    }
  }

  /** The worklist has reached a fixpoint, except for what is still on it. */
  ghost predicate Settled(insns: map<int, Stmt>, inc: Incoming, work: seq<Context>)
  {
    && (forall c :: c in work ==> c in inc)
    && forall c :: c in inc ==> c in work || ClosedAt(insns, inc, c)
  }

  ghost predicate Insns(insns: map<int, Stmt>)
  {
    forall pc :: pc in insns ==> ENTRY <= pc < LIMIT
  }

  /** What merging `next` into the entry of `d` makes of it. */
  function Merged(inc: Incoming, d: Context, next: Known): Known
    requires next.Valid() && (d in inc ==> inc[d].Valid())
  {
    if d in inc then Join(inc[d], next) else next
  }

  lemma {:induction false} TransitionsOk(s: Stmt, c: Context, d: Context)
    requires ContextOk(c) && d in Transitions(s, c) && InMemory(d)
    ensures ContextOk(d)
  {}

  /** One transition merged: the table stays sound, whatever was closed stays
      closed, and either nothing changed or hope was lost. */
  lemma {:induction false} MergeOk(insns: map<int, Stmt>, inc: Incoming, work: seq<Context>, d: Context, next: Known)
    requires Insns(insns) && TableOk(insns, inc) && ContextOk(d) && next.Valid()
    ensures
      var m := Merged(inc, d, next);
      var now := inc[d := m];
      && TableOk(insns, now) && Absorbs(now, d, next)
      && (d in inc && inc[d] == m ==> now == inc)
      && (!(d in inc && inc[d] == m) ==> Hopes(now) < Hopes(inc))
      && (forall c :: c in inc && c != d && ClosedAt(insns, inc, c) ==> ClosedAt(insns, now, c))
      && (forall e, k :: e in inc && Absorbs(inc, e, k) ==> Absorbs(now, e, k))
  {
    hide Join, Transitions, Transfer, ClosedAt, Hopes, ContextOk;
    var m := Merged(inc, d, next);
    var now := inc[d := m];
    if d in inc {
      JoinBelow(inc[d], next);
      if inc[d] != m { LostConstant(inc, d, next); }
    } else {
      NewContext(inc, d, next);
      BelowSame(next);
    }
    forall c | c in inc && c != d && ClosedAt(insns, inc, c) ensures ClosedAt(insns, now, c) {
      StaysClosed(insns, inc, d, m, c);
    }
    forall e, k | e in inc && Absorbs(inc, e, k) ensures Absorbs(now, e, k) {
      if e == d && InMemory(e) { BelowTrans(m, inc[d], k); }
    }
    hide Below;
  }

  // ----------------------------------------------------------- the results

  datatype Access = Access(pc: int, kind: Kind, start: Option<int>, length: Option<int>)

  datatype Hazard =
    | ComputedJump(pc: int) | UnresolvedJump(pc: int) | UnresolvedCall(pc: int) | DeepCall(pc: int) | DynamicI(pc: int)
    | WriteIntoRom(pc: int, start: int) | SelfModifying(pc: int, code: int)

  /** What the analysis reports besides the table. */
  datatype Report = Report(reachable: set<int>, edges: set<(int, int)>, accesses: set<Access>, hazards: set<Hazard>)

  const NOTHING: Report := Report({}, {}, {}, {})

  predicate IsDynamic(base: Option<int>) { base.Some? && base.value <= -2 }

  function Dynamic(kind: Kind): Kind
  {
    match kind case Read => DynamicRead case Write => DynamicWrite case _ => kind
  }

  /** add_access: nothing for the font, the base for an offset from it. */
  function AccessesOf(s: Stmt, pc: int, k: Known): set<Access>
  {
    match Touch(s)
    case None => {}
    case Some((kind, length)) =>
      if k.i == Some(EXTERNAL_I) then {}
      else if IsDynamic(k.i) then {Access(pc, Dynamic(kind), Some(-k.i.value - 2), length)}
      else {Access(pc, kind, k.i, length)}
  }

  /** The hazards met at one statement. */
  function HazardsOf(s: Stmt, c: Context, k: Known): set<Hazard>
  {
    match s
    case JumpV0 => {ComputedJump(c.pc)}
    case Jump(dest) => if dest.None? then {UnresolvedJump(c.pc)} else {}
    case CallTo(dest) =>
      if dest.None? then {UnresolvedCall(c.pc)} else if |c.stack| >= 16 then {DeepCall(c.pc)} else {}
    case _ => if Touch(s).Some? && k.i == None then {DynamicI(c.pc)} else {}
  }

  /** The report once the statement at context `c` has been looked at. */
  function Visited(r: Report, s: Stmt, c: Context, k: Known): Report
  {
    r.(reachable := r.reachable + {c.pc}, accesses := r.accesses + AccessesOf(s, c.pc, k), hazards := r.hazards + HazardsOf(s, c, k))
  }

  /** Context `c`, with what is known there, has been looked at. */
  ghost predicate Seen(insns: map<int, Stmt>, r: Report, c: Context, k: Known)
    requires c.pc in insns
  {
    c.pc in r.reachable && AccessesOf(insns[c.pc], c.pc, k) <= r.accesses && HazardsOf(insns[c.pc], c, k) <= r.hazards
  }

  /** Context `c` has been reported. */
  ghost predicate Noted(insns: map<int, Stmt>, inc: Incoming, r: Report, c: Context)
    requires c in inc
  {
    c.pc in insns ==>
      && Seen(insns, r, c, inc[c])
      && (forall d :: d in Transitions(insns[c.pc], c) && InMemory(d) ==> (c.pc, d.pc) in r.edges)
  }

  /** Context `c` has been met with `k` known, of which no more is left now. */
  ghost predicate Met(insns: map<int, Stmt>, inc: Incoming, c: Context, k: Known)
  {
    c in inc && c.pc in insns && Below(inc[c], k)
  }

  ghost predicate Reaches(insns: map<int, Stmt>, inc: Incoming, p: int)
  {
    p in insns && exists c :: c in inc && c.pc == p
  }

  ghost predicate Accesses(insns: map<int, Stmt>, inc: Incoming, a: Access)
  {
    exists c, k :: Met(insns, inc, c, k) && a in AccessesOf(insns[c.pc], c.pc, k)
  }

  ghost predicate Risks(insns: map<int, Stmt>, inc: Incoming, h: Hazard)
  {
    exists c, k :: Met(insns, inc, c, k) && h in HazardsOf(insns[c.pc], c, k)
  }

  /** Some context leads from `p` to `q`. */
  ghost predicate Leads(insns: map<int, Stmt>, inc: Incoming, p: int, q: int)
  {
    exists c, d :: c in inc && c.pc == p && p in insns && d in Transitions(insns[p], c) && InMemory(d) && d.pc == q
  }

  /** Nothing is reported that no context shows. */
  ghost predicate Justified(insns: map<int, Stmt>, inc: Incoming, r: Report)
  {
    && (forall p :: p in r.reachable ==> Reaches(insns, inc, p))
    && (forall a :: a in r.accesses ==> Accesses(insns, inc, a))
    && (forall h :: h in r.hazards ==> Risks(insns, inc, h))
    && (forall p, q :: (p, q) in r.edges ==> Leads(insns, inc, p, q))
  }

  ghost predicate Progress(insns: map<int, Stmt>, inc: Incoming, work: seq<Context>, r: Report)
  {
    && TableOk(insns, inc) && Settled(insns, inc, work) && Justified(insns, inc, r)
    && forall c :: c in inc ==> c in work || Noted(insns, inc, r, c)
  }

  /** Handling `c`, whose first `t` transitions have been merged. */
  ghost predicate Handling(insns: map<int, Stmt>, inc: Incoming, work: seq<Context>, r: Report, c: Context, from: Known, t: nat)
  {
    && TableOk(insns, inc) && Justified(insns, inc, r)
    && c in inc && c.pc in insns && from.Valid() && t <= |Transitions(insns[c.pc], c)|
    && (forall e :: e in work ==> e in inc)
    && (forall e :: e in inc && e != c ==> e in work || (ClosedAt(insns, inc, e) && Noted(insns, inc, r, e)))
    && (c in work || (inc[c] == from && forall u :: 0 <= u < t ==> Absorbs(inc, Transitions(insns[c.pc], c)[u], Transfer(insns[c.pc], from))))
    && Seen(insns, r, c, from)
    && forall u :: 0 <= u < t && InMemory(Transitions(insns[c.pc], c)[u]) ==> (c.pc, Transitions(insns[c.pc], c)[u].pc) in r.edges
  }

  lemma {:induction false} HandleOutside(insns: map<int, Stmt>, inc: Incoming, work: seq<Context>, r: Report, c: Context, from: Known, t: nat)
    requires Handling(insns, inc, work, r, c, from, t) && t < |Transitions(insns[c.pc], c)|
    requires !InMemory(Transitions(insns[c.pc], c)[t])
    ensures Handling(insns, inc, work, r, c, from, t + 1)
  {
    hide Transitions, Transfer, ClosedAt, ContextOk, Below, Seen, TableOk, Justified, Noted;
  }

  lemma {:induction false} HandleEdge(insns: map<int, Stmt>, inc: Incoming, r: Report, c: Context, d: Context)
    requires c in inc && c.pc in insns && d in Transitions(insns[c.pc], c) && InMemory(d)
    ensures
      var e := r.(edges := r.edges + {(c.pc, d.pc)});
      && (Justified(insns, inc, r) ==> Justified(insns, inc, e))
      && (forall x: Context, k: Known :: x.pc in insns && Seen(insns, r, x, k) ==> Seen(insns, e, x, k))
      && (forall x :: x in inc && Noted(insns, inc, r, x) ==> Noted(insns, inc, e, x))
  {
    hide Transitions, Reaches, Accesses, Risks, AccessesOf, HazardsOf;
    assert Leads(insns, inc, c.pc, d.pc);
  }

  lemma {:induction false} HandleSame(insns: map<int, Stmt>, inc: Incoming, work: seq<Context>, r: Report, c: Context, from: Known, t: nat)
    requires Handling(insns, inc, work, r, c, from, t) && t < |Transitions(insns[c.pc], c)|
    requires Absorbs(inc, Transitions(insns[c.pc], c)[t], Transfer(insns[c.pc], from)) && InMemory(Transitions(insns[c.pc], c)[t])
    ensures Handling(insns, inc, work, r.(edges := r.edges + {(c.pc, Transitions(insns[c.pc], c)[t].pc)}), c, from, t + 1)
  {
    hide Transitions, Transfer, ClosedAt, Below, Seen, TableOk, Justified, Noted, Absorbs;
    HandleEdge(insns, inc, r, c, Transitions(insns[c.pc], c)[t]);
  }

  /** Nothing was lost from `inc` to `now` but constants. */
  ghost predicate Lowers(inc: Incoming, now: Incoming)
  {
    inc.Keys <= now.Keys && forall e :: e in inc ==> Below(now[e], inc[e])
  }

  /** The entry of `d` was new or lost a constant: `d` goes on the worklist. */
  lemma {:induction false} HandleChanged(insns: map<int, Stmt>, inc: Incoming, now: Incoming, work: seq<Context>, r: Report,
                                         c: Context, from: Known, t: nat, d: Context)
    requires Handling(insns, inc, work, r, c, from, t) && d in now && now.Keys == inc.Keys + {d}
    requires TableOk(insns, now) && Lowers(inc, now) && forall e :: e in inc && e != d ==> now[e] == inc[e]
    requires forall e :: e in inc && e != d && ClosedAt(insns, inc, e) ==> ClosedAt(insns, now, e)
    requires forall e, k :: e in inc && Absorbs(inc, e, k) ==> Absorbs(now, e, k)
    ensures Handling(insns, now, work + [d], r, c, from, t)
  {
    hide Transitions, Transfer, ClosedAt, Below, Seen, TableOk, Lowers, Justified;
    JustifiedMore(insns, inc, now, r);
    forall u | 0 <= u < t && Absorbs(inc, Transitions(insns[c.pc], c)[u], Transfer(insns[c.pc], from))
      ensures Absorbs(now, Transitions(insns[c.pc], c)[u], Transfer(insns[c.pc], from))
    {}
  }

  lemma {:induction false} MetMore(insns: map<int, Stmt>, inc: Incoming, now: Incoming, c: Context, k: Known)
    requires Lowers(inc, now) && Met(insns, inc, c, k)
    ensures Met(insns, now, c, k)
  {
    BelowTrans(now[c], inc[c], k);
    hide Below;
  }

  lemma {:induction false} JustifiedMore(insns: map<int, Stmt>, inc: Incoming, now: Incoming, r: Report)
    requires Justified(insns, inc, r) && Lowers(inc, now)
    ensures Justified(insns, now, r)
  {
    hide Met, AccessesOf, HazardsOf;
    assert inc.Keys <= now.Keys;
    forall c, k | Met(insns, inc, c, k) ensures Met(insns, now, c, k) {
      MetMore(insns, inc, now, c, k);
    }
    forall p | p in r.reachable ensures Reaches(insns, now, p) {
      assert Reaches(insns, inc, p);
      var c :| c in inc && c.pc == p;
      assert c in now;
    }
    forall a | a in r.accesses ensures Accesses(insns, now, a) {
      assert Accesses(insns, inc, a);
    }
    forall h | h in r.hazards ensures Risks(insns, now, h) {
      assert Risks(insns, inc, h);
    }
    forall p, q | (p, q) in r.edges ensures Leads(insns, now, p, q) {
      assert Leads(insns, inc, p, q);
      hide Transitions;
    }
  }

  lemma {:induction false} MergeLowers(inc: Incoming, d: Context, next: Known)
    requires next.Valid() && forall e :: e in inc ==> inc[e].Valid()
    ensures Lowers(inc, inc[d := Merged(inc, d, next)])
  {
    hide Join;
    var now := inc[d := Merged(inc, d, next)];
    forall e | e in inc ensures Below(now[e], inc[e]) {
      BelowSame(inc[e]);
      if e == d { JoinBelow(inc[d], next); }
    }
  }

  /** One more transition merged. */
  lemma {:induction false} HandleMore(insns: map<int, Stmt>, inc: Incoming, work: seq<Context>, r: Report, c: Context, from: Known, t: nat)
    requires Insns(insns) && Handling(insns, inc, work, r, c, from, t) && t < |Transitions(insns[c.pc], c)|
    ensures
      var d, next := Transitions(insns[c.pc], c)[t], Transfer(insns[c.pc], from);
      if !InMemory(d) then Handling(insns, inc, work, r, c, from, t + 1)
      else
        var m := Merged(inc, d, next);
        var now, e := inc[d := m], r.(edges := r.edges + {(c.pc, d.pc)});
        if d in inc && inc[d] == m then Handling(insns, inc, work, e, c, from, t + 1)
        else Handling(insns, now, work + [d], e, c, from, t + 1) && Hopes(now) < Hopes(inc)
  {
    var d, next := Transitions(insns[c.pc], c)[t], Transfer(insns[c.pc], from);
    HandlingValid(insns, inc, work, r, c, from, t, d);
    HandlingContext(insns, inc, work, r, c, from, t);
    hide Join, Transitions, Transfer, ClosedAt, Hopes, ContextOk, Below, Insns, Merged, Lowers, Handling, TableOk, Absorbs;
    if InMemory(d) {
      TransitionsOk(insns[c.pc], c, d);
      MergeOk(insns, inc, work, d, next);
      var m := Merged(inc, d, next);
      if !(d in inc && inc[d] == m) {
        TableKnown(insns, inc);
        MergeLowers(inc, d, next);
        HandleChanged(insns, inc, inc[d := m], work, r, c, from, t, d);
      }
      HandleSame(insns, inc[d := m], if d in inc && inc[d] == m then work else work + [d], r, c, from, t);
    } else {
      HandleOutside(insns, inc, work, r, c, from, t);
    }
  }

  lemma TableKnown(insns: map<int, Stmt>, inc: Incoming)
    requires TableOk(insns, inc)
    ensures forall e :: e in inc ==> inc[e].Valid()
  {
    hide ContextOk;
  }

  lemma HandlingContext(insns: map<int, Stmt>, inc: Incoming, work: seq<Context>, r: Report, c: Context, from: Known, t: nat)
    requires Handling(insns, inc, work, r, c, from, t)
    ensures TableOk(insns, inc) && ContextOk(c) && c.pc in insns && Transfer(insns[c.pc], from).Valid()
  {
    hide Transitions, ClosedAt, Noted, Absorbs, Justified, Seen;
  }

  /** What is reported on a visit is shown by the context visited. */
  lemma {:induction false} VisitJustified(insns: map<int, Stmt>, inc: Incoming, r: Report, c: Context)
    requires Justified(insns, inc, r) && c in inc && inc[c].Valid() && c.pc in insns
    ensures Justified(insns, inc, Visited(r, insns[c.pc], c, inc[c]))
    ensures Seen(insns, Visited(r, insns[c.pc], c, inc[c]), c, inc[c])
  {
    hide AccessesOf, HazardsOf;
    BelowSame(inc[c]);
    assert Met(insns, inc, c, inc[c]);
    hide Met;
    var n := Visited(r, insns[c.pc], c, inc[c]);
    forall a | a in n.accesses ensures Accesses(insns, inc, a) {
      if a in r.accesses { assert Accesses(insns, inc, a); }
    }
    forall h | h in n.hazards ensures Risks(insns, inc, h) {
      if h in r.hazards { assert Risks(insns, inc, h); }
    }
  }

  lemma {:induction false} VisitKeeps(insns: map<int, Stmt>, inc: Incoming, r: Report, s: Stmt, c: Context, k: Known, e: Context)
    requires e in inc && Noted(insns, inc, r, e)
    ensures Noted(insns, inc, Visited(r, s, c, k), e)
  {
    hide AccessesOf, HazardsOf, Transitions;
  }

  lemma {:induction false} HandleStart(insns: map<int, Stmt>, inc: Incoming, work: seq<Context>, r: Report)
    requires Progress(insns, inc, work, r) && work != [] && work[0].pc in insns
    ensures
      var c := work[0];
      c in inc && Handling(insns, inc, work[1..], Visited(r, insns[c.pc], c, inc[c]), c, inc[c], 0)
  {
    hide Transitions, Transfer, ClosedAt, ContextOk, Seen, Justified, Noted, Visited;
    var c := work[0];
    assert work == [c] + work[1..];
    TableKnown(insns, inc);
    VisitJustified(insns, inc, r, c);
    forall e | e in inc && Noted(insns, inc, r, e) ensures Noted(insns, inc, Visited(r, insns[c.pc], c, inc[c]), e) {
      VisitKeeps(insns, inc, r, insns[c.pc], c, inc[c], e);
    }
  }

  lemma {:induction false} HandleEnd(insns: map<int, Stmt>, inc: Incoming, work: seq<Context>, r: Report, c: Context, from: Known)
    requires c.pc in insns && Handling(insns, inc, work, r, c, from, |Transitions(insns[c.pc], c)|)
    ensures Progress(insns, inc, work, r)
  {
    hide Transitions, Transfer, ContextOk, Seen, Absorbs, Justified;
  }

  lemma {:induction false} HandleNone(insns: map<int, Stmt>, inc: Incoming, work: seq<Context>, r: Report)
    requires Progress(insns, inc, work, r) && work != [] && work[0].pc !in insns
    ensures Progress(insns, inc, work[1..], r)
  {
    NothingThere(insns, inc, r, work[0]);
    hide ClosedAt, Noted, TableOk, Justified;
    assert work == [work[0]] + work[1..];
  }

  lemma NothingThere(insns: map<int, Stmt>, inc: Incoming, r: Report, c: Context)
    requires c.pc !in insns && TableOk(insns, inc)
    ensures c in inc ==> ClosedAt(insns, inc, c) && Noted(insns, inc, r, c)
  {
    hide ContextOk;
  }

  lemma {:induction false} StartProgress(insns: map<int, Stmt>)
    ensures
      var c, k := Context(ENTRY, []), NothingKnown();
      Progress(insns, map[c := k], [c], NOTHING)
  {
    hide Transitions, Transfer;
  }

  /** The outcome of the worklist: its table is closed, and all that its contexts
      show is reported, and nothing else. */
  ghost predicate Analyzed(insns: map<int, Stmt>, inc: Incoming, r: Report)
  {
    && TableOk(insns, inc) && Justified(insns, inc, r)
    && forall c :: c in inc ==> ClosedAt(insns, inc, c) && Noted(insns, inc, r, c)
  }

  /** The worklist terminates. Its table is closed under the statements: every
      context it leads to is in it, with no constant it could lose. Whatever a
      context shows is reported, and nothing else. */
  method Explore(insns: map<int, Stmt>) returns (inc: Incoming, r: Report)
    requires Insns(insns)
    ensures Analyzed(insns, inc, r)
  {
    hide Progress, Handling, Transitions, Transfer, ClosedAt, Hopes, Merged, Insns, Visited, AccessesOf, HazardsOf;
    inc := map[Context(ENTRY, []) := NothingKnown()];
    var work := [Context(ENTRY, [])];
    r := NOTHING;
    StartProgress(insns);
    while work != []
      invariant Progress(insns, inc, work, r)
      decreases Hopes(inc), |work|
    {
      var c := work[0];
      if c.pc !in insns {
        HandleNone(insns, inc, work, r);
        work := work[1..];
      } else {
        HandleStart(insns, inc, work, r);
        ghost var hopes, size := Hopes(inc), |work|;
        work := work[1..];
        var from, stmt := inc[c], insns[c.pc];
        r := Visited(r, stmt, c, from);
        TableValid(insns, inc, work, r, c, from);
        var next, ts := Transfer(stmt, from), Transitions(stmt, c);
        for t := 0 to |ts|
          invariant Handling(insns, inc, work, r, c, from, t)
          invariant Hopes(inc) < hopes || (Hopes(inc) == hopes && |work| < size)
        {
          HandleMore(insns, inc, work, r, c, from, t);
          var d := ts[t];
          if InMemory(d) {
            HandlingValid(insns, inc, work, r, c, from, t, d);
            r := r.(edges := r.edges + {(c.pc, d.pc)});
            var m := Merged(inc, d, next);
            if !(d in inc && inc[d] == m) {
              inc := inc[d := m];
              work := work + [d];
            }
          }
        }
        HandleEnd(insns, inc, work, r, c, from);
      }
    }
    AllDone(insns, inc, r);
  }

  lemma TableValid(insns: map<int, Stmt>, inc: Incoming, work: seq<Context>, r: Report, c: Context, from: Known)
    requires Handling(insns, inc, work, r, c, from, 0)
    ensures from.Valid()
  {}

  lemma HandlingValid(insns: map<int, Stmt>, inc: Incoming, work: seq<Context>, r: Report, c: Context, from: Known, t: nat, d: Context)
    requires Handling(insns, inc, work, r, c, from, t)
    ensures d in inc ==> inc[d].Valid()
  {}

  lemma {:induction false} AllDone(insns: map<int, Stmt>, inc: Incoming, r: Report)
    requires Progress(insns, inc, [], r)
    ensures Analyzed(insns, inc, r)
  {
    hide ClosedAt, Noted, Justified;
  }

  // --------------------------------------------------- writes into the ROM

  /** A write with known bounds into the assembled payload, and onto reachable
      instructions. */
  function Overwrites(a: Access, reachable: set<int>, end: int): set<Hazard>
  {
    if a.kind != Write || a.start.None? || a.length.None? then {} else
    var from, to := a.start.value, a.start.value + a.length.value;
    (if from < end && to > ENTRY then {WriteIntoRom(a.pc, from)} else {})
    + (set p | p in reachable && from <= p < to :: SelfModifying(a.pc, p))
  }

  ghost predicate IntoPayload(accesses: set<Access>, reachable: set<int>, end: int, h: Hazard)
  {
    exists a :: a in accesses && h in Overwrites(a, reachable, end)
  }

  predicate OfPayload(h: Hazard)
  {
    h.WriteIntoRom? || h.SelfModifying?
  }

  /** The report as the worklist left it. */
  function WalkPart(r: Report): Report
  {
    r.(hazards := set h | h in r.hazards && !OfPayload(h))
  }

  lemma {:induction false} WalkHazards(insns: map<int, Stmt>, inc: Incoming, r: Report, h: Hazard)
    requires Analyzed(insns, inc, r) && h in r.hazards
    ensures !OfPayload(h)
  {
    hide ClosedAt, Noted, TableOk, Below, Touch;
    assert Risks(insns, inc, h);
  }

  lemma OverwritesKind(a: Access, reachable: set<int>, end: int)
    ensures forall h :: h in Overwrites(a, reachable, end) ==> OfPayload(h)
  {}

  /** analyze: the worklist, then the hazards that follow from the accesses. */
  method Analyze(insns: map<int, Stmt>, end: int) returns (inc: Incoming, r: Report)
    requires Insns(insns)
    ensures Analyzed(insns, inc, WalkPart(r))
    ensures forall h :: OfPayload(h) ==> (h in r.hazards <==> IntoPayload(r.accesses, r.reachable, end, h))
  {
    hide Analyzed, Overwrites, OfPayload;
    inc, r := Explore(insns);
    ghost var explored := r;
    forall h | h in r.hazards ensures !OfPayload(h) { WalkHazards(insns, inc, r, h); }
    assert WalkPart(r) == explored;
    var todo := r.accesses;
    while todo != {}
      invariant todo <= r.accesses && r == explored.(hazards := r.hazards) && WalkPart(r) == explored
      invariant forall h :: OfPayload(h) ==> (h in r.hazards <==> IntoPayload(r.accesses - todo, r.reachable, end, h))
      decreases |todo|
    {
      var a :| a in todo;
      ghost var before := r.accesses - todo;
      todo := todo - {a};
      OverwritesKind(a, r.reachable, end);
      r := r.(hazards := r.hazards + Overwrites(a, r.reachable, end));
      assert r.accesses - todo == before + {a};
      assert WalkPart(r) == explored;
    }
    assert r.accesses - todo == r.accesses;
  }

  /** A write into the ROM is reported exactly where a recorded write with known
      bounds has a byte in it, and a self-modifying one where it has a reachable
      statement. */
  lemma {:induction false} RomWritten(accesses: set<Access>, reachable: set<int>, end: int, h: Hazard)
    requires end > ENTRY && forall a :: a in accesses && a.length.Some? && a.kind == Write ==> a.length.value > 0
    ensures h.WriteIntoRom? ==> (IntoPayload(accesses, reachable, end, h) <==> exists a :: a in accesses && HasByte(a, h, end))
    ensures h.SelfModifying? ==> (IntoPayload(accesses, reachable, end, h) <==>
      h.code in reachable && exists a :: a in accesses && a.pc == h.pc && WritesByte(a, h.code))
  {
    if h.WriteIntoRom? {
      forall a | a in accesses ensures h in Overwrites(a, reachable, end) <==> HasByte(a, h, end) { OneWrite(a, reachable, end, h); }
    }
    if h.SelfModifying? && h.code in reachable && exists a :: a in accesses && a.pc == h.pc && WritesByte(a, h.code) {
      var a :| a in accesses && a.pc == h.pc && WritesByte(a, h.code);
      assert h in Overwrites(a, reachable, end);
    }
    hide HasByte;
  }

  predicate WritesByte(a: Access, x: int)
  {
    a.kind == Write && a.start.Some? && a.length.Some? && a.start.value <= x < a.start.value + a.length.value
  }

  /** The write of `h`, with a byte in the ROM. */
  ghost predicate HasByte(a: Access, h: Hazard, end: int)
    requires h.WriteIntoRom?
  {
    a.pc == h.pc && a.start == Some(h.start) && exists x :: ENTRY <= x < end && WritesByte(a, x)
  }

  lemma {:induction false} OneWrite(a: Access, reachable: set<int>, end: int, h: Hazard)
    requires h.WriteIntoRom?
    ensures h in Overwrites(a, reachable, end) ==> a.length.Some? && (a.length.value > 0 && end > ENTRY ==> HasByte(a, h, end))
    ensures HasByte(a, h, end) ==> h in Overwrites(a, reachable, end)
  {
    if h in Overwrites(a, reachable, end) && a.length.value > 0 && end > ENTRY {
      var x := if a.start.value < ENTRY then ENTRY else a.start.value;
      assert WritesByte(a, x);
    }
  }

  // ------------------------------------------------------ what is recorded

  ghost predicate RecordAt(r: Report, pc: int) { exists a :: a in r.accesses && a.pc == pc }

  /** Some context arrives at `pc` with I not known to be in the font. */
  ghost predicate OutsideFont(inc: Incoming, pc: int)
  {
    exists c :: c in inc && c.pc == pc && inc[c].i != Some(EXTERNAL_I)
  }

  ghost predicate IUnknown(inc: Incoming, pc: int)
  {
    exists c :: c in inc && c.pc == pc && inc[c].i == None
  }

  lemma {:induction false} RecordShown(insns: map<int, Stmt>, inc: Incoming, r: Report, a: Access)
    requires Analyzed(insns, inc, r) && a in r.accesses
    ensures a.pc in insns && Touch(insns[a.pc]).Some? && OutsideFont(inc, a.pc)
  {
    hide ClosedAt, Reaches, Risks, Noted, TableOk;
    assert Accesses(insns, inc, a);
    var c, k :| Met(insns, inc, c, k) && a in AccessesOf(insns[c.pc], c.pc, k);
    assert Below(inc[c], k) && inc[c].Part(16) == inc[c].i && k.Part(16) == k.i;
  }

  /** The record a visit at `c` makes. */
  lemma {:induction false} RecordMade(insns: map<int, Stmt>, inc: Incoming, r: Report, c: Context)
    requires Analyzed(insns, inc, r) && c in inc && c.pc in insns && Touch(insns[c.pc]).Some? && inc[c].i != Some(EXTERNAL_I)
    ensures RecordAt(r, c.pc)
  {
    hide ClosedAt, Reaches, Risks, Accesses, TableOk, Touch;
    assert Noted(insns, inc, r, c);
    var k, t := inc[c].i, Touch(insns[c.pc]).value;
    var a := if IsDynamic(k) then Access(c.pc, Dynamic(t.0), Some(-k.value - 2), t.1) else Access(c.pc, t.0, k, t.1);
    assert a in AccessesOf(insns[c.pc], c.pc, inc[c]);
  }

  lemma {:induction false} UnknownShown(insns: map<int, Stmt>, inc: Incoming, r: Report, pc: int)
    requires Analyzed(insns, inc, r) && DynamicI(pc) in r.hazards
    ensures pc in insns && Touch(insns[pc]).Some? && IUnknown(inc, pc)
  {
    hide ClosedAt, Reaches, Accesses, Noted, TableOk, Touch;
    assert Risks(insns, inc, DynamicI(pc));
    var c, k :| Met(insns, inc, c, k) && DynamicI(pc) in HazardsOf(insns[c.pc], c, k);
    assert Below(inc[c], k) && inc[c].Part(16) == inc[c].i && k.Part(16) == k.i;
  }

  /** Exactly the reachable statements that touch memory are recorded, but for
      those at which I is in the font on every way; and an unknown I is noticed
      exactly at such a statement reached with I unknown. */
  lemma {:induction false} Recorded(insns: map<int, Stmt>, inc: Incoming, r: Report, pc: int)
    requires Analyzed(insns, inc, r)
    ensures RecordAt(r, pc) <==> pc in insns && Touch(insns[pc]).Some? && OutsideFont(inc, pc)
    ensures DynamicI(pc) in r.hazards <==> pc in insns && Touch(insns[pc]).Some? && IUnknown(inc, pc)
  {
    hide Analyzed, Touch;
    if RecordAt(r, pc) {
      var a :| a in r.accesses && a.pc == pc;
      RecordShown(insns, inc, r, a);
    }
    if pc in insns && Touch(insns[pc]).Some? && OutsideFont(inc, pc) {
      var c :| c in inc && c.pc == pc && inc[c].i != Some(EXTERNAL_I);
      RecordMade(insns, inc, r, c);
    }
    if DynamicI(pc) in r.hazards { UnknownShown(insns, inc, r, pc); }
    if pc in insns && Touch(insns[pc]).Some? && IUnknown(inc, pc) {
      var c :| c in inc && c.pc == pc && inc[c].i == None;
      UnknownMade(insns, inc, r, c);
    }
  }

  lemma {:induction false} UnknownMade(insns: map<int, Stmt>, inc: Incoming, r: Report, c: Context)
    requires Analyzed(insns, inc, r) && c in inc && c.pc in insns && Touch(insns[c.pc]).Some? && inc[c].i == None
    ensures DynamicI(c.pc) in r.hazards
  {
    hide ClosedAt, Reaches, Risks, Accesses, TableOk;
    assert Noted(insns, inc, r, c);
    assert DynamicI(c.pc) in HazardsOf(insns[c.pc], c, inc[c]);
  }

  /** An edge is reported exactly where a context leads along it. */
  lemma {:induction false} EdgesExact(insns: map<int, Stmt>, inc: Incoming, r: Report, p: int, q: int)
    requires Analyzed(insns, inc, r)
    ensures (p, q) in r.edges <==> Leads(insns, inc, p, q)
  {
    hide Transitions, ClosedAt, Reaches, Accesses, Risks, TableOk, Seen;
    if Leads(insns, inc, p, q) {
      var c, d :| c in inc && c.pc == p && p in insns && d in Transitions(insns[p], c) && InMemory(d) && d.pc == q;
      assert Noted(insns, inc, r, c);
    }
  }

  /** Some context with at least `depth` frames is at a statement `s`. */
  ghost predicate At(insns: map<int, Stmt>, inc: Incoming, pc: int, s: Stmt, depth: nat)
  {
    pc in insns && insns[pc] == s && exists c :: c in inc && c.pc == pc && |c.stack| >= depth
  }

  /** The hazards of control are those of the contexts: computed and unresolved jumps
      and calls, and calls with a full stack. */
  lemma {:induction false} ControlHazards(insns: map<int, Stmt>, inc: Incoming, r: Report, pc: int)
    requires Analyzed(insns, inc, r)
    ensures ComputedJump(pc) in r.hazards <==> At(insns, inc, pc, JumpV0, 0)
    ensures UnresolvedJump(pc) in r.hazards <==> At(insns, inc, pc, Jump(None), 0)
    ensures UnresolvedCall(pc) in r.hazards <==> At(insns, inc, pc, CallTo(None), 0)
    ensures DeepCall(pc) in r.hazards <==> pc in insns && insns[pc].CallTo? && insns[pc].dest.Some? && At(insns, inc, pc, insns[pc], 16)
  {
    hide Analyzed, Touch, At;
    forall h | h in r.hazards && h.pc == pc && (h.ComputedJump? || h.UnresolvedJump? || h.UnresolvedCall? || h.DeepCall?)
      ensures pc in insns && At(insns, inc, pc, insns[pc], if h.DeepCall? then 16 else 0) && HazardKind(insns[pc], h)
    {
      ControlShown(insns, inc, r, h);
    }
    if pc in insns { ControlMade(insns, inc, r, pc); }
    assert forall s, n :: At(insns, inc, pc, s, n) ==> pc in insns && insns[pc] == s by { AtIs(insns, inc, pc); }
  }

  lemma AtIs(insns: map<int, Stmt>, inc: Incoming, pc: int)
    ensures forall s, n :: At(insns, inc, pc, s, n) ==> pc in insns && insns[pc] == s
  {}

  predicate HazardKind(s: Stmt, h: Hazard)
  {
    match h
    case ComputedJump(_) => s == JumpV0
    case UnresolvedJump(_) => s == Jump(None)
    case UnresolvedCall(_) => s == CallTo(None)
    case DeepCall(_) => s.CallTo? && s.dest.Some?
    case _ => true
  }

  lemma {:induction false} ControlShown(insns: map<int, Stmt>, inc: Incoming, r: Report, h: Hazard)
    requires Analyzed(insns, inc, r) && h in r.hazards && (h.ComputedJump? || h.UnresolvedJump? || h.UnresolvedCall? || h.DeepCall?)
    ensures h.pc in insns && At(insns, inc, h.pc, insns[h.pc], if h.DeepCall? then 16 else 0) && HazardKind(insns[h.pc], h)
  {
    hide ClosedAt, Reaches, Accesses, Noted, TableOk, Touch, Below;
    assert Risks(insns, inc, h);
    var c, k :| Met(insns, inc, c, k) && h in HazardsOf(insns[c.pc], c, k);
    assert c.pc == h.pc;
  }

  lemma {:induction false} ControlMade(insns: map<int, Stmt>, inc: Incoming, r: Report, pc: int)
    requires Analyzed(insns, inc, r) && pc in insns
    ensures At(insns, inc, pc, JumpV0, 0) ==> ComputedJump(pc) in r.hazards
    ensures At(insns, inc, pc, Jump(None), 0) ==> UnresolvedJump(pc) in r.hazards
    ensures At(insns, inc, pc, CallTo(None), 0) ==> UnresolvedCall(pc) in r.hazards
    ensures insns[pc].CallTo? && insns[pc].dest.Some? && At(insns, inc, pc, insns[pc], 16) ==> DeepCall(pc) in r.hazards
  {
    hide ClosedAt, Reaches, Accesses, Risks, TableOk, Touch, AccessesOf;
    forall c | c in inc && c.pc == pc ensures HazardsOf(insns[pc], c, inc[c]) <= r.hazards { assert Noted(insns, inc, r, c); }
  }

  // --------------------------------------------------------- concrete runs

  /** The machine is at an instruction statement that is still as assembled,
      and is no computed jump. */
  predicate Listed(insns: map<int, Stmt>, m: Mach)
  {
    m.core.pc in insns && Describes(insns[m.core.pc], Fetch(m)) && !insns[m.core.pc].JumpV0?
  }

  function Where(m: Mach): Context { Context(m.core.pc, m.core.stack) }

  lemma {:induction false} StraightControl(op: word, c: Core, inp: Input)
    requires ExecStraight(op, c, inp).Some?
    ensures ExecStraight(op, c, inp).value.stack == c.stack
  {
    StraightMatches({}, op, c, inp);
  }

  lemma {:induction false} StraightStep(tape: nat -> Input, m: Mach)
    requires Fetch(m) == 0x00E0 || Top(Fetch(m)) in {6, 7, 8, 0xA, 0xC, 0xD, 0xF}
    requires TapeStep(tape, m).Some?
    ensures Where(TapeStep(tape, m).value) == Context((m.core.pc + 2) % 0x10000, m.core.stack)
  {
    hide OpAt, ExecStraight, Top, X, Y, N, KK, NNN, Reads, Sends, SkipIf;
    var op := Fetch(m);
    NotSystem(op);
    ClearGroup();
    if ExecStraight(op, m.core, Given(tape, m)).Some? {
      var d := ExecStraight(op, m.core, Given(tape, m)).value;
      StraightControl(op, m.core, Given(tape, m));
      StraightFrame(op, m.core, 0, Given(tape, m));
      StepPast(d);
    }
  }

  lemma ClearGroup()
    ensures Top(0x00E0) == 0
  {}

  lemma StepPast(c: Core)
    ensures SkipIf(c, false).pc == (c.pc + 2) % 0x10000 && SkipIf(c, false).stack == c.stack
  {}

  lemma {:induction false} SkipStep(tape: nat -> Input, m: Mach)
    requires Top(Fetch(m)) in {3, 4, 5, 9, 0xE} && TapeStep(tape, m).Some?
    ensures
      var w := Where(TapeStep(tape, m).value);
      w.stack == m.core.stack && (w.pc == (m.core.pc + 2) % 0x10000 || w.pc == (m.core.pc + 4) % 0x10000)
  {
    NotSystem(Fetch(m));
    hide OpAt, ExecStraight, Top, X, Y, N, KK, NNN, Reads, Sends;
  }

  lemma {:induction false} TransitionsOf(s: Stmt, op: word, c: Context)
    requires Describes(s, op) && !s.JumpV0?
    ensures op == 0x00EE ==> s == Ret
    ensures Top(op) == 1 ==> s == Jump(Some(NNN(op)))
    ensures Top(op) == 2 ==> s == CallTo(Some(NNN(op)))
    ensures Top(op) in {3, 4, 5, 9, 0xE} ==> s == Skip
    ensures op == 0x00E0 || Top(op) in {6, 7, 8, 0xA, 0xC, 0xD, 0xF} ==> Transitions(s, c) == [Context(c.pc + 2, c.stack)]
    ensures op == 0x00EE || op == 0x00E0 || (Top(op) != 0 && Top(op) != 0xB)
  {
    NotSystem(op);
    hide Top, NNN;
  }

  lemma {:induction false} ReturnTransition(tape: nat -> Input, m: Mach)
    requires Fetch(m) == 0x00EE && TapeStep(tape, m).Some?
    ensures Where(TapeStep(tape, m).value) in Transitions(Ret, Where(m))
  {
    ReturnStep(tape, m);
    hide OpAt, TapeStep, Fetch;
  }

  lemma {:induction false} JumpTransition(tape: nat -> Input, m: Mach)
    requires Top(Fetch(m)) == 1
    ensures TapeStep(tape, m).Some? && Where(TapeStep(tape, m).value) in Transitions(Jump(Some(NNN(Fetch(m)))), Where(m))
  {
    JumpStep(tape, m);
    hide OpAt, TapeStep, Fetch, Top, NNN;
  }

  lemma {:induction false} CallTransition(tape: nat -> Input, insns: map<int, Stmt>, m: Mach)
    requires Insns(insns) && m.core.pc in insns && Top(Fetch(m)) == 2 && TapeStep(tape, m).Some?
    ensures Where(TapeStep(tape, m).value) in Transitions(CallTo(Some(NNN(Fetch(m)))), Where(m))
  {
    CallStep(tape, m);
    hide OpAt, TapeStep, Fetch, Top, NNN;
  }

  lemma {:induction false} SkipTransition(tape: nat -> Input, insns: map<int, Stmt>, m: Mach)
    requires Insns(insns) && m.core.pc in insns && Top(Fetch(m)) in {3, 4, 5, 9, 0xE} && TapeStep(tape, m).Some?
    ensures Where(TapeStep(tape, m).value) in Transitions(Skip, Where(m))
  {
    SkipStep(tape, m);
    assert ENTRY <= m.core.pc < LIMIT;
    hide OpAt, TapeStep, Fetch, Top, NNN, Insns;
  }

  lemma {:induction false} StraightTransition(tape: nat -> Input, insns: map<int, Stmt>, m: Mach)
    requires Insns(insns) && m.core.pc in insns && TapeStep(tape, m).Some?
    requires Fetch(m) == 0x00E0 || Top(Fetch(m)) in {6, 7, 8, 0xA, 0xC, 0xD, 0xF}
    ensures Where(TapeStep(tape, m).value) == Context(m.core.pc + 2, m.core.stack)
  {
    StraightStep(tape, m);
    assert ENTRY <= m.core.pc < LIMIT;
    hide OpAt, TapeStep, Fetch, Top, NNN, Insns;
  }

  /** What an instruction does to the program counter and the stack is one of
      its statement's transitions. */
  lemma {:induction false} StepTransition(tape: nat -> Input, insns: map<int, Stmt>, m: Mach)
    requires Insns(insns) && Listed(insns, m) && TapeStep(tape, m).Some?
    ensures Where(TapeStep(tape, m).value) in Transitions(insns[m.core.pc], Where(m))
  {
    hide OpAt, Top, NNN, TapeStep, Fetch, Describes, Transitions, Insns;
    var op := Fetch(m);
    TransitionsOf(insns[m.core.pc], op, Where(m));
    if op == 0x00EE { ReturnTransition(tape, m); }
    else if Top(op) == 1 { JumpTransition(tape, m); }
    else if Top(op) == 2 { CallTransition(tape, insns, m); }
    else if Top(op) in {3, 4, 5, 9, 0xE} { SkipTransition(tape, insns, m); }
    else { StraightTransition(tape, insns, m); }
  }

  /** The run stays on instruction statements, none overwritten, for `n` steps. */
  ghost predicate Follows(tape: nat -> Input, insns: map<int, Stmt>, c: Core, n: nat)
  {
    && TapeRun(tape, Start(c), n).Some?
    && forall i :: 0 <= i < n ==> ListedAt(tape, insns, c, i)
  }

  ghost predicate ListedAt(tape: nat -> Input, insns: map<int, Stmt>, c: Core, i: nat)
  {
    TapeRun(tape, Start(c), i).Some? && Listed(insns, TapeRun(tape, Start(c), i).value)
  }

  /** A transition of a context of the table leads to one. */
  lemma {:induction false} TransitionCovered(insns: map<int, Stmt>, inc: Incoming, c: Context, d: Context)
    requires c in inc && c.pc in insns && ClosedAt(insns, inc, c) && d in Transitions(insns[c.pc], c) && InMemory(d)
    ensures d in inc
  {
    hide Transitions, Transfer, Below;
    assert Absorbs(inc, d, Transfer(insns[c.pc], inc[c]));
  }

  lemma {:induction false} FollowsLess(tape: nat -> Input, insns: map<int, Stmt>, c: Core, n: nat)
    requires Follows(tape, insns, c, n) && n > 0
    ensures Follows(tape, insns, c, n - 1) && Listed(insns, TapeRun(tape, Start(c), n - 1).value)
    ensures TapeRun(tape, Start(c), n) == TapeStep(tape, TapeRun(tape, Start(c), n - 1).value)
  {
    hide Listed, TapeStep;
    assert ListedAt(tape, insns, c, n - 1);
  }

  lemma {:induction false} EntryCovered(tape: nat -> Input, insns: map<int, Stmt>, inc: Incoming, c: Core)
    requires TableOk(insns, inc) && c.pc == ENTRY && c.stack == []
    ensures TapeRun(tape, Start(c), 0) == Some(Start(c)) && Where(Start(c)) in inc
  {
    hide ContextOk;
  }

  /** Every program counter and return stack a run reaches is a context of the
      table. */
  lemma {:induction false} Covered(tape: nat -> Input, insns: map<int, Stmt>, inc: Incoming, c: Core, n: nat)
    requires Insns(insns) && TableOk(insns, inc) && forall d :: d in inc ==> ClosedAt(insns, inc, d)
    requires c.pc == ENTRY && c.stack == [] && Follows(tape, insns, c, n)
    ensures InMemory(Where(TapeRun(tape, Start(c), n).value)) ==> Where(TapeRun(tape, Start(c), n).value) in inc
  {
    hide Transitions, Transfer, Listed, TapeStep, Below, TableOk, ClosedAt, InMemory, Insns, TapeRun, ListedAt;
    if n == 0 {
      EntryCovered(tape, insns, inc, c);
    } else {
      FollowsLess(tape, insns, c, n);
      Covered(tape, insns, inc, c, n - 1);
      var m := TapeRun(tape, Start(c), n - 1).value;
      ListedInside(insns, m);
      StepTransition(tape, insns, m);
      if InMemory(Where(TapeStep(tape, m).value)) {
        TransitionCovered(insns, inc, Where(m), Where(TapeStep(tape, m).value));
      }
    }
  }

  lemma ListedInside(insns: map<int, Stmt>, m: Mach)
    requires Insns(insns) && Listed(insns, m)
    ensures InMemory(Where(m)) && m.core.pc in insns
  {}

  /** A run that stays on the statements and meets a full return stack does so
      at a reported call: without such a report there is no stack overflow. */
  lemma {:induction false} OverflowReported(tape: nat -> Input, insns: map<int, Stmt>, inc: Incoming, r: Report, c: Core, n: nat)
    requires Insns(insns) && Analyzed(insns, inc, r)
    requires c.pc == ENTRY && c.stack == [] && Follows(tape, insns, c, n)
    ensures
      var m := TapeRun(tape, Start(c), n).value;
      Listed(insns, m) && Top(Fetch(m)) == 2 && TapeStep(tape, m).None? ==> DeepCall(m.core.pc) in r.hazards
  {
    hide TapeRun, ClosedAt, OpAt;
    Covered(tape, insns, inc, c, n);
    var m := TapeRun(tape, Start(c), n).value;
    if Listed(insns, m) && Top(Fetch(m)) == 2 && TapeStep(tape, m).None? {
      ListedInside(insns, m);
      CallStep(tape, m);
      NotSystem(Fetch(m));
      assert Noted(insns, inc, r, Where(m));
    }
  }

  // ------------------------------------------- the tail-call rewrite, refused

  /** Wherever the original gets, it is at a listed statement and leaves the
      rewritten sites alone. */
  ghost predicate Confined(tape: nat -> Input, insns: map<int, Stmt>, sites: set<int>, c: Core)
  {
    forall i: nat :: TapeRun(tape, Start(c), i).Some? ==>
      Listed(insns, TapeRun(tape, Start(c), i).value) && Safe(sites, TapeRun(tape, Start(c), i).value)
  }

  ghost predicate Fails(tape: nat -> Input, m: Mach)
  {
    exists n: nat :: TapeRun(tape, m, n).None?
  }

  lemma {:induction false} RunsBefore(tape: nat -> Input, m: Mach, i: nat, n: nat)
    requires i <= n && TapeRun(tape, m, n).Some?
    ensures TapeRun(tape, m, i).Some?
    decreases n
  {
    hide TapeStep;
    if i < n { RunsBefore(tape, m, i, n - 1); }
  }

  lemma {:induction false} ConfinedRun(tape: nat -> Input, insns: map<int, Stmt>, sites: set<int>, c: Core, n: nat)
    requires Confined(tape, insns, sites, c) && TapeRun(tape, Start(c), n).Some?
    ensures Follows(tape, insns, c, n) && RunsSafely(tape, sites, Start(c), n) && ListedAt(tape, insns, c, n) && SafeAt(tape, sites, Start(c), n)
  {
    hide TapeRun, Listed, Safe;
    forall i: nat | i <= n ensures ListedAt(tape, insns, c, i) && SafeAt(tape, sites, Start(c), i) {
      RunsBefore(tape, Start(c), i, n);
    }
  }

  lemma {:induction false} FailsSo(tape: nat -> Input, insns: map<int, Stmt>, inc: Incoming, r: Report, sites: set<int>, c: Core, n: nat)
    requires Insns(insns) && Analyzed(insns, inc, r) && (forall p :: DeepCall(p) !in r.hazards)
    requires SitesOk(sites, c.mem) && c.pc == ENTRY && c.stack == [] && Confined(tape, insns, sites, c)
    requires TapeRun(tape, Start(c), n).None?
    ensures Fails(tape, Start(Rewritten(sites, c)))
    decreases n
  {
    hide Analyzed, Insns, Confined, SitesOk, TapeStep, Safe, Patch, Matches, Rewritten, Listed, OpAt, Top;
    if TapeRun(tape, Start(c), n - 1).None? {
      FailsSo(tape, insns, inc, r, sites, c, n - 1);
    } else {
      ConfinedRun(tape, insns, sites, c, n - 1);
      TailCalls(tape, sites, c, n - 1);
      OverflowReported(tape, insns, inc, r, c, n - 1);
      var m := Kept(tape, sites, Start(c), n - 1);
      ErrorMatches(tape, sites, TapeRun(tape, Start(c), n - 1).value, TapeRun(tape, Start(Rewritten(sites, c)), m).value);
      assert TapeRun(tape, Start(Rewritten(sites, c)), m + 1).None?;
    }
  }

  /** With no deep call reported the tail-call rewrite is an equivalence for
      errors: the rewritten program stops with one exactly when the original does. */
  lemma {:induction false} SameFailures(tape: nat -> Input, insns: map<int, Stmt>, inc: Incoming, r: Report, sites: set<int>, c: Core)
    requires Insns(insns) && Analyzed(insns, inc, r) && (forall p :: DeepCall(p) !in r.hazards)
    requires SitesOk(sites, c.mem) && c.pc == ENTRY && c.stack == [] && Confined(tape, insns, sites, c)
    ensures Fails(tape, Start(c)) <==> Fails(tape, Start(Rewritten(sites, c)))
  {
    hide Analyzed, Insns, Confined, SitesOk, TapeRun, Rewritten, Together;
    if Fails(tape, Start(c)) {
      var n: nat :| TapeRun(tape, Start(c), n).None?;
      FailsSo(tape, insns, inc, r, sites, c, n);
    } else if Fails(tape, Start(Rewritten(sites, c))) {
      var m: nat :| TapeRun(tape, Start(Rewritten(sites, c)), m).None?;
      assert TapeRun(tape, Start(c), 2 * m).Some?;
      ConfinedRun(tape, insns, sites, c, 2 * m);
      TailCalls(tape, sites, c, 2 * m);
      RunsBefore(tape, Start(Rewritten(sites, c)), m, Kept(tape, sites, Start(c), 2 * m));
    }
  }

  // ------------------------------------------------------ the record missed

  /** LD Vx, [I] is never recorded, nor is an unknown I noticed at it. */
  lemma {:induction false} LoadUnrecorded(ws: seq<string>, symbols: Asm.Symbols, insns: map<int, Stmt>, inc: Incoming, r: Report, pc: int)
    requires Analyzed(insns, inc, r)
    requires ws != [] && Asm.Instruction(ws, symbols, true).Ok? && Classify(ws[0], ws[1..], symbols).Some?
    requires pc in insns && insns[pc] == Classify(ws[0], ws[1..], symbols).value
    requires var op := Asm.Instruction(ws, symbols, true).value; Top(op) == 0xF && KK(op) == 0x65
    ensures !RecordAt(r, pc) && DynamicI(pc) !in r.hazards
    ensures Touches(Asm.Instruction(ws, symbols, true).value).Some?
  {
    hide Asm.Instruction, Classify, Top, KK, X, Analyzed;
    Classifies(ws, symbols);
    if UsesValue(ws) { ValueGroups(ws, symbols); }
    Recorded(insns, inc, r, pc);
  }
}
