/** How the optimizer gets to an edit: symbolize, consult the analysis, refuse what
    a new layout would break, and run its loop over the rest. */
module Refusal {
  import opened Chip8
  import opened Text
  import opened Numbers
  import opened Peephole
  import opened Optimizer
  import opened Relocate
  import C = Compaction
  import A = Analysis
  import R = OptimizedRun
  import Asm
  import S = Statements

  /** An offset from a known base was recorded at `pc`. */
  predicate Proven(r: A.Report, pc: int)
  {
    exists a :: a in r.accesses && a.pc == pc && a.kind in {S.DynamicRead, S.DynamicWrite}
  }

  /** The hazards that stop compaction. */
  predicate Blocks(r: A.Report, h: A.Hazard)
  {
    h.ComputedJump? || h.SelfModifying? || (h.DynamicI? && !Proven(r, h.pc))
  }

  predicate Blocked(r: A.Report)
  {
    exists h :: h in r.hazards && Blocks(r, h)
  }

  /** dynamic_base_boundaries: the statements at or behind a base from which data
      is reached at an unknown offset. */
  function Pinned(q: Source, r: A.Report): set<nat>
  {
    set i, a | 0 <= i < |q| && a in r.accesses && Pins(q, i, a) :: i
  }

  predicate Pins(q: Source, i: nat, a: A.Access)
    requires i < |q|
  {
    a.kind in {S.DynamicRead, S.DynamicWrite} && a.start.Some? && Old(q, i) >= a.start.value
  }

  // ------------------------------------------- what the analysis looks at

  /** The addresses of the instruction statements of `q`. */
  ghost predicate Mapped(q: Source, insns: map<int, S.Stmt>)
  {
    forall pc :: pc in insns <==> exists i :: 0 <= i < |q| && q[i].Insn? && Old(q, i) == pc
  }

  /** What the analysis reads statement `i` as. */
  function ReadingOf(s: Stmt, labels: map<string, int>): Option<S.Stmt>
    requires s.text != []
  {
    S.Classify(s.text[0], s.text[1..], labels)
  }

  /** `insns` are the instruction statements of `q` by address, as the analysis
      reads their words. */
  ghost predicate ReadAs(q: Source, labels: map<string, int>, insns: map<int, S.Stmt>)
  {
    && Mapped(q, insns)
    && forall i :: 0 <= i < |q| && q[i].Insn? ==> ReadAt(q, labels, insns, i)
  }

  predicate ReadAt(q: Source, labels: map<string, int>, insns: map<int, S.Stmt>, i: nat)
    requires i < |q|
  {
    q[i].text != [] && Old(q, i) in insns && ReadingOf(q[i], labels) == Some(insns[Old(q, i)])
  }

  lemma {:induction false} MappedInsns(q: Source, insns: map<int, S.Stmt>)
    requires Old(q, |q|) <= 0x1000 && Mapped(q, insns)
    ensures A.Insns(insns)
  {
    forall pc | pc in insns ensures A.ENTRY <= pc < A.LIMIT {
      var i :| 0 <= i < |q| && q[i].Insn? && Old(q, i) == pc;
      assert Old(q, i + 1) == Old(q, i) + 2;
      C.NewIncreases(q, UNCHANGED, i + 1, |q|);
    }
  }

  /** Whether the analysis reads the words does not depend on the labels. */
  lemma ReadAnyway(op: string, args: seq<string>, labels: map<string, int>, more: map<string, int>)
    ensures S.Classify(op, args, labels).Some? <==> S.Classify(op, args, more).Some?
  {
    hide S.Digit, Resolve;
  }

  lemma AddressingRead(t: seq<string>, labels: map<string, int>)
    requires Addressing(t)
    ensures S.Classify(t[0], t[1..], labels).Some?
  {
    hide Resolve;
  }

  /** An accepted source is read without an exception, also symbolized. */
  lemma {:induction false} SymbolizedRead(p: Source, symbols: Asm.Symbols, labels: map<string, int>, i: nat)
    requires Assembles(p, symbols) && i < |p| && p[i].Insn?
    ensures Symbolized(p)[i].Insn? && Symbolized(p)[i].text != [] && ReadingOf(Symbolized(p)[i], labels).Some?
  {
    hide Addr, Symbolized, Generated, GeneratedName, NameAt, Index, Addressing, Asm.Instruction, S.Classify, Placed, Numeral;
    var s, t := p[i], Symbolized(p)[i];
    assert EncodesAt(s, symbols);
    SymbolizedAt(p, i);
    if Hit(p, s) {
      HitGenerated(p, s);
      LastValue(p, symbols, i) by { hide Assembles, EncodesAt; }
      StillAddressing(s.text, t.text);
      AddressingRead(t.text, labels);
    } else {
      S.Classifies(s.text, symbols);
      ReadAnyway(s.text[0], s.text[1..], symbols, labels);
    }
  }

  /** The statements as the analysis reads them. */
  method ReadAll(q: Source, labels: map<string, int>) returns (insns: map<int, S.Stmt>)
    requires forall i :: 0 <= i < |q| && q[i].Insn? ==> q[i].text != [] && ReadingOf(q[i], labels).Some?
    ensures ReadAs(q, labels, insns)
  {
    hide Addr, ReadingOf;
    insns := map[];
    for i := 0 to |q|
      invariant forall pc :: pc in insns <==> exists k :: 0 <= k < i && q[k].Insn? && Old(q, k) == pc
      invariant forall k :: 0 <= k < i && q[k].Insn? ==> ReadAt(q, labels, insns, k)
    {
      if q[i].Insn? {
        forall k | 0 <= k < i && q[k].Insn? ensures Old(q, k) != Old(q, i) { Apart(q, k, i); }
        insns := insns[Old(q, i) := ReadingOf(q[i], labels).value];
      }
    }
  }

  lemma Apart(q: Source, k: nat, i: nat)
    requires k < i < |q| && q[k].Insn?
    ensures Old(q, k) < Old(q, i)
  {
    assert Old(q, k + 1) == Old(q, k) + 2;
    C.NewIncreases(q, UNCHANGED, k + 1, i);
  }

  // ------------------------------------------- what a refusal comes down to

  /** A recorded write with known bounds lands on a reachable statement. */
  ghost predicate WritesCode(r: A.Report)
  {
    exists a, p :: a in r.accesses && p in r.reachable && Lands(a, p)
  }

  predicate Lands(a: A.Access, p: int)
  {
    a.kind == S.Write && a.start.Some? && a.length.Some? && a.start.value <= p < a.start.value + a.length.value
  }

  /** A computed jump is reached. */
  ghost predicate Computes(insns: map<int, S.Stmt>, inc: A.Incoming)
  {
    exists c :: c in inc && c.pc in insns && insns[c.pc].JumpV0?
  }

  /** Memory is touched through an unknown I, and at no time through an offset from a
      known base. */
  ghost predicate Unfounded(insns: map<int, S.Stmt>, inc: A.Incoming, r: A.Report)
  {
    exists c :: c in inc && UnfoundedAt(insns, inc, r, c)
  }

  ghost predicate UnfoundedAt(insns: map<int, S.Stmt>, inc: A.Incoming, r: A.Report, c: A.Context)
    requires c in inc
  {
    && c.pc in insns && S.Touch(insns[c.pc]).Some? && inc[c].i == None
    && forall a :: a in r.accesses && a.pc == c.pc ==> !Offsets(a)
  }

  /** An access at an unknown offset from a base. */
  predicate Offsets(a: A.Access) { a.kind == S.DynamicRead || a.kind == S.DynamicWrite }

  lemma {:induction false} WritesExact(r: A.Report, end: int)
    requires forall h :: A.OfPayload(h) ==> (h in r.hazards <==> A.IntoPayload(r.accesses, r.reachable, end, h))
    ensures WritesCode(r) <==> exists h :: h in r.hazards && h.SelfModifying?
  {
    hide A.OfPayload;
    if WritesCode(r) {
      var a, p :| a in r.accesses && p in r.reachable && Lands(a, p);
      var h := A.SelfModifying(a.pc, p);
      assert A.OfPayload(h) by { PayloadKind(h); }
      assert h in A.Overwrites(a, r.reachable, end);
    }
    if h :| h in r.hazards && h.SelfModifying? {
      PayloadKind(h);
      assert A.IntoPayload(r.accesses, r.reachable, end, h);
      var a :| a in r.accesses && h in A.Overwrites(a, r.reachable, end);
      assert h.code in r.reachable && Lands(a, h.code);
    }
  }

  lemma PayloadKind(h: A.Hazard)
    ensures h.SelfModifying? ==> A.OfPayload(h)
    ensures h.ComputedJump? || h.DynamicI? ==> !A.OfPayload(h)
  {}

  lemma {:induction false} ComputesExact(insns: map<int, S.Stmt>, inc: A.Incoming, r: A.Report)
    requires A.Analyzed(insns, inc, A.WalkPart(r))
    ensures Computes(insns, inc) <==> exists h :: h in r.hazards && h.ComputedJump?
  {
    hide A.ClosedAt, A.Reaches, A.Accesses, A.TableOk, S.Touch, A.Below, A.Transitions;
    if c :| c in inc && c.pc in insns && insns[c.pc].JumpV0? {
      assert A.Noted(insns, inc, A.WalkPart(r), c);
      assert A.ComputedJump(c.pc) in A.HazardsOf(insns[c.pc], c, inc[c]);
    }
    if h :| h in r.hazards && h.ComputedJump? {
      PayloadKind(h);
      assert h in A.WalkPart(r).hazards;
      assert A.Risks(insns, inc, h);
      var c, k :| A.Met(insns, inc, c, k) && h in A.HazardsOf(insns[c.pc], c, k);
    }
  }

  lemma {:induction false} UnfoundedExact(insns: map<int, S.Stmt>, inc: A.Incoming, r: A.Report)
    requires A.Analyzed(insns, inc, A.WalkPart(r))
    ensures Unfounded(insns, inc, r) <==> exists h :: h in r.hazards && h.DynamicI? && !Proven(r, h.pc)
  {
    hide A.Analyzed, S.Touch;
    if c :| c in inc && UnfoundedAt(insns, inc, r, c) {
      A.UnknownMade(insns, inc, A.WalkPart(r), c);
      assert A.DynamicI(c.pc) in r.hazards && !Proven(r, c.pc);
    }
    if h :| h in r.hazards && h.DynamicI? && !Proven(r, h.pc) {
      PayloadKind(h);
      assert h in A.WalkPart(r).hazards;
      A.UnknownShown(insns, inc, A.WalkPart(r), h.pc);
      var c :| c in inc && c.pc == h.pc && inc[c].i == None;
      assert UnfoundedAt(insns, inc, r, c);
    }
  }

  /** The hazards block exactly if code is written, a computed jump is reached, or an
      access has no base. */
  lemma {:induction false} BlockedExact(insns: map<int, S.Stmt>, inc: A.Incoming, r: A.Report, end: int)
    requires A.Analyzed(insns, inc, A.WalkPart(r))
    requires forall h :: A.OfPayload(h) ==> (h in r.hazards <==> A.IntoPayload(r.accesses, r.reachable, end, h))
    ensures Blocked(r) <==> WritesCode(r) || Computes(insns, inc) || Unfounded(insns, inc, r)
  {
    WritesExact(r, end);
    ComputesExact(insns, inc, r);
    UnfoundedExact(insns, inc, r);
    hide A.Analyzed, A.IntoPayload, A.OfPayload, Proven, WritesCode, Computes, Unfounded;
    if h :| h in r.hazards && h.SelfModifying? { assert Blocks(r, h); }
    if h :| h in r.hazards && h.ComputedJump? { assert Blocks(r, h); }
    if h :| h in r.hazards && h.DynamicI? && !Proven(r, h.pc) { assert Blocks(r, h); }
  }

  /** An origin, or a numeric address inside the ROM at which no statement starts. */
  ghost predicate Rigid(p: Source)
  {
    exists i :: 0 <= i < |p| && RigidAt(p, p[i])
  }

  predicate RigidAt(p: Source, s: Stmt)
  {
    s.Org? || (Refers(s) && ENTRYPOINT <= Numeral(s).value < Old(p, |p|) && !Boundary(p, Numeral(s).value))
  }

  /** Symbolization leaves nothing fixed but that. */
  lemma {:induction false} SymbolizedFixed(p: Source, symbols: Asm.Symbols)
    requires Assembles(p, symbols)
    ensures Fixed(Symbolized(p)) <==> Rigid(p)
  {
    hide Symbolized, Addr, Placed, EncodesAt, Boundary, RigidAt, FixedAt;
    var q := Symbolized(p);
    forall i | 0 <= i < |p| ensures FixedAt(q, q[i]) <==> RigidAt(p, p[i]) { StmtStays(p, symbols, i); }
    if Rigid(p) {
      var i :| 0 <= i < |p| && RigidAt(p, p[i]);
      assert FixedAt(q, q[i]);
    }
    if Fixed(q) {
      var i :| 0 <= i < |q| && FixedAt(q, q[i]);
      assert RigidAt(p, p[i]);
    }
  }

  lemma {:induction false} StmtStays(p: Source, symbols: Asm.Symbols, i: nat)
    requires Assembles(p, symbols) && i < |p|
    ensures FixedAt(Symbolized(p), Symbolized(p)[i]) <==> RigidAt(p, p[i])
  {
    hide Symbolized, Addr, Placed, EncodesAt, GeneratedName, NameAt, Index, Addressing, ParseNumber, Existing;
    var s, t := p[i], Symbolized(p)[i];
    SymbolizedAt(p, i) by { hide Generated; }
    SameLayout(p, |p|);
    if Hit(p, s) {
      HitGenerated(p, s);
      NameNoAddress(p, symbols, Numeral(s).value);
    }
  }

  /** What replaces a number is none. */
  lemma {:induction false} NameNoAddress(p: Source, symbols: Asm.Symbols, v: address)
    requires Assembles(p, symbols) && Generated(p, v)
    ensures ParseNumber(NameAt(p, v)) == None
  {
    hide Addr, Generated, Asm.IsName, ParseNumber, Placed, GeneratedName, Number;
    AllNamed(p, symbols);
    NameGiven(v);
    if Existing(p, v, |p|).Some? {
      var k :| 0 <= k < |p| && Old(p, k) == v && p[k].labels != [] && p[k].labels[0] == Existing(p, v, |p|).value;
      LabelKnown(p, symbols, k, p[k].labels[0]);
    }
    NameNoNumber(NameAt(p, v));
  }

  lemma LabelKnown(p: Source, symbols: Asm.Symbols, k: nat, l: string)
    requires Assembles(p, symbols) && k < |p| && l in p[k].labels
    ensures l in symbols
  {
    hide Addr, Addressing, Asm.Line, EncodesAt, Asm.IsName;
    assert Placed(p, symbols, k);
  }

  /** The loop drops nothing that is pinned. */
  lemma {:induction false} PlanFree(p: Source, pinned: set<nat>, i: nat)
    ensures forall k :: k in Plan(p, pinned, i).drop ==> k < |p| && k !in pinned
    decreases |p| - i
  {
    hide Protected, NoOpText, FoldsText, OverwrittenText, TailText, SumText;
    if i < |p| {
      PlanFree(p, pinned, i + 1);
      if i + 1 < |p| { PlanFree(p, pinned, i + 2); }
    }
  }

  // ------------------------------------------------------------- the whole

  /** optimize_peepholes: symbolize, read the statements, analyze them, refuse what
      a new layout would break, pin what a dynamic base reaches, run the loop. Of
      a source without signs it compacts only what may be laid out anew, and
      without a label I it makes only edits the assembled statements allow. */
  method OptimizeSource(p: Source, symbols: Asm.Symbols)
    returns (q: Source, labels: Asm.Symbols, insns: map<int, S.Stmt>, e: Option<Edit>, r: A.Report, ghost inc: A.Incoming)
    requires Assembles(p, symbols)
    ensures q == Symbolized(p) && labels == Extended(p, symbols, |p|) && ReadAs(q, labels, insns)
    ensures A.Analyzed(insns, inc, A.WalkPart(r))
    ensures forall h :: A.OfPayload(h) ==> (h in r.hazards <==> A.IntoPayload(r.accesses, r.reachable, Old(q, |q|), h))
    ensures e.None? <==> Rigid(p) || WritesCode(r) || Computes(insns, inc) || Unfounded(insns, inc, r)
    ensures e.Some? ==> forall i, a :: i in e.value.drop && a in r.accesses && Offsets(a) && a.start.Some? ==> i < |q| && Old(q, i) < a.start.value
    ensures e.Some? ==> e.value == Plan(q, Pinned(q, r), 0) && Planned(q, e.value)
    ensures e.Some? && AllPlain(p) && Fresh(p, symbols) ==> Assembles(q, labels) && Accepted(q) && R.Turnable(q, e.value)
    ensures e.Some? && AllPlain(p) && Fresh(p, symbols) && "I" !in symbols ==> Legal(q, e.value)
  {
    hide Symbolized, Extended, Addr, Plan, Planned, A.Analyzed, A.IntoPayload, Blocks, R.Turnable, ReadAs, Pinned, Accepted, Legal, EncodesAt, Placed, Fresh, AllPlain,
      FixedAt, ReadingOf, A.OfPayload, Rigid, WritesCode, Computes, Unfounded;
    q, labels := Symbolize(p, symbols);
    forall i | 0 <= i < |q| && q[i].Insn? ensures q[i].text != [] && ReadingOf(q[i], labels).Some? { StillInsn(p, i); SymbolizedRead(p, symbols, labels, i); }
    insns := ReadAll(q, labels);
    SameLayout(p, |p|);
    MappedInsns(q, insns) by { IsMapped(q, labels, insns); }
    inc, r := A.Analyze(insns, Old(q, |q|));
    BlockedExact(insns, inc, r, Old(q, |q|));
    SymbolizedFixed(p, symbols);
    if Fixed(q) || (exists h :: h in r.hazards && Blocks(r, h)) {
      e := None;
      return;
    }
    var plan := Optimize(q, Pinned(q, r));
    e := Some(plan);
    BehindKept(q, r);
    if AllPlain(p) && Fresh(p, symbols) { PlainSource(p, symbols, plan); }
  }

  lemma {:induction false} BehindKept(q: Source, r: A.Report)
    ensures forall i, a :: i in Plan(q, Pinned(q, r), 0).drop && a in r.accesses && Offsets(a) && a.start.Some? ==> i < |q| && Old(q, i) < a.start.value
  {
    PlanFree(q, Pinned(q, r), 0);
    PinnedBehind(q, r);
    hide Plan, Addr, Pinned;
  }

  lemma PinnedBehind(q: Source, r: A.Report)
    ensures forall i, a :: 0 <= i < |q| && a in r.accesses && Offsets(a) && a.start.Some? && Old(q, i) >= a.start.value ==> i in Pinned(q, r)
  {
    hide Addr;
    forall i, a | 0 <= i < |q| && a in r.accesses && Offsets(a) && a.start.Some? && Old(q, i) >= a.start.value ensures i in Pinned(q, r) {
      assert Pins(q, i, a);
    }
  }

  lemma IsMapped(q: Source, labels: map<string, int>, insns: map<int, S.Stmt>)
    requires ReadAs(q, labels, insns)
    ensures Mapped(q, insns)
  {
    hide ReadAt, Addr;
  }

  lemma StillInsn(p: Source, i: nat)
    requires Fits(p) && i < |p|
    ensures Symbolized(p)[i].Insn? <==> p[i].Insn?
  {
    SymbolizedAt(p, i);
    hide Symbolized, Addr, Generated, Numeral, NameAt, GeneratedName;
  }

  lemma {:induction false} PlainSource(p: Source, symbols: Asm.Symbols, e: Edit)
    requires Assembles(p, symbols) && AllPlain(p) && Fresh(p, symbols) && !Fixed(Symbolized(p)) && Planned(Symbolized(p), e)
    ensures Assembles(Symbolized(p), Extended(p, symbols, |p|)) && Accepted(Symbolized(p)) && R.Turnable(Symbolized(p), e)
    ensures "I" !in symbols ==> Legal(Symbolized(p), e)
  {
    hide Symbolized, Extended, Addr, Planned, Accepted, Legal, EncodesAt, Placed, Fresh, AllPlain, FixedAt, Asm.Line, R.Turnable;
    var q, m := Symbolized(p), Extended(p, symbols, |p|);
    SymbolizedAssembles(p, symbols);
    FixedExact(q, m);
    R.PlannedTurns(q, e, m);
    if "I" !in symbols { PlainLegal(q, e, m); }
  }
}
