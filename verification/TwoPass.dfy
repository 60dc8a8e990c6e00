/** The passes of the assembler agree: every line has the same address and size
    in both, so a label is the place its line's output ends up at. */
module TwoPass {
  import opened Chip8
  import opened Text
  import opened Asm

  /** Later tables only add names. */
  ghost predicate Extends(a: Symbols, b: Symbols)
  {
    forall k :: k in a ==> k in b && b[k] == a[k]
  }

  /** Resolving symbols adds no failure but an undefined or out-of-range operand. */
  ghost predicate Settles<T, U>(one: Result<T>, two: Result<U>)
  {
    one.Ok? && two.Fail? ==> two.error in {UndefinedSymbol, OutOfRange}
  }

  // ---------------------------------------------------------------- one line

  lemma {:induction false} ValueSettles(s: string, a: Symbols, b: Symbols)
    requires Extends(a, b)
    ensures Settles(Value(s, a, false), Value(s, b, true))
    ensures Value(s, a, false).Ok? && Value(s, a, false).value != 0 ==> Value(s, b, true) == Value(s, a, false)
  {}

  lemma {:induction false} RangedSettles(s: string, max: nat, a: Symbols, b: Symbols)
    requires Extends(a, b)
    ensures Settles(Ranged(s, max, a, false), Ranged(s, max, b, true))
  {
    ValueSettles(s, a, b);
    hide Extends, Value;
  }

  lemma {:induction false} RegisterOrByteSettles(x: nibble, s: string, reg: word, byt: word, a: Symbols, b: Symbols)
    requires Extends(a, b) && reg % 0x1000 < 0x10 && reg <= 0xF000 && byt % 0x1000 == 0
    ensures Settles(RegisterOrByte(x, s, reg, byt, a, false), RegisterOrByte(x, s, reg, byt, b, true))
    ensures Settles(WithByte(x, s, byt, a, false), WithByte(x, s, byt, b, true))
  {
    RangedSettles(s, 0xFF, a, b);
    hide Extends, Ranged, Encode, Register;
  }

  lemma {:induction false} AddressSettles(s: string, base: word, a: Symbols, b: Symbols)
    requires Extends(a, b) && base <= 0xF000
    ensures Settles(WithAddress(s, base, a, false), WithAddress(s, base, b, true))
  {
    RangedSettles(s, 0xFFF, a, b);
    hide Extends, Ranged;
  }

  lemma {:induction false} JumpSettles(t: seq<string>, a: Symbols, b: Symbols)
    requires Extends(a, b)
    ensures Settles(Jump(t, a, false), Jump(t, b, true)) && Settles(CallTo(t, a, false), CallTo(t, b, true))
  {
    if |t| >= 2 {
      AddressSettles(t[1], 0x1000, a, b);
      AddressSettles(t[1], 0x2000, a, b);
    }
    if |t| == 3 { AddressSettles(t[2], 0xB000, a, b); }
    hide Extends, WithAddress;
  }

  lemma {:induction false} SkipSettles(t: seq<string>, equal: bool, a: Symbols, b: Symbols)
    requires Extends(a, b)
    ensures Settles(Skip(t, equal, a, false), Skip(t, equal, b, true))
  {
    if |t| == 3 && Register(t[1]).Ok? {
      var x := Register(t[1]).value;
      RegisterOrByteSettles(x, t[2], 0x5000, 0x3000, a, b);
      RegisterOrByteSettles(x, t[2], 0x9000, 0x4000, a, b);
    }
    hide Extends, RegisterOrByte, Register;
  }

  lemma {:induction false} LoadSettles(t: seq<string>, a: Symbols, b: Symbols)
    requires Extends(a, b)
    ensures Settles(LoadTo(t, a, false), LoadTo(t, b, true)) && Settles(Add(t, a, false), Add(t, b, true))
  {
    if |t| == 3 {
      AddressSettles(t[2], 0xA000, a, b);
      if Register(t[1]).Ok? {
        var x := Register(t[1]).value;
        RegisterOrByteSettles(x, t[2], 0x8000, 0x6000, a, b);
        RegisterOrByteSettles(x, t[2], 0x8004, 0x7000, a, b);
      }
    }
    hide Extends, WithAddress, RegisterOrByte, Register, Encode, WithX;
  }

  lemma {:induction false} RandomSettles(t: seq<string>, a: Symbols, b: Symbols)
    requires Extends(a, b)
    ensures Settles(Random(t, a, false), Random(t, b, true)) && Settles(Draw(t, a, false), Draw(t, b, true))
  {
    if |t| == 4 { RangedSettles(t[3], 0xF, a, b); }
    if |t| == 3 && Register(t[1]).Ok? { RegisterOrByteSettles(Register(t[1]).value, t[2], 0, 0xC000, a, b); }
    hide Extends, Ranged, Register, Encode, WithByte, RegisterOrByte;
  }

  lemma {:induction false} InstructionSettles(t: seq<string>, a: Symbols, b: Symbols)
    requires Extends(a, b) && t != []
    ensures Settles(Instruction(t, a, false), Instruction(t, b, true))
  {
    hide Extends, Jump, CallTo, Skip, LoadTo, Add, Random, Draw, Logic, Shift, SkipKey, Bare;
    JumpSettles(t, a, b);
    SkipSettles(t, true, a, b);
    SkipSettles(t, false, a, b);
    LoadSettles(t, a, b);
    RandomSettles(t, a, b);
  }

  lemma {:induction false} DataSettles(ts: seq<string>, wide: bool, a: Symbols, b: Symbols)
    requires Extends(a, b)
    ensures Settles(Data(ts, wide, a, false), Data(ts, wide, b, true))
  {
    if ts != [] {
      RangedSettles(ts[0], if wide then 0xFFFF else 0xFF, a, b);
      DataSettles(ts[1..], wide, a, b);
    }
    hide Extends, Ranged;
  }

  /** `.org` cannot depend on a label that is still to come: it would read as 0,
      which is below the entry point. */
  lemma {:induction false} OrgSettles(t: seq<string>, pc: nat, a: Symbols, b: Symbols)
    requires Extends(a, b) && Org(t, pc, a, false).Ok?
    ensures Org(t, pc, b, true) == Org(t, pc, a, false)
  {
    ValueSettles(t[1], a, b);
    hide Extends, Value;
  }

  /** The size of a line does not depend on what its symbols are. */
  lemma {:induction false} LineSettles(t: seq<string>, pc: nat, a: Symbols, b: Symbols)
    requires Extends(a, b) && Line(t, pc, a, false).Ok?
    ensures Settles(Line(t, pc, a, false), Line(t, pc, b, true))
    ensures Line(t, pc, b, true).Ok? ==> |Line(t, pc, b, true).value| == |Line(t, pc, a, false).value|
  {
    if t != [] {
      if t[0] == ".ORG" { OrgSettles(t, pc, a, b); }
      else if |t| >= 2 && t[0] == ".BYTE" { DataSettles(t[1..], false, a, b); }
      else if |t| >= 2 && t[0] == ".WORD" { DataSettles(t[1..], true, a, b); }
      else { InstructionSettles(t, a, b); }
    }
    hide Extends, Org, Data, Instruction;
  }

  // --------------------------------------------------------------- all lines

  /** The labels of the first `k` lines. */
  ghost predicate Defines(lines: seq<string>, k: nat, name: string)
    requires k < |lines|
  {
    Labelled(Tokens(lines[k])) && LabelName(Tokens(lines[k])) == name
  }

  lemma {:induction false} StepExtends(s: State, line: string)
    requires StepOne(s, line).Ok?
    ensures Extends(s.symbols, StepOne(s, line).value.symbols)
  {
    hide Line, Tokens;
  }

  lemma {:induction false} PassOnePrefix(lines: seq<string>, k: nat)
    requires PassOne(lines).Ok? && k <= |lines|
    ensures PassOne(lines[..k]).Ok?
    ensures Extends(PassOne(lines[..k]).value.symbols, PassOne(lines).value.symbols)
    decreases |lines|
  {
    if k == |lines| {
      assert lines[..k] == lines;
    } else {
      var front, last := lines[..|lines| - 1], lines[|lines| - 1];
      assert front[..k] == lines[..k];
      PassOnePrefix(front, k);
      StepExtends(PassOne(front).value, last);
      ExtendsTrans(PassOne(front[..k]).value.symbols, PassOne(front).value.symbols, PassOne(lines).value.symbols);
    }
    hide StepOne, Extends;
  }

  lemma {:induction false} ExtendsTrans(a: Symbols, b: Symbols, c: Symbols)
    requires Extends(a, b) && Extends(b, c)
    ensures Extends(a, c)
  {}

  /** The second pass keeps step with the first, on every prefix. */
  lemma {:induction false} PassesAgree(lines: seq<string>, all: Symbols)
    requires PassOne(lines).Ok? && Extends(PassOne(lines).value.symbols, all)
    ensures Settles(PassOne(lines), PassTwo(all, lines))
    ensures PassTwo(all, lines).Ok? ==> PassOne(lines).value.pc == 0x200 + |PassTwo(all, lines).value|
    decreases |lines|
  {
    hide StepOne, StepTwo, Extends;
    if lines != [] {
      var front, last := lines[..|lines| - 1], lines[|lines| - 1];
      FrontExtends(lines, all);
      PassesAgree(front, all);
      StepSettles(PassOne(front).value, last, all);
    }
  }

  lemma {:induction false} FrontExtends(lines: seq<string>, all: Symbols)
    requires lines != [] && PassOne(lines).Ok? && Extends(PassOne(lines).value.symbols, all)
    ensures
      var front := PassOne(lines[..|lines| - 1]);
      front.Ok? && Extends(front.value.symbols, all) && PassOne(lines) == StepOne(front.value, lines[|lines| - 1])
  {
    hide StepOne, Extends;
    var s := PassOne(lines[..|lines| - 1]).value;
    StepExtends(s, lines[|lines| - 1]);
    ExtendsTrans(s.symbols, PassOne(lines).value.symbols, all);
  }

  lemma {:induction false} StepSettles(s: State, line: string, all: Symbols)
    requires StepOne(s, line).Ok? && Extends(StepOne(s, line).value.symbols, all)
    ensures Settles(StepOne(s, line), StepTwo(all, s.pc, line))
    ensures StepTwo(all, s.pc, line).Ok? ==> StepOne(s, line).value.pc == s.pc + |StepTwo(all, s.pc, line).value|
  {
    LineSettles(Unlabelled(Tokens(line)), s.pc, StepOne(s, line).value.symbols, all);
    hide Line, Tokens, Extends;
  }

  lemma {:induction false} StepDefines(s: State, line: string)
    requires StepOne(s, line).Ok?
    ensures forall name ::
      name in StepOne(s, line).value.symbols <==> name in s.symbols || (Labelled(Tokens(line)) && LabelName(Tokens(line)) == name)
    ensures Labelled(Tokens(line)) ==>
      LabelName(Tokens(line)) !in s.symbols && StepOne(s, line).value.symbols[LabelName(Tokens(line))] == s.pc
  {
    hide Line, Tokens;
  }

  /** A label is the address its line had. */
  lemma {:induction false} LabelPlace(lines: seq<string>, k: nat, name: string)
    requires PassOne(lines).Ok? && k < |lines| && Defines(lines, k, name)
    ensures PassOne(lines[..k]).Ok?
    ensures name in PassOne(lines).value.symbols && PassOne(lines).value.symbols[name] == PassOne(lines[..k]).value.pc
  {
    PassOnePrefix(lines, k + 1);
    assert lines[..k + 1][..k] == lines[..k];
    StepDefines(PassOne(lines[..k]).value, lines[k]);
    hide StepOne, Tokens;
  }

  /** The symbol table holds exactly the labels of the text. */
  lemma {:induction false} LabelsAreLines(lines: seq<string>, name: string)
    requires PassOne(lines).Ok?
    ensures name in PassOne(lines).value.symbols <==> exists k :: 0 <= k < |lines| && Defines(lines, k, name)
    decreases |lines|
  {
    if k :| 0 <= k < |lines| && Defines(lines, k, name) {
      LabelPlace(lines, k, name);
    } else if lines != [] {
      var front := lines[..|lines| - 1];
      StepDefines(PassOne(front).value, lines[|lines| - 1]);
      assert !Defines(lines, |lines| - 1, name);
      LabelsAreLines(front, name);
      forall k | 0 <= k < |front| ensures !Defines(front, k, name) {
        assert !Defines(lines, k, name);
      }
    }
    hide StepOne, Tokens;
  }

  /** Where the output of line `k` starts. */
  ghost function Place(all: Symbols, lines: seq<string>, k: nat): nat
    requires k <= |lines| && PassTwo(all, lines[..k]).Ok?
  {
    0x200 + |PassTwo(all, lines[..k]).value|
  }

  lemma {:induction false} PassTwoPrefix(all: Symbols, lines: seq<string>, k: nat)
    requires PassTwo(all, lines).Ok? && k <= |lines|
    ensures PassTwo(all, lines[..k]).Ok? && PassTwo(all, lines[..k]).value <= PassTwo(all, lines).value
    decreases |lines|
  {
    if k == |lines| {
      assert lines[..k] == lines;
    } else {
      assert lines[..|lines| - 1][..k] == lines[..k];
      PassTwoPrefix(all, lines[..|lines| - 1], k);
    }
    hide StepTwo;
  }

  /** Once the first pass is through, the second can only fail on an operand
      that is undefined or out of range; and if it succeeds, every label equals
      the address of the output of its own line. */
  lemma {:induction false} TwoPassAgreement(lines: seq<string>, k: nat, name: string)
    requires PassOne(lines).Ok? && k < |lines|
    ensures Settles(PassOne(lines), PassTwo(PassOne(lines).value.symbols, lines))
    ensures
      var all := PassOne(lines).value.symbols;
      PassTwo(all, lines).Ok? ==>
        && PassOne(lines).value.pc == 0x200 + |PassTwo(all, lines).value| <= MEMORY_SIZE
        && PassOne(lines[..k]).Ok? && PassTwo(all, lines[..k]).Ok?
        && PassOne(lines[..k]).value.pc == Place(all, lines, k)
        && PassTwo(all, lines[..k]).value <= PassTwo(all, lines).value
        && (Defines(lines, k, name) ==> name in all && all[name] == Place(all, lines, k))
  {
    var all := PassOne(lines).value.symbols;
    PassesAgree(lines, all);
    PassOnePrefix(lines, k);
    PassesAgree(lines[..k], all);
    if Defines(lines, k, name) { LabelPlace(lines, k, name); }
    if PassTwo(all, lines).Ok? { PassTwoPrefix(all, lines, k); }
    FinalPc(lines);
    hide PassOne, PassTwo, Defines;
  }

  lemma {:induction false} FinalPc(lines: seq<string>)
    requires PassOne(lines).Ok?
    ensures 0x200 <= PassOne(lines).value.pc <= MEMORY_SIZE
  {
    if lines != [] {
      FinalPc(lines[..|lines| - 1]);
    }
    hide Line, Tokens;
  }
}
