/** Which jump targets keep their label when unreachable words are glued. */
module Gluing {
  import opened Chip8
  import opened Disas
  import opened DisasEngine

  /** Reachable code jumps to, or calls, `t`. */
  ghost predicate JumpedTo(mem: Memory, size: nat, p: int, t: int)
  {
    p in Reachable(mem, size) && Top(OpAt(mem, p)) in {1, 2} && t == NNN(OpAt(mem, p)) && Labelable(t, size)
  }

  lemma {:induction false} TargetLeads(mem: Memory, size: nat, p: int, t: int)
    requires size <= 0xE00 && JumpedTo(mem, size, p, t)
    ensures Leads(mem, size, t)
    ensures t in Reachable(mem, size) <==> ValidOpcode(OpAt(mem, t))
  {
    hide OpAt, ValidOpcode, NNN, Top;
    ReachableClosed(mem, size);
    assert WordBelow(p, size, 0x1000) && Makes(OpAt(mem, p), p, size, t);
    TargetNext(OpAt(mem, p), p);
  }

  lemma TargetNext(op: word, p: int)
    ensures Top(op) in {1, 2} ==> NNN(op) as int in StaticNext(op, p)
  {}

  /** The target of a reachable jump or call keeps its label exactly when it
      holds a valid instruction or starts its dead run. */
  lemma {:induction false} TargetKept(rom: Rom, all: bool, p: int, t: int)
    requires JumpedTo(Image(rom), |rom|, p, t)
    ensures ViewOf(rom, all).leader[t] <==>
      || ValidOpcode(OpAt(Image(rom), t))
      || t == ENTRYPOINT
      || t - 2 in Reachable(Image(rom), |rom|)
  {
    hide OpAt, ValidOpcode, NNN, Top, Leads, Reachable, Glued;
    var v := ViewOf(rom, all);
    var leader := seq(0x1000, a requires 0 <= a < 0x1000 => Leads(v.mem, v.size, a));
    TargetLeads(v.mem, v.size, p, t);
    assert v.leader[t] == Glued(leader, v.reach, v.size, t);
    GluedTarget(leader, v.reach, v.size, t);
    assert v.reach[t] == (Even(t) in Reachable(v.mem, v.size));
    assert t > 0x200 ==> v.reach[t - 1] == (Even(t - 1) in Reachable(v.mem, v.size));
  }

  lemma {:induction false} GluedTarget(leader: seq<bool>, reach: seq<bool>, size: nat, t: int)
    requires |leader| == |reach| == 0x1000 && size <= 0xE00 && Labelable(t, size) && leader[t]
    ensures Glued(leader, reach, size, t) <==> reach[t] || t == ENTRYPOINT || reach[t - 1]
  {}

  const LOST: Rom := [0x12, 0x04, 0x00, 0x00, 0x00, 0x00]

  /** A live jump into the middle of a glued run: the target holds no
      instruction, so it was glued to the dead word before it. */
  lemma {:induction false} TargetLost(all: bool)
    ensures JumpedTo(Image(LOST), 6, 0x200, 0x204) && !ViewOf(LOST, all).leader[0x204]
  {
    var mem := Image(LOST);
    LostWords();
    hide OpAt, Image;
    assert !ValidOpcode(0);
    assert forall s: set<int> :: Closed(mem, 6, s) ==> 0x200 in s;
    assert 0x200 in Reachable(mem, 6) && 0x202 !in Reachable(mem, 6);
    TargetKept(LOST, all, 0x200, 0x204);
  }

  lemma LostWords()
    ensures OpAt(Image(LOST), 0x200) == 0x1204 && OpAt(Image(LOST), 0x202) == 0 && OpAt(Image(LOST), 0x204) == 0
  {
    var m := Image(LOST);
    assert m[0x200] == LOST[0] && m[0x201] == LOST[1] && m[0x202] == LOST[2];
    assert m[0x203] == LOST[3] && m[0x204] == LOST[4] && m[0x205] == LOST[5];
  }

  // ---------------------------------------------------- addresses loaded into I

  /** Reachable code loads I with `t`. */
  ghost predicate LoadedFrom(mem: Memory, size: nat, p: int, t: int)
  {
    p in Reachable(mem, size) && Top(OpAt(mem, p)) == 0xA && t == NNN(OpAt(mem, p)) && Labelable(t, size)
  }

  /** An address that reachable code loads into I is printed as a label exactly
      when it is reachable itself and starts a block, or starts its dead run. */
  lemma {:induction false} AddressKept(rom: Rom, all: bool, p: int, t: int)
    requires LoadedFrom(Image(rom), |rom|, p, t)
    ensures ViewOf(rom, all).leader[t] <==>
      if t in Reachable(Image(rom), |rom|) then Leads(Image(rom), |rom|, t)
      else t == ENTRYPOINT || t - 2 in Reachable(Image(rom), |rom|)
  {
    hide OpAt, ValidOpcode, NNN, Top, Leads, Reachable, Glued;
    var v := ViewOf(rom, all);
    var leader := seq(0x1000, a requires 0 <= a < 0x1000 => Leads(v.mem, v.size, a));
    assert v.leader[t] == Glued(leader, v.reach, v.size, t);
    GluedAddress(leader, v.reach, v.size, t);
    assert v.reach[t] == (Even(t) in Reachable(v.mem, v.size));
    assert t > 0x200 ==> v.reach[t - 1] == (Even(t - 1) in Reachable(v.mem, v.size));
  }

  lemma {:induction false} GluedAddress(leader: seq<bool>, reach: seq<bool>, size: nat, t: int)
    requires |leader| == |reach| == 0x1000 && size <= 0xE00 && Labelable(t, size)
    ensures Glued(leader, reach, size, t) <==> if reach[t] then leader[t] else t == ENTRYPOINT || reach[t - 1]
  {}

  /** LD I, 0x206; JP to itself; then a table whose first word looks like a jump
      to its second. */
  const TABLE: Rom := [0xA2, 0x06, 0x12, 0x02, 0x12, 0x06, 0x00, 0x00]

  /** A live reference into the middle of a glued run, whose label is cleared. */
  lemma {:induction false} AddressLost(all: bool)
    ensures LoadedFrom(Image(TABLE), 8, 0x200, 0x206) && Leads(Image(TABLE), 8, 0x206)
    ensures !ViewOf(TABLE, all).leader[0x206]
  {
    var mem := Image(TABLE);
    TableWords();
    TableReach();
    hide OpAt, Image, Reachable;
    assert WordBelow(0x204, 8, 0x1000) && Makes(OpAt(mem, 0x204), 0x204, 8, 0x206);
    AddressKept(TABLE, all, 0x200, 0x206);
  }

  lemma {:induction false} TableReach()
    ensures 0x200 in Reachable(Image(TABLE), 8) && 0x204 !in Reachable(Image(TABLE), 8) && 0x206 !in Reachable(Image(TABLE), 8)
  {
    var mem := Image(TABLE);
    TableWords();
    TableOps();
    hide OpAt, Image, Top, NNN, ValidOpcode;
    assert Live(mem, 8, 0x200);
    assert forall s: set<int> :: Closed(mem, 8, s) ==> 0x200 in s;
    assert Closed(mem, 8, {0x200, 0x202});
  }

  lemma TableOps()
    ensures Top(0xA206) == 0xA && NNN(0xA206) == 0x206 && Top(0x1202) == 1 && NNN(0x1202) == 0x202 && Top(0x1206) == 1 && NNN(0x1206) == 0x206
    ensures ValidOpcode(0xA206) && ValidOpcode(0x1202)
  {}

  lemma TableWords()
    ensures OpAt(Image(TABLE), 0x200) == 0xA206 && OpAt(Image(TABLE), 0x202) == 0x1202
    ensures OpAt(Image(TABLE), 0x204) == 0x1206 && OpAt(Image(TABLE), 0x206) == 0
  {
    var m := Image(TABLE);
    assert m[0x200] == TABLE[0] && m[0x201] == TABLE[1] && m[0x202] == TABLE[2] && m[0x203] == TABLE[3];
    assert m[0x204] == TABLE[4] && m[0x205] == TABLE[5] && m[0x206] == TABLE[6] && m[0x207] == TABLE[7];
  }
}
