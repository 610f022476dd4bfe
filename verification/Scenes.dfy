/** A write on a device that is otherwise idle, from its submission to its callback: the small runs
    that show what can go wrong are put together from these. */
module Scenes {
  import opened Machine
  import opened Invariant
  import opened Runs
  import opened Placement
  import opened ResetHalves

  function Writer(b: nat, d: Page, st: Status): Io {
    Task(User, b, d, Pbid(0, 0), st, None, if InTree(st) then 2 else 1)
  }

  // A reachable state, every step of which is defined.
  ghost predicate Arrived(c: Config, s: State) {
    Reachable(c, s) && WellFormed(c, s)
  }

  // Nothing is under way.
  ghost predicate Still(c: Config, s: State) {
    Arrived(c, s) && s.ios == map[] && s.tree == map[] && s.sched == IDLE
  }

  lemma Start(c: Config) returns (s: State)
    requires c.Valid()
    ensures s == Initial(c) && Still(c, s)
  {
    hide Inv, WellFormed;
    s := Initial(c);
    EmptyRun(c, s);
    InitialSound(c);
    SoundShape(c, s);
  }

  // The zone that stream k takes its next block from.
  function Next(s: State, k: nat): nat
    requires k < |s.active| && HasRoom(s, k)
  {
    if s.active[k].Some? then s.active[k].value else s.empty[0]
  }

  ghost predicate CanWrite(c: Config, s: State, b: nat, k: nat) {
    && Still(c, s) && b < c.blocks && k < |s.active| && s.allocable >= c.cap && HasRoom(s, k)
    && |s.active| == c.streams && |s.zones| == c.zones && Next(s, k) < c.zones
    && (b in s.mapping ==> s.mapping[b].zone < |s.zones|)
  }

  // The zone with one more block allocated in it, of a stream that may just have opened it.
  function Taken(c: Config, z: Zone, k: nat, first: bool): Zone {
    TakeZone(c, if first then GetZone(z).(phase := Active(k), cond := CondOpen) else z)
  }

  /** Block b has been given the next block of stream k. */
  ghost function Allotted(c: Config, s: State, b: nat, d: Page, k: nat): State
    requires CanWrite(c, s, b, k)
  {
    var z, first := Next(s, k), s.active[k].None?;
    var zone := Taken(c, s.zones[z], k, first);
    s.(zones := s.zones[z := zone],
       empty := if first then s.empty[1..] else s.empty,
       active := s.active[k := if zone.wp == c.cap then None else Some(z)],
       ios := map[0 := Writer(b, d, Writing(z))], tree := map[b := 0],
       allocable := s.allocable - 1, valid := s.valid + 1, userInflight := s.userInflight + 1)
  }

  /** And the write is complete. */
  ghost function Written(c: Config, s: State, b: nat, d: Page, k: nat): State
    requires CanWrite(c, s, b, k)
  {
    var s1, z := Allotted(c, s, b, d, k), Next(s, k);
    var off := |s.zones[z].data|;
    var stored := Stored(c, s, b, d, k);
    var zones := if b in s.mapping then Released(stored, s.mapping[b]) else stored;
    s1.(zones := zones[z := LandZone(zones[z], off, b)], mapping := s.mapping[b := Pbid(z, off)],
        ios := map[], tree := map[], valid := s1.valid - if b in s.mapping then 1 else 0,
        userInflight := s.userInflight)
  }

  lemma BringIn(c: Config, s: State, b: nat, d: Page) returns (s': State)
    requires Still(c, s) && b < c.blocks
    ensures Arrived(c, s')
    ensures s' == s.(ios := map[0 := Writer(b, d, Alloc({}))], tree := map[b := 0],
                     sched := IDLE.(turns := map[0 := Going({})]), userInflight := s.userInflight + 1)
  {
    hide Inv, WellFormed, Reachable;
    var s1 := ReachStep(c, s, LSubmit(0, b, d));
    s' := ReachStep(c, s1, LInsert(0));
    assert s'.ios == map[0 := Writer(b, d, Alloc({}))] && s'.tree == map[b := 0];
  }

  lemma IssueBlock(c: Config, s: State, b: nat, d: Page, k: nat) returns (s': State)
    requires CanWrite(c, s, b, k)
    ensures Arrived(c, s') && s' == Allotted(c, s, b, d, k)
  {
    hide Inv, WellFormed, Reachable, TakeZone;
    var s1 := BringIn(c, s, b, d);
    s' := ReachStep(c, s1, LTryAlloc(0, k));
    var w := Allotted(c, s, b, d, k);
    assert s'.sched.turns == map[] && s'.zones == w.zones && s'.empty == w.empty && s'.active == w.active;
    assert s'.ios == map[0 := Writer(b, d, Writing(Next(s, k)))];
  }

  lemma TakenData(c: Config, z: Zone, k: nat, first: bool)
    ensures Taken(c, z, k, first).data == z.data
  {
  }

  // The zones once the page is stored.
  ghost function Stored(c: Config, s: State, b: nat, d: Page, k: nat): seq<Zone>
    requires CanWrite(c, s, b, k)
  {
    var s1, z := Allotted(c, s, b, d, k), Next(s, k);
    s1.zones[z := s1.zones[z].(data := s1.zones[z].data + [d])]
  }

  lemma LandBlock(c: Config, s: State, b: nat, d: Page, k: nat) returns (s': State)
    requires CanWrite(c, s, b, k)
    ensures Arrived(c, s')
    ensures s' == Allotted(c, s, b, d, k).(zones := Stored(c, s, b, d, k),
                                           ios := map[0 := Writer(b, d, Landed(Pbid(Next(s, k),
                                                                                    |s.zones[Next(s, k)].data|)))])
  {
    hide Inv, WellFormed, Reachable, Taken, HasRoom;
    var s1 := IssueBlock(c, s, b, d, k);
    TakenData(c, s.zones[Next(s, k)], k, s.active[k].None?);
    s' := ReachStep(c, s1, LAppend(0));
    assert s'.ios == map[0 := Writer(b, d, Landed(Pbid(Next(s, k), |s.zones[Next(s, k)].data|)))];
  }

  lemma WriteBlock(c: Config, s: State, b: nat, d: Page, k: nat) returns (s': State)
    requires CanWrite(c, s, b, k)
    ensures Still(c, s') && s' == Written(c, s, b, d, k)
  {
    hide Inv, WellFormed, Reachable, Taken, PutZone, HasRoom;
    var s2 := LandBlock(c, s, b, d, k);
    s' := ReachStep(c, s2, LEndio(0));
    assert s'.ios == map[] && s'.tree == map[];
    assert s'.mapping == Written(c, s, b, d, k).mapping;
  }
}
