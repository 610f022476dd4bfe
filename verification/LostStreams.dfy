/**
 * What the credit must heed with two streams.  A GC task has tried stream 0 in vain when the credit
 * of a zone comes; user writes take the last block of stream 1 and the credited zone, and the GC
 * task has tried all streams, although its victim could be afforded and a block is left.
 */
module LostStreams {
  import opened Machine
  import opened Invariant
  import opened Frames
  import opened ZoneSteps
  import opened Runs
  import opened Scenes
  import opened ResetHalves
  import opened EarlyReset

  // Three zones of two blocks, two streams and four logical blocks.
  const TRIO := Config(2, 3, 2, 4)

  // The GC task for block 0, read from the end of zone 1.
  function Copier(d: Page, st: Status): Io {
    Task(Mover, 0, d, Pbid(1, 1), st, None, if InTree(st) then 2 else 1)
  }

  // Steps that keep every index and every task reference in range by what they are.
  predicate Tame(s: State, l: Label) {
    l.LSubmit? || l.LMoveRead? || l.LTryAlloc? || l.LTakeWrites? || l.LNext? || l.LTakeCopies?
    || (l.LRecheck? && l.t in s.ios && s.ios[l.t].Task? && !Stale(s, l.t))
    || (l.LInsert? && l.t in s.ios && s.ios[l.t].Task? && s.ios[l.t].blk !in s.tree)
  }

  lemma TameFormed(c: Config, s: State, l: Label)
    requires WellFormed(c, s) && Enabled(c, s, l) && Tame(s, l)
    ensures WellFormed(c, Apply(c, s, l))
  {
    hide InRange, PlacesInRange, TryAlloc, Queues;
    if l.LTryAlloc? {
      AttemptFormed(c, s, l.t, l.stream);
      FormedSched(c, TryAlloc(c, s, l.t, l.stream), Queues(c, s, l));
    } else if l.LSubmit? || l.LMoveRead? || l.LRecheck? || l.LInsert? {
      var io := Apply(c, s, l).ios[l.t];
      TaskInRange(c, s, l.t, io);
      InRangeUpdate(c, s.zones, s.ios, l.t, io);
    }
  }

  lemma FormedSched(c: Config, s: State, q: Sched)
    requires WellFormed(c, s)
    ensures WellFormed(c, s.(sched := q))
  {
    hide InRange, PlacesInRange;
  }

  lemma TaskInRange(c: Config, s: State, t: nat, io: Io)
    requires InRange(c, s.zones, s.ios) && io.Task? && !io.st.Conflict? && !io.st.Parked?
    requires if t !in s.ios then io.kind.User? && io.blk < c.blocks && io.pendingGc.None? && io.st.Init?
             else s.ios[t].Task? && !s.ios[t].st.Done? && io == s.ios[t].(st := io.st, rc := io.rc, data := io.data)
                  && !io.st.Landed? && (io.st.Writing? ==> io.st.zone < c.zones)
    ensures IoInRange(c, s.zones, s.ios[t := io], io)
  {
    if t in s.ios { assert IoInRange(c, s.zones, s.ios, s.ios[t]); }
  }

  lemma DataInRange(c: Config, zones: seq<Zone>, zs: seq<Zone>, ios: map<nat, Io>)
    requires InRange(c, zones, ios) && |zs| == |zones|
    requires forall z :: 0 <= z < |zones| ==> zs[z].data == zones[z].data
    ensures InRange(c, zs, ios)
  {
    forall t | t in ios
      ensures IoInRange(c, zs, ios, ios[t])
    {
      assert IoInRange(c, zones, ios, ios[t]);
    }
  }

  lemma AttemptFormed(c: Config, s: State, t: nat, k: nat)
    requires WellFormed(c, s) && CanAlloc(s, t, k)
    ensures WellFormed(c, TryAlloc(c, s, t, k))
  {
    hide InRange, TryAlloc;
    var s' := TryAlloc(c, s, t, k);
    TryAllocShape(c, s, t, k);
    AttemptLists(c, s, t, k);
    DataInRange(c, s.zones, s'.zones, s.ios);
    TaskInRange(c, s.(zones := s'.zones), t, s'.ios[t]);
    InRangeUpdate(c, s'.zones, s.ios, t, s'.ios[t]);
  }

  lemma AttemptLists(c: Config, s: State, t: nat, k: nat)
    requires WellFormed(c, s) && CanAlloc(s, t, k)
    ensures var s' := TryAlloc(c, s, t, k);
            && |s'.zones| == |s.zones| && (forall z :: 0 <= z < |s.zones| ==> s'.zones[z].data == s.zones[z].data)
            && (forall i :: 0 <= i < |s'.empty| ==> s'.empty[i] < c.zones)
            && (forall i :: 0 <= i < |s'.active| && s'.active[i].Some? ==> s'.active[i].value < c.zones)
            && (s'.ios[t].Task? && s'.ios[t].st.Writing? ==> s'.ios[t].st.zone < c.zones)
  {
    OwnersThere(c, s);
    hide InRange, IoInRange;
    assert |s.zones| == c.zones && (s.active[k].Some? ==> s.active[k].value < c.zones);
    assert s.empty != [] ==> s.empty[0] < c.zones;
  }

  // Block 0 is written four times on stream 0, which fills zones 0 and 1.
  lemma FirstWritten() returns (s: State)
    ensures Still(TRIO, s)
    ensures s == State([Zone(Active(0), CondOpen, 1, 1, 1, 0, map[0 := 0], [7]),
                        FRESH,
                        FRESH],
                       [1, 2], [], [Some(0), None], map[0 := Pbid(0, 0)], map[], map[], IDLE, None, 5, 1, 0, 0, 0)
  {
    hide Inv, WellFormed, Reachable;
    var s0 := Start(TRIO);
    s := WriteBlock(TRIO, s0, 0, 7, 0);
    assert s.zones[0] == Zone(Active(0), CondOpen, 1, 1, 1, 0, map[0 := 0], [7]);
    assert s.zones[1] == FRESH;
    assert s.zones[2] == FRESH;
    assert s.empty == [1, 2] && s.active == [Some(0), None] && s.mapping == map[0 := Pbid(0, 0)];
  }

  lemma SecondWritten() returns (s: State)
    ensures Still(TRIO, s)
    ensures s == State([Zone(ToFull, CondFull, 2, 1, 0, 0, map[1 := 0], [7, 7]),
                        FRESH,
                        FRESH],
                       [1, 2], [], [None, None], map[0 := Pbid(0, 1)], map[], map[], IDLE, None, 4, 1, 0, 0, 0)
  {
    hide Inv, WellFormed, Reachable;
    var s0 := FirstWritten();
    s := WriteBlock(TRIO, s0, 0, 7, 0);
    assert s.zones[0] == Zone(ToFull, CondFull, 2, 1, 0, 0, map[1 := 0], [7, 7]);
    assert s.zones[1] == FRESH;
    assert s.zones[2] == FRESH;
    assert s.empty == [1, 2] && s.active == [None, None] && s.mapping == map[0 := Pbid(0, 1)];
  }

  lemma ThirdWritten() returns (s: State)
    ensures Still(TRIO, s)
    ensures s == State([Zone(ToFull, CondFull, 2, 0, 0, 0, map[], [7, 7]),
                        Zone(Active(0), CondOpen, 1, 1, 1, 0, map[0 := 0], [7]),
                        FRESH],
                       [2], [], [Some(1), None], map[0 := Pbid(1, 0)], map[], map[], IDLE, None, 3, 1, 0, 0, 0)
  {
    hide Inv, WellFormed, Reachable;
    var s0 := SecondWritten();
    assert Allotted(TRIO, s0, 0, 7, 0).zones[1] == Zone(Active(0), CondOpen, 1, 1, 2, 1, map[], []);
    s := WriteBlock(TRIO, s0, 0, 7, 0);
    assert s.zones[0] == Zone(ToFull, CondFull, 2, 0, 0, 0, map[], [7, 7]);
    assert s.zones[1] == Zone(Active(0), CondOpen, 1, 1, 1, 0, map[0 := 0], [7]);
    assert s.zones[2] == FRESH;
    assert s.empty == [2] && s.active == [Some(1), None] && s.mapping == map[0 := Pbid(1, 0)];
  }

  lemma FourthWritten() returns (s: State)
    ensures Still(TRIO, s)
    ensures s == State([Zone(ToFull, CondFull, 2, 0, 0, 0, map[], [7, 7]),
                        Zone(ToFull, CondFull, 2, 1, 0, 0, map[1 := 0], [7, 7]),
                        FRESH],
                       [2], [], [None, None], map[0 := Pbid(1, 1)], map[], map[], IDLE, None, 2, 1, 0, 0, 0)
  {
    hide Inv, WellFormed, Reachable;
    var s0 := ThirdWritten();
    s := WriteBlock(TRIO, s0, 0, 7, 0);
    assert s.zones[0] == Zone(ToFull, CondFull, 2, 0, 0, 0, map[], [7, 7]);
    assert s.zones[1] == Zone(ToFull, CondFull, 2, 1, 0, 0, map[1 := 0], [7, 7]);
    assert s.zones[2] == FRESH;
    assert s.empty == [2] && s.active == [None, None] && s.mapping == map[0 := Pbid(1, 1)];
  }

  // Block 1 is written on stream 1, which leaves zone 2 one block.
  lemma FifthWritten() returns (s: State)
    ensures Still(TRIO, s)
    ensures s == State([Zone(ToFull, CondFull, 2, 0, 0, 0, map[], [7, 7]),
                        Zone(ToFull, CondFull, 2, 1, 0, 0, map[1 := 0], [7, 7]),
                        Zone(Active(1), CondOpen, 1, 1, 1, 0, map[0 := 1], [7])],
                       [], [], [None, Some(2)], map[0 := Pbid(1, 1), 1 := Pbid(2, 0)], map[], map[], IDLE, None, 1,
                       2, 0, 0, 0)
  {
    hide Inv, WellFormed, Reachable;
    var s0 := FourthWritten();
    s := WriteBlock(TRIO, s0, 1, 7, 1);
    assert s.zones[0] == Zone(ToFull, CondFull, 2, 0, 0, 0, map[], [7, 7]);
    assert s.zones[1] == Zone(ToFull, CondFull, 2, 1, 0, 0, map[1 := 0], [7, 7]);
    assert s.zones[2] == Zone(Active(1), CondOpen, 1, 1, 1, 0, map[0 := 1], [7]);
    assert s.empty == [] && s.active == [None, Some(2)] && s.mapping == map[0 := Pbid(1, 1), 1 := Pbid(2, 0)];
  }

  // Zones 0 and 1 are on the full list, and the collector takes zone 0, which holds nothing.
  lemma BothClosed() returns (s: State)
    ensures Reachable(TRIO, s) && WellFormed(TRIO, s)
    ensures s == State([Zone(Full, CondClosed, 2, 0, 0, 0, map[], [7, 7]),
                     Zone(Full, CondClosed, 2, 1, 0, 0, map[1 := 0], [7, 7]),
                     Zone(Active(1), CondOpen, 1, 1, 1, 0, map[0 := 1], [7])], [], [0, 1], [None, Some(2)],
                     map[0 := Pbid(1, 1), 1 := Pbid(2, 0)], map[], map[], IDLE, None, 1, 2, 0, 0, 0)
  {
    hide Inv, WellFormed, Reachable;
    var s0 := FifthWritten();
    var s1 := ReachStep(TRIO, s0, LClose(0));
    s := ReachStep(TRIO, s1, LClose(1));
  }

  lemma Chosen() returns (s: State)
    ensures Reachable(TRIO, s) && WellFormed(TRIO, s)
    ensures s == State([Zone(Gc, CondClosed, 2, 0, 1, 0, map[], [7, 7]),
                     Zone(Full, CondClosed, 2, 1, 0, 0, map[1 := 0], [7, 7]),
                     Zone(Active(1), CondOpen, 1, 1, 1, 0, map[0 := 1], [7])], [], [1], [None, Some(2)],
                     map[0 := Pbid(1, 1), 1 := Pbid(2, 0)], map[], map[], IDLE, Some(Scan(0, 0, true)), 1, 2, 0, 0, 0)
  {
    hide Inv, WellFormed, Reachable;
    var s0 := BothClosed();
    s := ReachStep(TRIO, s0, LSelect(0));
    assert s.full == [1];
  }

  lemma Emptied() returns (s: State)
    ensures Reachable(TRIO, s) && WellFormed(TRIO, s)
    ensures s == State([Zone(Gc, CondEmpty, 2, 0, 0, 0, map[], [7, 7]),
                     Zone(Full, CondClosed, 2, 1, 0, 0, map[1 := 0], [7, 7]),
                     Zone(Active(1), CondOpen, 1, 1, 1, 0, map[0 := 1], [7])], [], [1], [None, Some(2)],
                     map[0 := Pbid(1, 1), 1 := Pbid(2, 0)], map[], map[], IDLE, Some(Scan(0, 2, false)), 1, 2, 0, 0,
                     0)
  {
    hide Inv, WellFormed, Reachable;
    var s0 := Chosen();
    var s1 := ReachStep(TRIO, s0, LVisit(1));
    var s2 := ReachStep(TRIO, s1, LVisit(1));
    s := ReachStep(TRIO, s2, LEndScan);
  }

  lemma TameStep(h: Half, l: Label) returns (h': Half)
    requires Reached(TRIO, h) && WellFormed(TRIO, h.s) && Enabled(TRIO, h.s, l) && Tame(h.s, l)
    ensures h' == h.(s := Apply(TRIO, h.s, l)) && Reached(TRIO, h') && WellFormed(TRIO, h'.s)
  {
    hide Reached, WellFormed, Enabled, Apply, TRIO;
    h' := HalfStep(TRIO, h, Do(l));
    TameFormed(TRIO, h.s, l);
  }

  lemma EmptiedHalf() returns (h: Half)
    ensures Reached(TRIO, h) && WellFormed(TRIO, h.s) && h.credit.None?
    ensures h.s == State([Zone(Gc, CondEmpty, 2, 0, 0, 0, map[], [7, 7]),
                     Zone(Full, CondClosed, 2, 1, 0, 0, map[1 := 0], [7, 7]),
                     Zone(Active(1), CondOpen, 1, 1, 1, 0, map[0 := 1], [7])], [], [1], [None, Some(2)],
                     map[0 := Pbid(1, 1), 1 := Pbid(2, 0)], map[], map[], IDLE, Some(Scan(0, 2, false)), 1, 2, 0, 0,
                     0)
  {
    hide WellFormed, Reached, Reachable;
    var s := Emptied();
    ReachedWhole(TRIO, s);
    h := Half(s, None);
  }
  // The first half of the reset of zone 0.
  lemma TwoHalves() returns (h: Half)
    ensures Reached(TRIO, h) && WellFormed(TRIO, h.s)
    ensures h == Half(State([FRESH, Zone(Full, CondClosed, 2, 1, 0, 0, map[1 := 0], [7, 7]),
                          Zone(Active(1), CondOpen, 1, 1, 1, 0, map[0 := 1], [7])], [], [1], [None, Some(2)],
                          map[0 := Pbid(1, 1), 1 := Pbid(2, 0)], map[], map[], IDLE, None, 1, 2, 0, 0, 0), Some(0))
  {
    hide Reached;
    var h0 := EmptiedHalf();
    h := HalfStep(TRIO, h0, Unflag(0));
  }

  // Zone 1, which holds one valid block where one can be allocated, is chosen before the credit.
  lemma EarlyChoice() returns (h: Half)
    ensures Reached(TRIO, h) && WellFormed(TRIO, h.s)
    ensures h == Half(State([FRESH, Zone(Gc, CondClosed, 2, 1, 1, 0, map[1 := 0], [7, 7]),
                          Zone(Active(1), CondOpen, 1, 1, 1, 0, map[0 := 1], [7])], [], [], [None, Some(2)],
                          map[0 := Pbid(1, 1), 1 := Pbid(2, 0)], map[], map[], IDLE, Some(Scan(1, 0, true)), 1, 2, 0,
                          0, 0), Some(0))
  {
    hide Reached;
    var h0 := TwoHalves();
    h := HalfStep(TRIO, h0, Do(LSelect(1)));
    assert h.s.full == [];
  }

  lemma CopyIssued() returns (h: Half)
    ensures Reached(TRIO, h) && WellFormed(TRIO, h.s)
    ensures h == Half(State([FRESH, Zone(Gc, CondClosed, 2, 1, 2, 0, map[1 := 0], [7, 7]),
                          Zone(Active(1), CondOpen, 1, 1, 1, 0, map[0 := 1], [7])], [], [], [None, Some(2)],
                          map[0 := Pbid(1, 1), 1 := Pbid(2, 0)], map[1 := Copier(0, Reading)], map[], IDLE,
                          Some(Scan(1, 2, true)), 1, 2, 0, 0, 1), Some(0))
  {
    hide Reached;
    var h0 := EarlyChoice();
    var h1 := HalfStep(TRIO, h0, Do(LVisit(1)));
    h := HalfStep(TRIO, h1, Do(LVisit(1)));
  }

  lemma CopyInHand() returns (h: Half)
    ensures Reached(TRIO, h) && WellFormed(TRIO, h.s)
    ensures h == Half(State([FRESH, Zone(Gc, CondClosed, 2, 1, 2, 0, map[1 := 0], [7, 7]),
                          Zone(Active(1), CondOpen, 1, 1, 1, 0, map[0 := 1], [7])], [], [], [None, Some(2)],
                          map[0 := Pbid(1, 1), 1 := Pbid(2, 0)], map[1 := Copier(7, ReadDone)], map[],
                          Sched([], [], Copies, [], Some(1), map[1 := Going({})]), Some(Scan(1, 2, true)), 1, 2, 0, 0,
                          1), Some(0))
  {
    hide Reached, WellFormed;
    var h0 := CopyIssued();
    var h1 := TameStep(h0, LMoveRead(1));
    assert h1.s.ios == map[1 := Copier(7, ReadDone)];
    var h2 := TameStep(h1, LTakeWrites);
    var h3 := TameStep(h2, LTakeCopies);
    h := TameStep(h3, LNext);
  }

  lemma CopyGoesOn() returns (h: Half)
    ensures Reached(TRIO, h) && WellFormed(TRIO, h.s)
    ensures h == Half(State([FRESH, Zone(Gc, CondClosed, 2, 1, 2, 0, map[1 := 0], [7, 7]),
                          Zone(Active(1), CondOpen, 1, 1, 1, 0, map[0 := 1], [7])], [], [], [None, Some(2)],
                          map[0 := Pbid(1, 1), 1 := Pbid(2, 0)], map[1 := Copier(7, Alloc({}))], map[0 := 1],
                          Sched([], [], Copies, [], Some(1), map[1 := Going({})]), Some(Scan(1, 2, true)), 1, 2, 0, 0,
                          1), Some(0))
  {
    hide Reached, WellFormed;
    var h0 := CopyInHand();
    var h1 := TameStep(h0, LInsert(1));
    assert h1.s.ios == map[1 := Copier(7, Inserted)] && h1.s.tree == map[0 := 1];
    h := TameStep(h1, LRecheck(1));
  }

  // Stream 0 has no zone and the empty list is empty: the attempt fails there.
  lemma FirstAttempt() returns (h: Half)
    ensures Reached(TRIO, h) && WellFormed(TRIO, h.s)
    ensures h == Half(State([FRESH, Zone(Gc, CondClosed, 2, 1, 2, 0, map[1 := 0], [7, 7]),
                          Zone(Active(1), CondOpen, 1, 1, 1, 0, map[0 := 1], [7])], [], [], [None, Some(2)],
                          map[0 := Pbid(1, 1), 1 := Pbid(2, 0)], map[1 := Copier(7, Alloc({0}))], map[0 := 1],
                          Sched([], [], Copies, [], Some(1), map[1 := Going({0})]), Some(Scan(1, 2, true)), 1, 2, 0,
                          0, 1), Some(0))
  {
    hide Reached, WellFormed;
    var h0 := CopyGoesOn();
    var none: set<nat> := {};
    assert none + {0} == {0} && 1 !in none + {0};
    h := TameStep(h0, LTryAlloc(1, 0));
    assert h.s.sched.turns == map[1 := Going({0})];
    assert h.s.ios == map[1 := Copier(7, Alloc({0}))];
  }

  // The credit comes, and stream 0 would have room now.
  lemma CreditComes() returns (h: Half)
    ensures Reached(TRIO, h) && WellFormed(TRIO, h.s)
    ensures h == Half(State([FRESH, Zone(Gc, CondClosed, 2, 1, 2, 0, map[1 := 0], [7, 7]),
                          Zone(Active(1), CondOpen, 1, 1, 1, 0, map[0 := 1], [7])], [0], [], [None, Some(2)],
                          map[0 := Pbid(1, 1), 1 := Pbid(2, 0)], map[1 := Copier(7, Alloc({0}))], map[0 := 1],
                          Sched([], [], Copies, [], Some(1), map[1 := Going({0})]), Some(Scan(1, 2, true)), 3, 2, 0,
                          0, 1), None)
  {
    hide Reached;
    var h0 := FirstAttempt();
    h := HalfStep(TRIO, h0, Credit);
  }

  lemma SecondWriter() returns (h: Half)
    ensures Reached(TRIO, h) && WellFormed(TRIO, h.s)
    ensures h == Half(State([FRESH, Zone(Gc, CondClosed, 2, 1, 2, 0, map[1 := 0], [7, 7]),
                          Zone(Active(1), CondOpen, 1, 1, 1, 0, map[0 := 1], [7])], [0], [], [None, Some(2)],
                          map[0 := Pbid(1, 1), 1 := Pbid(2, 0)],
                          map[1 := Copier(7, Alloc({0})), 2 := Writer(2, 7, Alloc({}))], map[0 := 1, 2 := 2],
                          Sched([], [], Copies, [], Some(1), map[1 := Going({0}), 2 := Going({})]),
                          Some(Scan(1, 2, true)), 3, 2, 1, 0, 1), None)
  {
    hide Reached, WellFormed;
    var h0 := CreditComes();
    var h1 := TameStep(h0, LSubmit(2, 2, 7));
    h := TameStep(h1, LInsert(2));
    assert h.s.ios == map[1 := Copier(7, Alloc({0})), 2 := Writer(2, 7, Alloc({}))];
    assert h.s.tree == map[0 := 1, 2 := 2];
  }

  // A user write takes the last block of stream 1,
  lemma StreamFilled() returns (h: Half)
    ensures Reached(TRIO, h) && WellFormed(TRIO, h.s)
    ensures h == Half(State([FRESH, Zone(Gc, CondClosed, 2, 1, 2, 0, map[1 := 0], [7, 7]),
                          Zone(ToFull, CondOpen, 2, 2, 1, 1, map[0 := 1], [7])], [0], [], [None, None],
                          map[0 := Pbid(1, 1), 1 := Pbid(2, 0)],
                          map[1 := Copier(7, Alloc({0})), 2 := Writer(2, 7, Writing(2))], map[0 := 1, 2 := 2],
                          Sched([], [], Copies, [], Some(1), map[1 := Going({0})]), Some(Scan(1, 2, true)), 2, 3, 1,
                          0, 1), None)
  {
    hide Reached, WellFormed;
    var h0 := SecondWriter();
    h := TameStep(h0, LTryAlloc(2, 1));
    assert h.s.ios == map[1 := Copier(7, Alloc({0})), 2 := Writer(2, 7, Writing(2))];
    assert h.s.sched.turns == map[1 := Going({0})];
  }

  lemma ThirdWriter() returns (h: Half)
    ensures Reached(TRIO, h) && WellFormed(TRIO, h.s)
    ensures h == Half(State([FRESH, Zone(Gc, CondClosed, 2, 1, 2, 0, map[1 := 0], [7, 7]),
                          Zone(ToFull, CondOpen, 2, 2, 1, 1, map[0 := 1], [7])], [0], [], [None, None],
                          map[0 := Pbid(1, 1), 1 := Pbid(2, 0)],
                          map[1 := Copier(7, Alloc({0})), 2 := Writer(2, 7, Writing(2)), 3 := Writer(3, 7, Alloc({}))],
                          map[0 := 1, 2 := 2, 3 := 3],
                          Sched([], [], Copies, [], Some(1), map[1 := Going({0}), 3 := Going({})]),
                          Some(Scan(1, 2, true)), 2, 3, 2, 0, 1), None)
  {
    hide Reached, WellFormed;
    var h0 := StreamFilled();
    var h1 := TameStep(h0, LSubmit(3, 3, 7));
    h := TameStep(h1, LInsert(3));
    assert h.s.ios == map[1 := Copier(7, Alloc({0})), 2 := Writer(2, 7, Writing(2)), 3 := Writer(3, 7, Alloc({}))];
    assert h.s.tree == map[0 := 1, 2 := 2, 3 := 3];
  }

  // and another one opens zone 0 on stream 0.
  lemma ZoneTaken() returns (h: Half)
    ensures Reached(TRIO, h) && WellFormed(TRIO, h.s)
    ensures h == Half(State([Zone(Active(0), CondOpen, 1, 1, 2, 1, map[], []),
                          Zone(Gc, CondClosed, 2, 1, 2, 0, map[1 := 0], [7, 7]),
                          Zone(ToFull, CondOpen, 2, 2, 1, 1, map[0 := 1], [7])], [], [], [Some(0), None],
                          map[0 := Pbid(1, 1), 1 := Pbid(2, 0)],
                          map[1 := Copier(7, Alloc({0})), 2 := Writer(2, 7, Writing(2)), 3 := Writer(3, 7, Writing(0))],
                          map[0 := 1, 2 := 2, 3 := 3], Sched([], [], Copies, [], Some(1), map[1 := Going({0})]),
                          Some(Scan(1, 2, true)), 1, 4, 2, 0, 1), None)
  {
    hide Reached, WellFormed;
    var h0 := ThirdWriter();
    h := TameStep(h0, LTryAlloc(3, 0));
    assert h.s.ios == map[1 := Copier(7, Alloc({0})), 2 := Writer(2, 7, Writing(2)), 3 := Writer(3, 7, Writing(0))];
    assert h.s.sched.turns == map[1 := Going({0})];
  }

  // The attempt on stream 1 fails as well.
  lemma NoStreamLeft() returns (h: Half)
    ensures Reached(TRIO, h) && WellFormed(TRIO, h.s)
    ensures h == Half(State([Zone(Active(0), CondOpen, 1, 1, 2, 1, map[], []),
                          Zone(Gc, CondClosed, 2, 1, 2, 0, map[1 := 0], [7, 7]),
                          Zone(ToFull, CondOpen, 2, 2, 1, 1, map[0 := 1], [7])], [], [], [Some(0), None],
                          map[0 := Pbid(1, 1), 1 := Pbid(2, 0)], map[1 := Copier(7, Alloc({0, 1})),
                          2 := Writer(2, 7, Writing(2)), 3 := Writer(3, 7, Writing(0))], map[0 := 1, 2 := 2, 3 := 3],
                          Sched([], [], Copies, [], Some(1), map[1 := Failed]), Some(Scan(1, 2, true)), 1, 4, 2, 0,
                          1), None)
  {
    hide Reached, WellFormed;
    var h0 := ZoneTaken();
    var first: set<nat> := {0};
    assert first + {1} == {0, 1};
    h := TameStep(h0, LTryAlloc(1, 1));
    assert h.s.sched.turns == map[1 := Failed];
    assert h.s.ios == map[1 := Copier(7, Alloc({0, 1})), 2 := Writer(2, 7, Writing(2)), 3 := Writer(3, 7, Writing(0))];
  }

  /** A run in which every victim chosen between the halves could be afforded, and in whose last
      state a GC task has tried both streams in vain with a block left to allocate. */
  lemma CreditStarves() returns (h: Half)
    ensures Reached(TRIO, h) && Starved(TRIO, h.s, 1) && h.s.ios[1].kind.Mover? && h.s.allocable == 1
  {
    hide Reached;
    h := NoStreamLeft();
  }
}
