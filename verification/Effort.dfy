/** How much the operations in flight and the collector have still to do, and which steps bring
    it down.  User writes that wait for their dispatch count for nothing here. */
module Effort {
  import opened Machine
  import opened Counting
  import opened Invariant
  import opened Frames
  import opened CollectorSteps
  import opened ZoneSteps
  import opened TreeSteps
  import opened MapSteps
  import opened Guarantees
  import opened Placement

  // How many steps an operation may still need.
  function Stage(io: Io): nat {
    match io
    case Read(_, result) => if result.None? then 2 else 1
    case Task(User, _, _, _, st, _, _) => if st.Writing? then 2 else if st.Landed? then 1 else 0
    case Task(Mover, _, _, _, st, _, _) =>
      (match st
       case Reading => 8
       case ReadDone => 7
       case Conflict(_) => 6
       case Inserted => 6
       case Alloc(_) => 5
       case Writing(_) => 4
       case Landed(_) => 3
       case Parked(_) => 2
       case Finishing => 1
       case _ => 0)
  }

  function Busy(ios: map<nat, Io>, k: nat): set<nat> {
    set t | t in ios && Stage(ios[t]) >= k
  }

  function Work(ios: map<nat, Io>): nat {
    |Busy(ios, 1)| + |Busy(ios, 2)| + |Busy(ios, 3)| + |Busy(ios, 4)|
    + |Busy(ios, 5)| + |Busy(ios, 6)| + |Busy(ios, 7)| + |Busy(ios, 8)|
  }

  lemma BusyUpdate(ios: map<nat, Io>, t: nat, io: Io, k: nat)
    ensures |Busy(ios[t := io], k)| == |Busy(ios, k)| - Bit(t in ios && Stage(ios[t]) >= k) + Bit(Stage(io) >= k)
  {
    hide Stage;
    var rest := Busy(ios, k) - {t};
    if Stage(io) >= k {
      assert Busy(ios[t := io], k) == rest + {t};
    } else {
      assert Busy(ios[t := io], k) == rest;
    }
  }

  function StageAt(ios: map<nat, Io>, t: nat): nat {
    if t in ios then Stage(ios[t]) else 0
  }

  lemma WorkUpdate(ios: map<nat, Io>, t: nat, io: Io)
    ensures Work(ios[t := io]) == Work(ios) - StageAt(ios, t) + Stage(io)
  {
    hide Busy;
    BusyUpdate(ios, t, io, 1);
    BusyUpdate(ios, t, io, 2);
    BusyUpdate(ios, t, io, 3);
    BusyUpdate(ios, t, io, 4);
    BusyUpdate(ios, t, io, 5);
    BusyUpdate(ios, t, io, 6);
    BusyUpdate(ios, t, io, 7);
    BusyUpdate(ios, t, io, 8);
  }

  lemma WorkRemove(ios: map<nat, Io>, t: nat)
    requires t in ios
    ensures Work(ios - {t}) == Work(ios) - Stage(ios[t])
  {
    hide Work;
    WorkUpdate(ios - {t}, t, ios[t]);
    assert (ios - {t})[t := ios[t]] == ios;
  }

  lemma ReleaseWork(ios: map<nat, Io>, h: nat, n: nat)
    requires h in ios && ios[h].Task? && ParkLinks(ios)
    ensures Work(Release(ios, h, n)) <= Work(ios)
  {
    hide Work;
    var t := ios[h].(rc := ios[h].rc - n);
    if t.rc > 0 {
      WorkUpdate(ios, h, t);
    } else {
      WorkRemove(ios, h);
      if t.kind.User? && t.pendingGc.Some? {
        var g := t.pendingGc.value;
        WorkUpdate(ios - {h}, g, ios[g].(st := Finishing));
      }
    }
  }

  // -------------------------------------------------------------------- each step does work

  lemma InsertWorks(c: Config, s: State, t: nat)
    requires Inv(c, s) && CanInsert(s, t)
    ensures Work(Insert(c, s, t).ios) + Bit(s.ios[t].kind.Mover?) == Work(s.ios)
    ensures Insert(c, s, t).gc == s.gc && Insert(c, s, t).allocable == s.allocable
  {
    hide Inv, WellFormed, Work;
    InvShape(c, s);
    var io := s.ios[t];
    if io.blk in s.tree {
      MeetsUser(c, s, t);
      var h := s.tree[io.blk];
      var host := s.ios[h].(rc := s.ios[h].rc + 1);
      WorkUpdate(s.ios, h, host);
      WorkUpdate(s.ios[h := host], t, io.(st := Conflict(h)));
    } else {
      WorkUpdate(s.ios, t, Insert(c, s, t).ios[t]);
    }
  }

  lemma ResolveWorks(c: Config, s: State, t: nat)
    requires Inv(c, s) && CanResolve(s, t)
    ensures Work(Resolve(c, s, t).ios) + Bit(s.ios[t].kind.Mover?) <= Work(s.ios)
    ensures Resolve(c, s, t).gc == s.gc && Resolve(c, s, t).allocable == s.allocable
  {
    hide Inv, WellFormed, RefsExact, TreeLinks, ConflictLinks, ParkLinks, Moves, Coverage, MapsInverse, LandedPages,
         LifeCycle, Counts, Totals, Reserve, TriedStreams, InRange, StatusOk, Release, Work;
    PartsMakeInv(c, s);
    ConflictFacts(c, s, t);
    var io := s.ios[t];
    var h := io.st.host;
    if io.kind.User? {
      UserLinks(s.ios, s.tree, t);
      WorkUpdate(s.ios, t, io.(st := Init));
      ReleaseWork(s.ios[t := io.(st := Init)], h, 1);
    } else {
      var parked := s.ios[t := io.(st := Parked(h))];
      ParkTasks(s.ios, s.tree, t, h);
      WorkUpdate(s.ios, t, io.(st := Parked(h)));
      WorkUpdate(parked, h, parked[h].(pendingGc := Some(t)));
      ReleaseWork(Park(s.ios, t, h), h, 1);
    }
  }

  lemma EndioWorks(c: Config, s: State, t: nat)
    requires Inv(c, s) && CanEndio(s, t)
    ensures Work(Endio(c, s, t).ios) < Work(s.ios) && Endio(c, s, t).gc == s.gc
  {
    hide Inv, WellFormed, RefsExact, TreeLinks, ConflictLinks, ParkLinks, Moves, Coverage, MapsInverse, LandedPages,
         LifeCycle, Counts, Totals, Reserve, TriedStreams, InRange, StatusOk, Release, Work;
    PartsMakeInv(c, s);
    UnmapKeepsIos(c, s, s.ios[t].blk);
    WorkUpdate(s.ios, t, Leaving(s.ios[t]));
    if s.ios[t].kind.User? {
      BindLinks(s.ios, s.tree, t);
      ReleaseWork(s.ios[t := Leaving(s.ios[t])], t, 2);
    }
  }

  lemma FinishWorks(c: Config, s: State, t: nat)
    requires Inv(c, s) && CanFinish(s, t)
    ensures Work(Finish(c, s, t).ios) < Work(s.ios) && Finish(c, s, t).gc == s.gc
  {
    hide Inv, WellFormed, RefsExact, TreeLinks, ConflictLinks, ParkLinks, Moves, Coverage, MapsInverse, LandedPages,
         LifeCycle, Counts, Totals, Reserve, TriedStreams, InRange, StatusOk, Release, Work;
    PartsMakeInv(c, s);
    var io := s.ios[t].(st := Done);
    WorkUpdate(s.ios, t, io);
    FinishLinks(s.ios, s.tree, t);
    ReleaseWork(s.ios[t := io], t, 1);
  }

  lemma ReadWorks(c: Config, s: State, r: nat)
    requires WellFormed(c, s) && r in s.ios && s.ios[r].Read?
    ensures CanReadMedia(s, r) ==> Work(ReadMedia(c, s, r).ios) < Work(s.ios)
    ensures CanReadEndio(s, r) ==> Work(ReadEndio(c, s, r).ios) < Work(s.ios)
  {
    hide WellFormed, Work;
    if CanReadMedia(s, r) {
      WorkUpdate(s.ios, r, ReadMedia(c, s, r).ios[r]);
    } else {
      WorkRemove(s.ios, r);
    }
  }

  // A task that moves forward by changing its own status.
  lemma StatusWorks(c: Config, s: State, t: nat)
    requires WellFormed(c, s) && t in s.ios && s.ios[t].Task?
    ensures CanMoveRead(s, t) ==> Work(MoveRead(c, s, t).ios) < Work(s.ios)
    ensures CanRecheck(s, t) ==> Work(Recheck(s, t).ios) < Work(s.ios)
    ensures CanAppend(s, t) ==> Work(Append(c, s, t).ios) < Work(s.ios)
    ensures CanRequeue(s, t) ==> Work(Requeue(s, t).ios) == Work(s.ios)
  {
    hide WellFormed, Work;
    if CanMoveRead(s, t) {
      WorkUpdate(s.ios, t, MoveRead(c, s, t).ios[t]);
    } else if CanRecheck(s, t) {
      WorkUpdate(s.ios, t, Recheck(s, t).ios[t]);
    } else if CanAppend(s, t) {
      WorkUpdate(s.ios, t, Append(c, s, t).ios[t]);
    } else if CanRequeue(s, t) {
      WorkUpdate(s.ios, t, Requeue(s, t).ios[t]);
    }
  }

  // An attempt: a GC task that gets its block is nearer its end, and a failed attempt costs nothing.
  lemma AttemptWorks(c: Config, s: State, t: nat, k: nat)
    requires WellFormed(c, s) && CanAlloc(s, t, k)
    ensures var s' := TryAlloc(c, s, t, k);
            if s'.ios[t].st.Alloc? then Work(s'.ios) == Work(s.ios)
            else s.ios[t].kind.Mover? ==> Work(s'.ios) < Work(s.ios)
  {
    hide WellFormed, TryAlloc, Work;
    TryAllocShape(c, s, t, k);
    WorkUpdate(s.ios, t, TryAlloc(c, s, t, k).ios[t]);
  }

  lemma VisitWorks(c: Config, s: State, t: nat)
    requires CanVisit(c, s) && t !in s.ios
    ensures Work(Visit(c, s, t).ios) <= Work(s.ios) + 8
  {
    hide Work;
    if s.gc.value.pos in s.zones[s.gc.value.zone].rmap { WorkUpdate(s.ios, t, Visit(c, s, t).ios[t]); }
  }

  // ------------------------------------------------------------------------------ the total

  // What the collection and all operations in flight may still need.
  function Remaining(c: Config, s: State): nat {
    Work(s.ios) + if s.gc.Some? && s.gc.value.pos <= c.cap then 9 * (c.cap - s.gc.value.pos)
        + Bit(s.gc.value.base) else 0
  }

  // The step is possible and brings the total down.
  ghost predicate Works(c: Config, s: State, l: Label) {
    && WellFormed(c, s) && Enabled(c, s, l) && Moving(l)
    && Remaining(c, Apply(c, s, l)) < Remaining(c, s)
  }

  // Steps of operations already in flight, of their queues and of the collector's walk.
  predicate Moving(l: Label) {
    !l.LSubmit? && !l.LLookup? && !l.LDiscard? && !l.LSelect? && !l.LReset? && !l.LClose?
  }

  lemma {:induction false} UpperBound(ids: set<nat>) returns (m: nat)
    ensures forall k <- ids :: k < m
    decreases |ids|
  {
    if ids == {} {
      m := 0;
    } else {
      var k :| k in ids;
      var m' := UpperBound(ids - {k});
      assert forall x <- ids :: x == k || x in ids - {k};
      m := if k < m' then m' else k + 1;
    }
  }

  // The collector's walk over its victim goes on to its end.
  lemma ScanWorks(c: Config, s: State) returns (l: Label)
    requires Inv(c, s) && s.gc.Some? && s.gc.value.base
    ensures Works(c, s, l)
  {
    hide Inv, WellFormed, Work;
    InvShape(c, s);
    ScanFacts(c, s);
    if CanVisit(c, s) {
      var t := UpperBound(s.ios.Keys);
      l := LVisit(t);
      VisitWorks(c, s, t);
      VisitShapes(c, s, t);
    } else {
      l := LEndScan;
    }
  }

  lemma VisitShapes(c: Config, s: State, t: nat)
    requires Inv(c, s) && CanVisit(c, s)
    ensures Visit(c, s, t).gc == Some(s.gc.value.(pos := s.gc.value.pos + 1)) && s.gc.value.pos < c.cap
  {
    hide Inv;
    ScanFacts(c, s);
    ZoneFacts(c, s, s.gc.value.zone);
  }

  lemma ReadMoves(c: Config, s: State, r: nat) returns (l: Label)
    requires WellFormed(c, s) && r in s.ios && s.ios[r].Read?
    ensures Works(c, s, l)
  {
    hide WellFormed, Work;
    ReadWorks(c, s, r);
    l := if s.ios[r].result.None? then LReadMedia(r) else LReadEndio(r);
  }

  // An operation on the device, or a GC task in its callback, moves on by itself.
  lemma DeviceWorks(c: Config, s: State, t: nat) returns (l: Label)
    requires Inv(c, s) && t in s.ios && Stage(s.ios[t]) > 0
    requires s.ios[t].Task? ==> !Idle(s.ios[t]) && !s.ios[t].st.Parked?
    ensures Works(c, s, l)
  {
    hide Inv, WellFormed, Work, Endio, Finish;
    InvShape(c, s);
    if s.ios[t].Read? {
      l := ReadMoves(c, s, t);
    } else {
      TaskFacts(c, s, t);
      StatusWorks(c, s, t);
      match s.ios[t].st
      case Reading => l := LMoveRead(t);
      case Writing(_) => l := LAppend(t);
      case Landed(_) => l := LEndio(t); EndioWorks(c, s, t);
      case Finishing => l := LFinish(t); FinishWorks(c, s, t);
    }
  }

  // A GC task in the worker's hand moves on: it is never refused.
  lemma MoverWorks(c: Config, s: State, t: nat) returns (l: Label)
    requires Sound(c, s) && t in s.sched.turns && FaceOf(s.ios, t).Face? && FaceOf(s.ios, t).kind.Mover?
    ensures Works(c, s, l)
  {
    hide Inv, WellFormed, Work, Insert, Resolve, TryAlloc, Apart, BatchOk, BusyOk;
    PlacedParts(c.streams, s.ios, s.sched);
    InvShape(c, s);
    assert TurnOk(c.streams, FaceOf(s.ios, t), s.sched.turns[t]);
    StatusWorks(c, s, t);
    SoundParts(c, s);
    match s.ios[t].st
    case ReadDone => l := LInsert(t); InsertWorks(c, s, t);
    case Conflict(_) => l := LResolve(t); ResolveWorks(c, s, t);
    case Inserted => l := LRecheck(t);
    case Alloc(_) =>
      var k := ReserveIsEnough(c, s, t);
      l := LTryAlloc(t, k);
      AttemptWorks(c, s, t, k);
      TryAllocShape(c, s, t, k);
  }
}
