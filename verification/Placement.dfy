/**
 * Where tasks wait.  A task that has not been dispatched to the device, has not parked and has
 * not been called back is in exactly one place: one of the two queues, the list of the retry
 * worker, or in the hand of whoever submits it.  No task is ever lost or queued twice.
 */
module Placement {
  import opened Machine
  import opened Counting
  import opened Invariant
  import opened Frames
  import opened TreeSteps
  import opened CollectorSteps
  import opened ZoneSteps
  import opened MapSteps
  import opened Runs
  import opened Guarantees

  // ---------------------------------------------------------------------------------- faces

  // A user write not yet dispatched, or a GC task whose page is read and that has neither been
  // dispatched nor parked nor found stale.
  predicate Idle(io: Io) {
    io.Task? && (io.st.Conflict? || io.st.Alloc?
                 || if io.kind.User? then io.st.Init? else io.st.ReadDone? || io.st.Inserted?)
  }

  // What the place of a task has to know of it.
  datatype Face = Gone | Face(kind: Kind, st: Status)

  function FaceOf(ios: map<nat, Io>, t: nat): Face {
    if t in ios && Idle(ios[t]) then Face(ios[t].kind, ios[t].st) else Gone
  }

  // Only task x may look different.
  ghost predicate SameFaces(ios: map<nat, Io>, ios': map<nat, Io>, x: nat) {
    forall t :: t != x ==> FaceOf(ios', t) == FaceOf(ios, t)
  }

  // A user write as it lies in a queue: not in the tree yet, or in it and waiting for space.
  predicate AtRest(f: Face) {
    f == Face(User, Init) || f == Face(User, Alloc({}))
  }

  predicate PageRead(f: Face) {
    f == Face(Mover, ReadDone)
  }

  // ------------------------------------------------------------------------------ the places

  predicate Somewhere(q: Sched, t: nat) {
    t in q.pending || t in q.gcWrites || t in q.batch || t in q.turns
  }

  // The four places have no task in common, and the lists hold each task once.
  ghost predicate Apart(q: Sched) {
    && Distinct(q.pending) && Distinct(q.gcWrites) && Distinct(q.batch)
    && (forall t <- q.pending :: t !in q.gcWrites && t !in q.batch && t !in q.turns)
    && (forall t <- q.gcWrites :: t !in q.batch && t !in q.turns)
    && (forall t <- q.batch :: t !in q.turns)
  }

  // How far a submission has come, against what its task looks like.
  ghost predicate TurnOk(streams: nat, f: Face, turn: Turn) {
    match turn
    case Failed => f.Face? && f.kind.User? && (f.st.Init? || f.st.Alloc?)
    case Going(failed) =>
      && f.Face?
      && (exists k: nat :: k < streams && k !in failed)
      && (if f.st.Alloc? then f.st.tried <= failed && (f.kind.Mover? ==> failed == f.st.tried) else failed == {})
  }

  ghost predicate BatchOk(ios: map<nat, Io>, q: Sched) {
    match q.pass
    case Resting => q.batch == [] && q.busy.None?
    case Writes => forall t <- q.batch :: AtRest(FaceOf(ios, t))
    case Copies => forall t <- q.batch :: PageRead(FaceOf(ios, t))
  }

  // The worker's own submission; GC tasks are submitted by the worker alone.
  ghost predicate BusyOk(ios: map<nat, Io>, q: Sched) {
    && (q.busy.Some? ==>
          && q.busy.value in q.turns && FaceOf(ios, q.busy.value).Face?
          && FaceOf(ios, q.busy.value).kind == if q.pass.Copies? then Mover else User)
    && (forall t <- q.turns :: FaceOf(ios, t).Face? && FaceOf(ios, t).kind.Mover? ==> q.busy == Some(t))
  }

  // The parts of the order of places, by name.
  datatype Spot = ApartSpot | SomewhereSpot | PendingSpot | CopiesSpot | TurnsSpot | BatchSpot | BusySpot

  ghost predicate Keeps(spot: Spot, streams: nat, ios: map<nat, Io>, q: Sched) {
    match spot
    case ApartSpot => Apart(q)
    case SomewhereSpot => forall t :: FaceOf(ios, t).Face? <==> Somewhere(q, t)
    case PendingSpot => forall t <- q.pending :: AtRest(FaceOf(ios, t))
    case CopiesSpot => forall t <- q.gcWrites :: PageRead(FaceOf(ios, t))
    case TurnsSpot => forall t <- q.turns :: TurnOk(streams, FaceOf(ios, t), q.turns[t])
    case BatchSpot => BatchOk(ios, q)
    case BusySpot => BusyOk(ios, q)
  }

  /** Every idle task is in exactly one place, and looks as that place expects.  A proof looks up
      the parts it needs by their names; PlacedParts lists them all. */
  ghost predicate Placed(streams: nat, ios: map<nat, Io>, q: Sched) {
    forall spot: Spot :: Keeps(spot, streams, ios, q)
  }

  lemma PlacedParts(streams: nat, ios: map<nat, Io>, q: Sched)
    ensures Placed(streams, ios, q) <==>
              && Apart(q)
              && (forall t :: FaceOf(ios, t).Face? <==> Somewhere(q, t))
              && (forall t <- q.pending :: AtRest(FaceOf(ios, t)))
              && (forall t <- q.gcWrites :: PageRead(FaceOf(ios, t)))
              && (forall t <- q.turns :: TurnOk(streams, FaceOf(ios, t), q.turns[t]))
              && BatchOk(ios, q)
              && BusyOk(ios, q)
  {
    hide Apart, FaceOf, Somewhere, AtRest, PageRead, TurnOk, BatchOk, BusyOk;
    if Placed(streams, ios, q) {
      assert Keeps(ApartSpot, streams, ios, q) && Keeps(SomewhereSpot, streams, ios, q);
      assert Keeps(PendingSpot, streams, ios, q) && Keeps(CopiesSpot, streams, ios, q);
      assert Keeps(TurnsSpot, streams, ios, q) && Keeps(BatchSpot, streams, ios, q) && Keeps(BusySpot, streams, ios, q);
    }
  }

  // ----------------------------------------------------------------- how one task moves about

  lemma PlacedStays(streams: nat, ios: map<nat, Io>, ios': map<nat, Io>, q: Sched)
    requires Placed(streams, ios, q) && forall t :: FaceOf(ios', t) == FaceOf(ios, t)
    ensures Placed(streams, ios', q)
  {
    hide FaceOf, TurnOk, Apart;
    PlacedParts(streams, ios, q);
    PlacedParts(streams, ios', q);
  }

  lemma FreshTurn(streams: nat, f: Face)
    requires streams > 0 && f.Face? && (f.st.Alloc? ==> f.st.tried == {})
    ensures TurnOk(streams, f, Going({}))
  {
    var none: set<nat> := {};
    assert 0 !in none;
  }

  // A new task, in the hand of its submitter.
  lemma PlacedBegin(streams: nat, ios: map<nat, Io>, ios': map<nat, Io>, q: Sched, t: nat)
    requires Placed(streams, ios, q) && SameFaces(ios, ios', t) && streams > 0
    requires FaceOf(ios, t).Gone? && FaceOf(ios', t) == Face(User, Init)
    ensures Placed(streams, ios', BeginTurn(q, t))
  {
    hide FaceOf, TurnOk;
    PlacedParts(streams, ios, q);
    PlacedParts(streams, ios', BeginTurn(q, t));
    FreshTurn(streams, FaceOf(ios', t));
  }

  // A task in hand goes on, or is about to go back.
  lemma PlacedTurn(streams: nat, ios: map<nat, Io>, ios': map<nat, Io>, q: Sched, t: nat, turn: Turn)
    requires Placed(streams, ios, q) && SameFaces(ios, ios', t) && t in q.turns
    requires TurnOk(streams, FaceOf(ios', t), turn)
    requires FaceOf(ios', t).Face? && FaceOf(ios, t).Face? && FaceOf(ios', t).kind == FaceOf(ios, t).kind
    ensures Placed(streams, ios', q.(turns := q.turns[t := turn]))
  {
    hide FaceOf, TurnOk;
    PlacedParts(streams, ios, q);
    PlacedParts(streams, ios', q.(turns := q.turns[t := turn]));
  }

  // A task leaves the hand: dispatched, parked or stale.
  lemma PlacedLeaves(streams: nat, ios: map<nat, Io>, ios': map<nat, Io>, q: Sched, t: nat)
    requires Placed(streams, ios, q) && SameFaces(ios, ios', t) && t in q.turns && FaceOf(ios', t).Gone?
    ensures Placed(streams, ios', EndTurn(q, t))
  {
    hide FaceOf, TurnOk;
    PlacedParts(streams, ios, q);
    PlacedParts(streams, ios', EndTurn(q, t));
  }

  lemma DistinctSnoc(s: seq<nat>, t: nat)
    requires Distinct(s) && t !in s
    ensures Distinct(s + [t])
  {
  }

  lemma PlacedEnqueue(streams: nat, ios: map<nat, Io>, ios': map<nat, Io>, q: Sched, t: nat)
    requires Placed(streams, ios, q) && SameFaces(ios, ios', t) && t in q.turns && AtRest(FaceOf(ios', t))
    ensures Placed(streams, ios', Enqueue(q, t))
  {
    hide FaceOf, TurnOk, Distinct;
    PlacedParts(streams, ios, q);
    PlacedParts(streams, ios', Enqueue(q, t));
    DistinctSnoc(q.pending, t);
  }

  lemma PlacedRead(streams: nat, ios: map<nat, Io>, ios': map<nat, Io>, q: Sched, t: nat)
    requires Placed(streams, ios, q) && SameFaces(ios, ios', t)
    requires FaceOf(ios, t).Gone? && PageRead(FaceOf(ios', t))
    ensures Placed(streams, ios', q.(gcWrites := q.gcWrites + [t]))
  {
    hide FaceOf, TurnOk, Distinct;
    PlacedParts(streams, ios, q);
    PlacedParts(streams, ios', q.(gcWrites := q.gcWrites + [t]));
    DistinctSnoc(q.gcWrites, t);
  }

  // The worker splices off a queue, turns from one to the other, or has come to the end.
  lemma PlacedSplice(streams: nat, ios: map<nat, Io>, q: Sched)
    requires Placed(streams, ios, q) && q.batch == [] && q.busy.None?
    ensures Placed(streams, ios, TakeWrites(q)) && Placed(streams, ios, TakeCopies(q))
    ensures Placed(streams, ios, q.(pass := Resting))
  {
    hide FaceOf, TurnOk;
    PlacedParts(streams, ios, q);
    PlacedParts(streams, ios, TakeWrites(q));
    PlacedParts(streams, ios, TakeCopies(q));
    PlacedParts(streams, ios, q.(pass := Resting));
  }

  lemma PlacedNext(streams: nat, ios: map<nat, Io>, q: Sched)
    requires Placed(streams, ios, q) && q.batch != [] && q.busy.None? && streams > 0
    ensures Placed(streams, ios, TakeNext(q))
  {
    hide FaceOf, TurnOk;
    PlacedParts(streams, ios, q);
    PlacedParts(streams, ios, TakeNext(q));
    var t := q.batch[0];
    assert q.batch == [t] + q.batch[1..];
    FreshTurn(streams, FaceOf(ios, t));
  }

  // ----------------------------------------------------------------- faces through the steps

  lemma UpdateFaces(ios: map<nat, Io>, t: nat, io: Io)
    ensures SameFaces(ios, ios[t := io], t)
  {
  }

  // Dropping references destroys done tasks and calls parked ones back; neither is idle.
  lemma ReleaseFaces(ios: map<nat, Io>, h: nat, n: nat)
    requires h in ios && ios[h].Task? && ParkLinks(ios) && (ios[h].rc <= n ==> ios[h].st.Done?)
    ensures forall t :: FaceOf(Release(ios, h, n), t) == FaceOf(ios, t)
  {
  }

  lemma InsertFaces(c: Config, s: State, t: nat)
    requires Inv(c, s) && CanInsert(s, t)
    ensures SameFaces(s.ios, Insert(c, s, t).ios, t)
    ensures var f := FaceOf(Insert(c, s, t).ios, t);
            && f.Face? && f.kind == s.ios[t].kind && (f.st.Alloc? ==> f.st.tried == {})
            && (f.st.Conflict? || f.st == if f.kind.User? then Alloc({}) else Inserted)
  {
    hide Inv, WellFormed;
    InvShape(c, s);
    if s.ios[t].blk in s.tree { MeetsUser(c, s, t); }
  }

  lemma ResolveFaces(c: Config, s: State, t: nat)
    requires Inv(c, s) && CanResolve(s, t)
    ensures WellFormed(c, s) && SameFaces(s.ios, Resolve(c, s, t).ios, t)
    ensures FaceOf(Resolve(c, s, t).ios, t) == if s.ios[t].kind.User? then Face(User, Init) else Gone
  {
    hide Inv, WellFormed, RefsExact, TreeLinks, ConflictLinks, ParkLinks, Moves, Coverage, MapsInverse, LandedPages,
         LifeCycle, Counts, Totals, Reserve, TriedStreams, InRange, StatusOk, Release;
    PartsMakeInv(c, s);
    ConflictFacts(c, s, t);
    var io, h := s.ios[t], s.ios[t].st.host;
    if io.kind.User? {
      DropConflict(s.ios, t, io.(st := Init));
      UserLinks(s.ios, s.tree, t);
      LastRef(s.ios[t := io.(st := Init)], h, 1);
      ReleaseFaces(s.ios[t := io.(st := Init)], h, 1);
    } else {
      ParkRefs(s.ios, t, h);
      ParkTasks(s.ios, s.tree, t, h);
      LastRef(Park(s.ios, t, h), h, 1);
      ReleaseFaces(Park(s.ios, t, h), h, 1);
    }
  }

  lemma EndioFaces(c: Config, s: State, t: nat)
    requires Inv(c, s) && CanEndio(s, t)
    ensures forall u :: FaceOf(Endio(c, s, t).ios, u) == FaceOf(s.ios, u)
  {
    hide Inv, WellFormed, RefsExact, TreeLinks, ConflictLinks, ParkLinks, Moves, Coverage, MapsInverse, LandedPages,
         LifeCycle, Counts, Totals, Reserve, TriedStreams, InRange, StatusOk, Release;
    PartsMakeInv(c, s);
    UnmapKeepsIos(c, s, s.ios[t].blk);
    var ios' := s.ios[t := Leaving(s.ios[t])];
    if s.ios[t].kind.User? {
      BindRefs(s.ios, t);
      BindLinks(s.ios, s.tree, t);
      LastRef(ios', t, 2);
      ReleaseFaces(ios', t, 2);
    }
  }

  lemma UnmapKeepsIos(c: Config, s: State, b: nat)
    requires WellFormed(c, s)
    ensures Unmap(c, s, b).ios == s.ios && Unmap(c, s, b).sched == s.sched
  {
  }

  lemma EndioIsStep(c: Config, s: State, t: nat)
    requires WellFormed(c, s) && CanEndio(s, t)
    ensures Enabled(c, s, LEndio(t)) && Apply(c, s, LEndio(t)) == Endio(c, s, t)
  {
    hide WellFormed, Release;
    UnmapKeepsIos(c, s, s.ios[t].blk);
  }

  lemma FinishFaces(c: Config, s: State, t: nat)
    requires Inv(c, s) && CanFinish(s, t)
    ensures forall u :: FaceOf(Finish(c, s, t).ios, u) == FaceOf(s.ios, u)
  {
    hide Inv, WellFormed, RefsExact, TreeLinks, ConflictLinks, ParkLinks, Moves, Coverage, MapsInverse, LandedPages,
         LifeCycle, Counts, Totals, Reserve, TriedStreams, InRange, StatusOk, Release;
    PartsMakeInv(c, s);
    var ios' := s.ios[t := s.ios[t].(st := Done)];
    FinishRefs(s.ios, t);
    FinishLinks(s.ios, s.tree, t);
    LastRef(ios', t, 1);
    ReleaseFaces(ios', t, 1);
  }

  // Steps that move no idle task.
  predicate Plain(l: Label) {
    OnDevice(l) || l.LSelect? || l.LEndScan? || l.LClose? || l.LReset? || l.LDiscard?
  }

  // Steps of operations on the device, of reads, and of GC tasks that are issued or called back.
  predicate OnDevice(l: Label) {
    l.LAppend? || l.LEndio? || l.LLookup? || l.LReadMedia? || l.LReadEndio? || l.LVisit? || l.LFinish?
  }

  lemma DeviceFaces(c: Config, s: State, l: Label)
    requires Inv(c, s) && Enabled(c, s, l) && OnDevice(l)
    ensures forall u :: FaceOf(Effect(c, s, l).ios, u) == FaceOf(s.ios, u)
  {
    hide Inv, WellFormed, Release, Endio, Finish;
    InvShape(c, s);
    match l
    case LEndio(t) => EndioFaces(c, s, t);
    case LFinish(t) => FinishFaces(c, s, t);
    case LAppend(t) => UpdateFaces(s.ios, t, Append(c, s, t).ios[t]);
    case LReadMedia(t) => UpdateFaces(s.ios, t, ReadMedia(c, s, t).ios[t]);
    case _ =>
  }

  lemma PlainFaces(c: Config, s: State, l: Label)
    requires Inv(c, s) && Enabled(c, s, l) && Plain(l)
    ensures forall u :: FaceOf(Effect(c, s, l).ios, u) == FaceOf(s.ios, u)
    ensures Queues(c, s, l) == s.sched
  {
    hide Inv, WellFormed, FaceOf;
    InvShape(c, s);
    UnmapKeepsIos(c, s, if l.LDiscard? then l.b else 0);
    if OnDevice(l) {
      hide Effect;
      DeviceFaces(c, s, l);
    } else {
      assert Effect(c, s, l).ios == s.ios;
    }
  }

  // ------------------------------------------------------------------------------- each step

  lemma TryAllocPlaced(c: Config, s: State, l: Label)
    requires Inv(c, s) && Placed(c.streams, s.ios, s.sched) && Enabled(c, s, l) && l.LTryAlloc?
    ensures Placed(c.streams, Effect(c, s, l).ios, Queues(c, s, l))
  {
    hide Inv, WellFormed, TryAlloc, SameFaces;
    PlacedParts(c.streams, s.ios, s.sched);
    var t, k := l.t, l.stream;
    InvShape(c, s);
    TryAllocShape(c, s, t, k);
    TaskFacts(c, s, t);
    var s' := TryAlloc(c, s, t, k);
    UpdateFaces(s.ios, t, s'.ios[t]);
    assert TurnOk(c.streams, FaceOf(s.ios, t), s.sched.turns[t]);
    if !Refused(c, s, t) && HasRoom(s, k) {
      PlacedLeaves(c.streams, s.ios, s'.ios, s.sched, t);
    } else {
      if s.ios[t].kind.Mover? {
        TryAllocKeepsInv(c, s, t, k);
        SoundParts(c, s');
        var j := ReserveIsEnough(c, s', t);
        AttemptLeft(c, s', t, j);
      }
      var turn := AfterAttempt(c.streams, s.sched, t, k, false).turns[t];
      hide Placed;
      PlacedTurn(c.streams, s.ios, s'.ios, s.sched, t, turn);
    }
  }

  lemma SoundParts(c: Config, s: State)
    requires Inv(c, s)
    ensures WellFormed(c, s)
    ensures forall b <- s.tree :: s.tree[b] in s.ios && s.ios[s.tree[b]].Task?
  {
    hide InRange, PlacesInRange, MapsInverse, LandedPages, LifeCycle, Counts, RefsExact, Tasks, Moves, Coverage,
         TriedStreams, Totals, Reserve;
  }

  lemma AttemptLeft(c: Config, s: State, t: nat, k: nat)
    requires WellFormed(c, s) && CanAlloc(s, t, k)
    ensures k < c.streams && k !in s.ios[t].st.tried
  {
  }

  lemma RequeuePlaced(c: Config, s: State, l: Label)
    requires Inv(c, s) && Placed(c.streams, s.ios, s.sched) && Enabled(c, s, l) && l.LRequeue?
    ensures Placed(c.streams, Effect(c, s, l).ios, Queues(c, s, l))
  {
    hide Inv, WellFormed, SameFaces;
    PlacedParts(c.streams, s.ios, s.sched);
    var t := l.t;
    InvShape(c, s);
    var ios' := Effect(c, s, l).ios;
    UpdateFaces(s.ios, t, ios'[t]);
    assert ios' == s.ios[t := ios'[t]];
    PlacedEnqueue(c.streams, s.ios, ios', s.sched, t);
  }

  lemma TreePlaced(c: Config, s: State, l: Label)
    requires Inv(c, s) && Placed(c.streams, s.ios, s.sched) && Enabled(c, s, l) && (l.LInsert? || l.LResolve?)
    ensures Placed(c.streams, Effect(c, s, l).ios, Queues(c, s, l))
  {
    hide Inv, WellFormed, SameFaces, Insert, Resolve;
    PlacedParts(c.streams, s.ios, s.sched);
    InvShape(c, s);
    var t, q := l.t, s.sched;
    assert TurnOk(c.streams, FaceOf(s.ios, t), q.turns[t]);
    SoundParts(c, s);
    if l.LInsert? {
      InsertFaces(c, s, t);
      assert q.turns[t := q.turns[t]] == q.turns;
      PlacedTurn(c.streams, s.ios, Insert(c, s, t).ios, q, t, q.turns[t]);
    } else {
      ResolveFaces(c, s, t);
      if s.ios[t].kind.User? {
        PlacedTurn(c.streams, s.ios, Resolve(c, s, t).ios, q, t, Failed);
      } else {
        PlacedLeaves(c.streams, s.ios, Resolve(c, s, t).ios, q, t);
      }
    }
  }

  lemma RecheckPlaced(c: Config, s: State, l: Label)
    requires WellFormed(c, s) && Placed(c.streams, s.ios, s.sched) && Enabled(c, s, l) && l.LRecheck?
    ensures Placed(c.streams, Effect(c, s, l).ios, Queues(c, s, l))
  {
    hide WellFormed, SameFaces;
    PlacedParts(c.streams, s.ios, s.sched);
    var t := l.t;
    var q, ios' := s.sched, Recheck(s, t).ios;
    UpdateFaces(s.ios, t, ios'[t]);
    assert TurnOk(c.streams, FaceOf(s.ios, t), q.turns[t]);
    if Stale(s, t) {
      PlacedLeaves(c.streams, s.ios, ios', q, t);
    } else {
      assert q.turns[t := q.turns[t]] == q.turns;
      PlacedTurn(c.streams, s.ios, ios', q, t, q.turns[t]);
    }
  }

  lemma ArrivalPlaced(c: Config, s: State, l: Label)
    requires Inv(c, s) && Placed(c.streams, s.ios, s.sched) && Enabled(c, s, l) && (l.LSubmit? || l.LMoveRead?)
    ensures Placed(c.streams, Effect(c, s, l).ios, Queues(c, s, l))
  {
    hide Inv, WellFormed, SameFaces, Placed;
    PartsMakeInv(c, s);
    hide MapsInverse, LandedPages, LifeCycle, Counts, RefsExact, Tasks, Moves, Coverage, TriedStreams, Totals, Reserve;
    var ios' := Effect(c, s, l).ios;
    UpdateFaces(s.ios, l.t, ios'[l.t]);
    if l.LSubmit? {
      PlacedBegin(c.streams, s.ios, ios', s.sched, l.t);
    } else {
      PlacedRead(c.streams, s.ios, ios', s.sched, l.t);
    }
  }

  lemma WorkerPlaced(c: Config, s: State, l: Label)
    requires c.Valid() && Placed(c.streams, s.ios, s.sched) && WellFormed(c, s) && Enabled(c, s, l)
    requires l.LTakeWrites? || l.LNext? || l.LTakeCopies? || l.LRest?
    ensures Placed(c.streams, Effect(c, s, l).ios, Queues(c, s, l))
  {
    hide WellFormed;
    PlacedParts(c.streams, s.ios, s.sched);
    assert s.sched.pass.Resting? ==> s.sched.batch == [] && s.sched.busy.None?;
    hide Placed;
    if l.LNext? { PlacedNext(c.streams, s.ios, s.sched); } else { PlacedSplice(c.streams, s.ios, s.sched); }
  }

  /** Every step keeps every idle task in exactly one place. */
  lemma StepKeepsPlaced(c: Config, s: State, l: Label)
    requires Inv(c, s) && Placed(c.streams, s.ios, s.sched) && Enabled(c, s, l)
    ensures Placed(c.streams, Apply(c, s, l).ios, Apply(c, s, l).sched)
  {
    hide Inv, WellFormed, Placed, Queues, Insert, Resolve, Endio, Finish, TryAlloc, Lookup, ReadEndio, Visit, Unmap;
    PartsMakeInv(c, s);
    if Plain(l) {
      hide Effect, Enabled, FaceOf;
      PlainFaces(c, s, l);
      PlacedStays(c.streams, s.ios, Effect(c, s, l).ios, s.sched);
    } else {
      MovingPlaced(c, s, l);
    }
  }

  lemma MovingPlaced(c: Config, s: State, l: Label)
    requires Inv(c, s) && Placed(c.streams, s.ios, s.sched) && Enabled(c, s, l) && !Plain(l)
    ensures Placed(c.streams, Effect(c, s, l).ios, Queues(c, s, l))
  {
    hide Inv, WellFormed, Placed, Queues, Effect, Enabled;
    PartsMakeInv(c, s);
    match l
    case LSubmit(_, _, _) => ArrivalPlaced(c, s, l);
    case LMoveRead(_) => ArrivalPlaced(c, s, l);
    case LInsert(_) => TreePlaced(c, s, l);
    case LResolve(_) => TreePlaced(c, s, l);
    case LTryAlloc(_, _) => TryAllocPlaced(c, s, l);
    case LRequeue(_) => RequeuePlaced(c, s, l);
    case LRecheck(_) => RecheckPlaced(c, s, l);
    case _ => WorkerPlaced(c, s, l);
  }

  // ------------------------------------------------------------------------------- every run

  // What every reachable state satisfies, the places of tasks included.
  ghost predicate Sound(c: Config, s: State) {
    Inv(c, s) && Placed(c.streams, s.ios, s.sched)
  }

  lemma StepKeepsSound(c: Config, s: State, l: Label)
    requires Sound(c, s) && Enabled(c, s, l)
    ensures Sound(c, Apply(c, s, l))
  {
    hide Inv, Placed, Apply, Enabled;
    StepKeepsInv(c, s, l);
    StepKeepsPlaced(c, s, l);
  }

  lemma SoundShape(c: Config, s: State)
    requires Sound(c, s)
    ensures WellFormed(c, s) && c.Valid()
  {
    hide Inv, WellFormed;
    InvShape(c, s);
  }

  lemma SoundInv(c: Config, s: State)
    requires Sound(c, s)
    ensures Inv(c, s)
  {
    hide Inv, Placed;
  }

  lemma {:induction false} RunKeepsSound(c: Config, s: State, run: seq<Label>)
    requires Sound(c, s)
    ensures Run(c, s, run).Some? ==> Sound(c, Run(c, s, run).value)
    decreases |run|
  {
    hide Sound, WellFormed, Enabled, Apply;
    if run != [] && WellFormed(c, s) && Enabled(c, s, run[0]) {
      StepKeepsSound(c, s, run[0]);
      RunKeepsSound(c, Apply(c, s, run[0]), run[1..]);
    }
  }

  lemma InitialSound(c: Config)
    requires c.Valid()
    ensures Sound(c, Initial(c))
  {
    hide Inv;
    InitialInv(c);
  }

  lemma ReachableSound(c: Config, s: State)
    requires Reachable(c, s)
    ensures Sound(c, s)
  {
    hide Sound, WellFormed;
    InitialSound(c);
    var run :| Run(c, Initial(c), run) == Some(s);
    RunKeepsSound(c, Initial(c), run);
  }

  // ------------------------------------------------------------------------ one place each

  /** In every reachable state a user write that is not done is in exactly one place: in the
      queue, on the retry worker's list, in the hand of who submits it, or on the device; and it
      has its block's slot of the tree exactly if its status is past the insertion. */
  lemma UserTaskPlace(c: Config, s: State, t: nat)
    requires Reachable(c, s) && t in s.ios && IsUser(s.ios[t]) && !s.ios[t].st.Done?
    ensures Bit(t in s.sched.pending) + Bit(t in s.sched.batch) + Bit(t in s.sched.turns)
            + Bit(s.ios[t].st.Writing? || s.ios[t].st.Landed?) == 1
    ensures t !in s.sched.gcWrites && (t in s.sched.batch ==> s.sched.pass.Writes?)
    ensures (s.ios[t].blk in s.tree && s.tree[s.ios[t].blk] == t) <==> !s.ios[t].st.Init? && !s.ios[t].st.Conflict?
  {
    hide Inv, Reachable, Apart;
    PlacedParts(c.streams, s.ios, s.sched);
    ReachableSound(c, s);
    TaskFacts(c, s, t);
    TreeIsExact(c, s, t);
    OnePlace(s.sched, t);
    assert FaceOf(s.ios, t).Face? <==> Somewhere(s.sched, t);
    hide FaceOf;
  }

  /** The same for a GC task until its callback has run: it is being read or written, or in its
      queue, on the worker's list, in the worker's hand, parked on a writer, or in its callback. */
  lemma GcTaskPlace(c: Config, s: State, t: nat)
    requires Reachable(c, s) && t in s.ios && IsMove(s.ios[t])
    ensures Bit(t in s.sched.gcWrites) + Bit(t in s.sched.batch) + Bit(t in s.sched.turns) + Bit(s.ios[t].st.Parked?)
            + Bit(s.ios[t].st.Reading? || s.ios[t].st.Writing? || s.ios[t].st.Landed?)
                + Bit(s.ios[t].st.Finishing?) == 1
    ensures t !in s.sched.pending && (t in s.sched.batch ==> s.sched.pass.Copies?)
    ensures t in s.sched.turns ==> s.sched.busy == Some(t)
  {
    hide Inv, Reachable, Apart;
    PlacedParts(c.streams, s.ios, s.sched);
    ReachableSound(c, s);
    TaskFacts(c, s, t);
    OnePlace(s.sched, t);
    assert FaceOf(s.ios, t).Face? <==> Somewhere(s.sched, t);
  }

  lemma OnePlace(q: Sched, t: nat)
    requires Apart(q)
    ensures Bit(t in q.pending) + Bit(t in q.gcWrites) + Bit(t in q.batch) + Bit(t in q.turns) == Bit(Somewhere(q, t))
  {
  }

  // ------------------------------------------------------------------------------------ drain

  /** When both write counters are zero there is nothing left to wait for: no task is in
      the tree, in a queue, on the worker's list or in anybody's hand, and no zone has a pending
      write. */
  lemma DrainedMeansIdle(c: Config, s: State)
    requires Reachable(c, s) && s.userInflight == 0 && s.gcInflight == 0
    ensures s.tree == map[]
    ensures forall z :: 0 <= z < |s.zones| ==> s.zones[z].pending == 0 && s.zones[z].wp == |s.zones[z].data|
    ensures forall t :: t in s.ios && s.ios[t].Task? ==> s.ios[t].st.Done?
    ensures s.sched.pending == [] && s.sched.gcWrites == [] && s.sched.batch == [] && s.sched.turns == map[]
  {
    hide Inv, Sound, WellFormed, Reachable, MapsInverse, LandedPages, Counts, Moves, Coverage, TriedStreams, InRange,
         Reserve, LifeCycle, RefsExact, ConflictLinks, ParkLinks;
    ReachableInv(c, s);
    ReachableSound(c, s);
    EmptyQueues(c, s);
    PartsMakeInv(c, s);
    CountZero(s.ios, LiveUser);
    CountZero(s.ios, LiveMove);
    assert forall t :: t in s.ios && s.ios[t].Task? ==>
             Match(LiveUser, s.ios[t]) || Match(LiveMove, s.ios[t]) || s.ios[t].st.Done?;
    forall z | 0 <= z < |s.zones|
      ensures s.zones[z].pending == 0 && s.zones[z].wp == |s.zones[z].data|
    {
      ZoneFacts(c, s, z);
      assert Holders(s.ios, WritesTo(z)) == {};
      assert Holders(s.ios, Unlanded(z)) == {};
    }
    assert forall b :: b !in s.tree;
  }

  lemma EmptyQueues(c: Config, s: State)
    requires Sound(c, s) && s.userInflight == 0 && s.gcInflight == 0
    ensures s.sched.pending == [] && s.sched.gcWrites == [] && s.sched.batch == [] && s.sched.turns == map[]
  {
    hide Inv, Placed, MapsInverse, LandedPages, LifeCycle, Counts, RefsExact, Moves, Coverage, TriedStreams, InRange,
         Reserve, WellFormed, TreeLinks, ConflictLinks, ParkLinks;
    PartsMakeInv(c, s);
    CountZero(s.ios, LiveUser);
    CountZero(s.ios, LiveMove);
    assert forall t <- s.ios :: Idle(s.ios[t]) ==> Match(LiveUser, s.ios[t]) || Match(LiveMove, s.ios[t]);
    hide Parts;
    NoFaces(c, s);
  }

  lemma NoFaces(c: Config, s: State)
    requires Placed(c.streams, s.ios, s.sched) && forall t :: FaceOf(s.ios, t).Gone?
    ensures s.sched.pending == [] && s.sched.gcWrites == [] && s.sched.batch == [] && s.sched.turns == map[]
  {
    hide FaceOf, TurnOk, Apart, BatchOk, BusyOk;
    PlacedParts(c.streams, s.ios, s.sched);
    var q := s.sched;
    forall t
      ensures t !in q.pending && t !in q.gcWrites && t !in q.batch && t !in q.turns
    {
      assert !Somewhere(q, t);
    }
    SomeElement(q.pending);
    SomeElement(q.gcWrites);
    SomeElement(q.batch);
  }

  lemma SomeElement(s: seq<nat>)
    ensures s == [] || exists t :: t in s
  {
    if s != [] { assert s[0] in s; }
  }
}
