/**
 * Nothing waits in vain.  From every reachable state, steps of operations already in flight, of
 * the retry worker, the collector and the zone worker lead to the end of a collection under way,
 * to the dispatch of any waiting write, and to an idle device.
 */
module Liveness {
  import opened Machine
  import opened Counting
  import opened Invariant
  import opened Frames
  import opened CollectorSteps
  import opened ZoneSteps
  import opened TreeSteps
  import opened Runs
  import opened Guarantees
  import opened Progress
  import opened Placement
  import opened Effort

  // --------------------------------------------------------------------------- runs that drive

  /** The run leads from s to s' by moving steps alone. */
  ghost predicate Drive(c: Config, s: State, run: seq<Label>, s': State) {
    forall seal: Seal :: Driven(seal, c, s, run, s')
  }

  ghost predicate Driven(seal: Seal, c: Config, s: State, run: seq<Label>, s': State) {
    && Run(c, s, run) == Some(s') && Sound(c, s')
    && forall i :: 0 <= i < |run| ==> Moving(run[i])
  }

  lemma DriveIs(c: Config, s: State, run: seq<Label>, s': State)
    ensures Drive(c, s, run, s') <==>
              Run(c, s, run) == Some(s') && Sound(c, s') && forall i :: 0 <= i < |run| ==> Moving(run[i])
  {
    hide Run, Sound, Moving;
    assert Drive(c, s, run, s') ==> Driven(Seal, c, s, run, s');
  }

  lemma DriveOne(c: Config, s: State, l: Label)
    requires Sound(c, s) && WellFormed(c, s) && Enabled(c, s, l) && Moving(l)
    ensures Drive(c, s, [l], Apply(c, s, l))
  {
    hide Sound, WellFormed, Enabled, Apply, Moving;
    OneStep(c, s, l);
    StepKeepsSound(c, s, l);
  }

  lemma DriveOn(c: Config, s: State, a: seq<Label>, s1: State, b: seq<Label>, s2: State)
    requires Drive(c, s, a, s1) && Drive(c, s1, b, s2)
    ensures Drive(c, s, a + b, s2)
  {
    hide Sound, Moving, Run;
    DriveIs(c, s, a, s1);
    DriveIs(c, s1, b, s2);
    DriveIs(c, s, a + b, s2);
    RunConcat(c, s, a, s1, b);
  }

  // User writes not yet dispatched.
  ghost function Waiting(ios: map<nat, Io>): set<nat> {
    set t | t in ios && FaceOf(ios, t).Face? && FaceOf(ios, t).kind.User?
  }

  // ----------------------------------------------------------- a user write has its turn

  // A user write with the block's tree slot that carries a parked GC task.
  predicate Carrier(ios: map<nat, Io>, t: nat) {
    t in ios && IsUser(ios[t]) && ios[t].st.Alloc? && ios[t].pendingGc.Some?
  }

  /** What the turn of user write t may change as long as it has not been dispatched. */
  ghost predicate OnlyTurn(s: State, s': State, t: nat) {
    && SameFaces(s.ios, s'.ios, t)
    && Work(s'.ios) <= Work(s.ios)
    && s'.gc == s.gc && s'.allocable == s.allocable
    && forall u :: u != t && Carrier(s.ios, u) ==> Carrier(s'.ios, u)
  }

  // t is back in its queue and nothing else has moved.
  ghost predicate Returned(s: State, s': State, t: nat) {
    OnlyTurn(s, s', t) && AtRest(FaceOf(s'.ios, t)) && s'.sched == Enqueue(s.sched, t)
  }

  lemma InsertTurn(c: Config, s: State, t: nat)
    requires Inv(c, s) && Enabled(c, s, LInsert(t)) && s.ios[t].kind.User?
    ensures OnlyTurn(s, Apply(c, s, LInsert(t)), t)
  {
    hide Inv, WellFormed, Work;
    InvShape(c, s);
    InsertFaces(c, s, t);
    InsertWorks(c, s, t);
    if s.ios[t].blk in s.tree { MeetsUser(c, s, t); }
    hide SameFaces;
  }

  lemma ResolveTurn(c: Config, s: State, t: nat)
    requires Inv(c, s) && Enabled(c, s, LResolve(t)) && s.ios[t].kind.User?
    ensures OnlyTurn(s, Apply(c, s, LResolve(t)), t)
  {
    hide Inv, WellFormed, Work, SameFaces, Release;
    InvShape(c, s);
    ResolveFaces(c, s, t);
    ResolveWorks(c, s, t);
    CarriersStay(c, s, t);
  }

  lemma CarriersStay(c: Config, s: State, t: nat)
    requires Inv(c, s) && CanResolve(s, t) && s.ios[t].kind.User?
    ensures WellFormed(c, s) && forall u :: u != t && Carrier(s.ios, u) ==> Carrier(Resolve(c, s, t).ios, u)
  {
    hide Inv, WellFormed, RefsExact, TreeLinks, ConflictLinks, ParkLinks, Moves, Coverage, MapsInverse, LandedPages,
         LifeCycle, Counts, Totals, Reserve, TriedStreams, InRange, StatusOk;
    PartsMakeInv(c, s);
    ConflictFacts(c, s, t);
    var io, h := s.ios[t].(st := Init), s.ios[t].st.host;
    DropConflict(s.ios, t, io);
    UserLinks(s.ios, s.tree, t);
    LastRef(s.ios[t := io], h, 1);
    CarriersKept(s.ios[t := io], h);
  }

  lemma CarriersKept(ios: map<nat, Io>, h: nat)
    requires h in ios && ios[h].Task? && ParkLinks(ios) && (ios[h].rc <= 1 ==> ios[h].st.Done?)
    ensures forall u :: Carrier(ios, u) ==> Carrier(Release(ios, h, 1), u)
  {
  }

  lemma AttemptTurn(c: Config, s: State, t: nat, k: nat)
    requires Inv(c, s) && WellFormed(c, s) && t in s.ios && IsUser(s.ios[t]) && Enabled(c, s, LTryAlloc(t, k))
    ensures FaceOf(Apply(c, s, LTryAlloc(t, k)).ios, t).Gone? || OnlyTurn(s, Apply(c, s, LTryAlloc(t, k)), t)
  {
    hide Inv, WellFormed, Work, TryAlloc;
    InvShape(c, s);
    TryAllocShape(c, s, t, k);
    AttemptWorks(c, s, t, k);
    if Refused(c, s, t) || !HasRoom(s, k) { FailedKeepsSpace(c, s, t, k); }
    UpdateFaces(s.ios, t, TryAlloc(c, s, t, k).ios[t]);
    hide SameFaces;
  }

  lemma FailedKeepsSpace(c: Config, s: State, t: nat, k: nat)
    requires WellFormed(c, s) && CanAlloc(s, t, k) && (Refused(c, s, t) || !HasRoom(s, k))
    ensures TryAlloc(c, s, t, k).allocable == s.allocable
  {
    hide WellFormed;
  }

  lemma RequeueTurn(c: Config, s: State, t: nat)
    requires Sound(c, s) && Enabled(c, s, LRequeue(t))
    ensures Returned(s, Apply(c, s, LRequeue(t)), t)
  {
    hide Inv, WellFormed, Work, Apart, BatchOk, BusyOk;
    PlacedParts(c.streams, s.ios, s.sched);
    InvShape(c, s);
    assert TurnOk(c.streams, FaceOf(s.ios, t), Failed);
    StatusWorks(c, s, t);
    UpdateFaces(s.ios, t, Apply(c, s, LRequeue(t)).ios[t]);
    hide SameFaces;
  }

  ghost function Untried(streams: nat, failed: set<nat>): set<nat> {
    set k: nat | k < streams && k !in failed
  }

  // How many steps a turn may still take.
  ghost function TurnRank(streams: nat, f: Face, turn: Turn): nat {
    match turn
    case Failed => 0
    case Going(failed) =>
      if f.Face? && f.st.Conflict? then 1
      else if f.Face? && f.st.Alloc? then 1 + |Untried(streams, failed)|
      else 2 + |Untried(streams, failed)|
  }

  // After a step of its turn, the task is dispatched or its turn is nearer to the end.
  ghost predicate TurnGoesOn(c: Config, s: State, s': State, t: nat)
    requires t in s.sched.turns
  {
    || FaceOf(s'.ios, t).Gone?
    || (&& OnlyTurn(s, s', t) && t in s'.sched.turns && FaceOf(s'.ios, t).Face? && FaceOf(s'.ios, t).kind.User?
        && s'.sched == s.sched.(turns := s.sched.turns[t := s'.sched.turns[t]])
        && TurnRank(c.streams, FaceOf(s'.ios, t), s'.sched.turns[t])
           < TurnRank(c.streams, FaceOf(s.ios, t), s.sched.turns[t]))
  }

  // The next step of a user write's turn that has not come to its end.
  lemma TurnStep(c: Config, s: State, t: nat) returns (l: Label)
    requires Sound(c, s) && InTurn(s.sched, t) && FaceOf(s.ios, t).Face? && FaceOf(s.ios, t).kind.User?
    ensures WellFormed(c, s) && Enabled(c, s, l) && Moving(l)
    ensures TurnGoesOn(c, s, Apply(c, s, l), t)
  {
    hide Inv, WellFormed, Work, OnlyTurn, Insert, Resolve, Apart, BatchOk, BusyOk, SameFaces;
    PlacedParts(c.streams, s.ios, s.sched);
    InvShape(c, s);
    var q := s.sched;
    assert TurnOk(c.streams, FaceOf(s.ios, t), q.turns[t]);
    SoundParts(c, s);
    match s.ios[t].st
    case Init =>
      l := LInsert(t);
      InsertTurn(c, s, t);
      InsertFaces(c, s, t);
      assert q.turns == q.turns[t := q.turns[t]];
    case Conflict(_) =>
      l := LResolve(t);
      ResolveTurn(c, s, t);
      ResolveFaces(c, s, t);
    case Alloc(_) =>
      l := AttemptStep(c, s, t);
  }

  lemma AttemptStep(c: Config, s: State, t: nat) returns (l: Label)
    requires Inv(c, s) && WellFormed(c, s) && InTurn(s.sched, t) && t in s.ios && IsUser(s.ios[t]) && s.ios[t].st.Alloc?
    requires TurnOk(c.streams, FaceOf(s.ios, t), s.sched.turns[t])
    ensures Enabled(c, s, l) && Moving(l) && TurnGoesOn(c, s, Apply(c, s, l), t)
  {
    hide Inv, WellFormed, Work, OnlyTurn, TryAlloc;
    var failed := s.sched.turns[t].failed;
    var k: nat :| k < c.streams && k !in failed;
    ActiveSize(c, s);
    l := LTryAlloc(t, k);
    AttemptTurn(c, s, t, k);
    TryAllocShape(c, s, t, k);
    assert k in Untried(c.streams, failed);
    assert Untried(c.streams, failed + {k}) == Untried(c.streams, failed) - {k};
  }

  lemma TurnThrough(s: State, s1: State, s2: State, t: nat)
    requires OnlyTurn(s, s1, t) && t in s1.sched.turns
             && s1.sched == s.sched.(turns := s.sched.turns[t := s1.sched.turns[t]])
    requires Returned(s1, s2, t)
    ensures Returned(s, s2, t)
  {
    hide Work, FaceOf;
    assert s1.sched.turns - {t} == s.sched.turns - {t};
  }

  /** The turn of a user write comes to its end: it is dispatched, or back in its queue with
      nothing else moved. */
  lemma {:induction false} FinishTurn(c: Config, s: State, t: nat) returns (run: seq<Label>, s': State)
    requires Sound(c, s) && t in s.sched.turns && FaceOf(s.ios, t).Face? && FaceOf(s.ios, t).kind.User?
    ensures Drive(c, s, run, s')
    ensures FaceOf(s'.ios, t).Gone? || Returned(s, s', t)
    decreases TurnRank(c.streams, FaceOf(s.ios, t), s.sched.turns[t])
  {
    hide Sound, WellFormed, Enabled, Apply, Drive, OnlyTurn, Returned, TurnRank, Moving, FaceOf;
    SoundShape(c, s);
    if s.sched.turns[t].Failed? {
      FailedIsUser(c, s, t);
      DriveOne(c, s, LRequeue(t));
      RequeueTurn(c, s, t);
      run, s' := [LRequeue(t)], Apply(c, s, LRequeue(t));
    } else {
      var l := TurnStep(c, s, t);
      var s1 := Apply(c, s, l);
      DriveOne(c, s, l);
      StepKeepsSound(c, s, l);
      run, s' := [l], s1;
      if FaceOf(s1.ios, t).Face? {
        var rest, last := FinishTurn(c, s1, t);
        DriveOn(c, s, [l], s1, rest, last);
        if Returned(s1, last, t) { TurnThrough(s, s1, last, t); }
        run, s' := [l] + rest, last;
      }
    }
  }

  lemma FailedIsUser(c: Config, s: State, t: nat)
    requires WellFormed(c, s) && t in s.sched.turns && s.sched.turns[t].Failed?
    requires FaceOf(s.ios, t).Face? && FaceOf(s.ios, t).kind.User?
    ensures Enabled(c, s, LRequeue(t)) && Moving(LRequeue(t))
  {
    hide WellFormed;
  }

  // ------------------------------------------------------------------- what no step undoes

  // The task whose place a step may change.
  function Own(l: Label): nat {
    if l.LInsert? || l.LResolve? || l.LTryAlloc? || l.LRequeue? || l.LMoveRead? || l.LRecheck? then l.t else 0
  }

  // A user write leaves the waiting ones only by being dispatched.
  lemma OwnFaces(c: Config, s: State, l: Label)
    requires Inv(c, s) && Enabled(c, s, l) && !Plain(l) && !l.LSubmit?
    ensures SameFaces(s.ios, Apply(c, s, l).ios, Own(l))
    ensures var f, f' := FaceOf(s.ios, Own(l)), FaceOf(Apply(c, s, l).ios, Own(l));
            && (f'.Face? && f'.kind.User? ==> f.Face? && f.kind.User?)
            && (f.Face? && f'.Face? ==> f.kind == f'.kind)
            && (f.Face? && f.kind.User? && f'.Gone? ==>
                  Own(l) in Apply(c, s, l).ios && IsUser(Apply(c, s, l).ios[Own(l)])
                      && Apply(c, s, l).ios[Own(l)].st.Writing?)
  {
    hide Inv, WellFormed, Insert, Resolve, TryAlloc, Queues;
    InvShape(c, s);
    match l
    case LInsert(t) => InsertFaces(c, s, t);
    case LResolve(t) => ResolveFaces(c, s, t);
    case LTryAlloc(t, k) => TryAllocShape(c, s, t, k); UpdateFaces(s.ios, t, TryAlloc(c, s, t, k).ios[t]);
    case LRequeue(t) => UpdateFaces(s.ios, t, Effect(c, s, l).ios[t]);
    case LMoveRead(t) => UpdateFaces(s.ios, t, MoveRead(c, s, t).ios[t]);
    case LRecheck(t) => UpdateFaces(s.ios, t, Recheck(s, t).ios[t]);
    case _ =>
  }

  lemma StepWaiting(c: Config, s: State, l: Label)
    requires Inv(c, s) && Enabled(c, s, l) && !l.LSubmit?
    ensures Waiting(Apply(c, s, l).ios) <= Waiting(s.ios)
    ensures forall t <- Waiting(s.ios) :: t !in Waiting(Apply(c, s, l).ios) ==>
              t in Apply(c, s, l).ios && IsUser(Apply(c, s, l).ios[t]) && Apply(c, s, l).ios[t].st.Writing?
  {
    hide Inv, WellFormed, Enabled, Effect, Queues, SameFaces;
    InvShape(c, s);
    if Plain(l) {
      PlainFaces(c, s, l);
    } else {
      OwnFaces(c, s, l);
      FacesApart(s.ios, Apply(c, s, l).ios, Own(l));
    }
  }

  lemma FacesApart(ios: map<nat, Io>, ios': map<nat, Io>, x: nat)
    requires SameFaces(ios, ios', x)
    ensures forall t :: t != x ==> (t in Waiting(ios) <==> t in Waiting(ios'))
  {
  }

  lemma {:induction false} RunWaiting(c: Config, s: State, run: seq<Label>)
    requires Inv(c, s) && Run(c, s, run).Some? && forall i :: 0 <= i < |run| ==> !run[i].LSubmit?
    ensures Waiting(Run(c, s, run).value.ios) <= Waiting(s.ios)
    decreases |run|
  {
    hide Inv, WellFormed, Enabled, Apply, Waiting;
    if run != [] {
      StepWaiting(c, s, run[0]);
      StepKeepsInv(c, s, run[0]);
      RunWaiting(c, Apply(c, s, run[0]), run[1..]);
    }
  }

  lemma DriveWaiting(c: Config, s: State, run: seq<Label>, s': State)
    requires Sound(c, s) && Drive(c, s, run, s')
    ensures Waiting(s'.ios) <= Waiting(s.ios)
  {
    hide Inv, Placed, Run, Waiting;
    DriveIs(c, s, run, s');
    RunWaiting(c, s, run);
  }

  lemma Dispatched(c: Config, s: State, run: seq<Label>, s': State, t: nat)
    requires Sound(c, s) && Drive(c, s, run, s')
    requires FaceOf(s.ios, t).Face? && FaceOf(s.ios, t).kind.User? && FaceOf(s'.ios, t).Gone?
    ensures Waiting(s'.ios) < Waiting(s.ios)
  {
    hide Sound, Drive;
    DriveWaiting(c, s, run, s');
    assert t in Waiting(s.ios) && t !in Waiting(s'.ios);
  }

  // Only choosing and resetting a victim begin and end a collection.
  lemma StepGc(c: Config, s: State, l: Label)
    requires Inv(c, s) && Enabled(c, s, l) && Moving(l)
    ensures Apply(c, s, l).gc.Some? == s.gc.Some?
  {
    hide Inv, WellFormed, Insert, Resolve, TryAlloc, Endio, Finish, Queues;
    InvShape(c, s);
    match l
    case LInsert(t) => InsertWorks(c, s, t);
    case LResolve(t) => ResolveWorks(c, s, t);
    case LTryAlloc(t, k) => TryAllocShape(c, s, t, k);
    case LEndio(t) => EndioWorks(c, s, t);
    case LFinish(t) => FinishWorks(c, s, t);
    case _ =>
  }

  lemma {:induction false} RunGc(c: Config, s: State, run: seq<Label>)
    requires Inv(c, s) && Run(c, s, run).Some? && forall i :: 0 <= i < |run| ==> Moving(run[i])
    ensures Run(c, s, run).value.gc.Some? == s.gc.Some?
    decreases |run|
  {
    hide Inv, WellFormed, Enabled, Apply, Moving;
    if run != [] {
      StepGc(c, s, run[0]);
      StepKeepsInv(c, s, run[0]);
      RunGc(c, Apply(c, s, run[0]), run[1..]);
    }
  }

  lemma DriveGc(c: Config, s: State, run: seq<Label>, s': State)
    requires Sound(c, s) && Drive(c, s, run, s')
    ensures s'.gc.Some? == s.gc.Some?
  {
    hide Inv, Placed, Run;
    DriveIs(c, s, run, s');
    RunGc(c, s, run);
  }

  // Without a collection, space is only taken by the dispatch of a waiting write.
  lemma StepSpace(c: Config, s: State, l: Label)
    requires Inv(c, s) && Enabled(c, s, l) && Moving(l) && s.gc.None?
    ensures Apply(c, s, l).allocable == s.allocable || Waiting(Apply(c, s, l).ios) < Waiting(s.ios)
  {
    hide Inv, WellFormed, Enabled, Effect, Queues, Waiting;
    InvShape(c, s);
    if l.LTryAlloc? { AttemptSpace(c, s, l.t, l.stream); } else { OtherSpace(c, s, l); }
  }

  lemma AttemptSpace(c: Config, s: State, t: nat, k: nat)
    requires Inv(c, s) && Enabled(c, s, LTryAlloc(t, k)) && s.gc.None?
    ensures var s' := Apply(c, s, LTryAlloc(t, k)); s'.allocable == s.allocable || Waiting(s'.ios) < Waiting(s.ios)
  {
    hide Inv, WellFormed, TryAlloc, Queues;
    InvShape(c, s);
    TaskFacts(c, s, t);
    TryAllocShape(c, s, t, k);
    if Refused(c, s, t) || !HasRoom(s, k) {
      FailedKeepsSpace(c, s, t, k);
    } else {
      StepWaiting(c, s, LTryAlloc(t, k));
      assert t in Waiting(s.ios) && t !in Waiting(Apply(c, s, LTryAlloc(t, k)).ios);
    }
  }

  lemma OtherSpace(c: Config, s: State, l: Label)
    requires Inv(c, s) && Enabled(c, s, l) && Moving(l) && !l.LTryAlloc?
    ensures Apply(c, s, l).allocable == s.allocable
  {
    hide Inv, WellFormed, Insert, Resolve, Release, Queues;
    InvShape(c, s);
    match l
    case LInsert(t) => InsertWorks(c, s, t);
    case LResolve(t) => ResolveWorks(c, s, t);
    case _ =>
  }

  lemma {:induction false} RunSpace(c: Config, s: State, run: seq<Label>)
    requires Inv(c, s) && Run(c, s, run).Some? && s.gc.None? && forall i :: 0 <= i < |run| ==> Moving(run[i])
    ensures Run(c, s, run).value.allocable == s.allocable || Waiting(Run(c, s, run).value.ios) < Waiting(s.ios)
    decreases |run|
  {
    hide Inv, WellFormed, Enabled, Apply, Waiting;
    if run != [] {
      StepSpace(c, s, run[0]);
      StepGc(c, s, run[0]);
      StepWaiting(c, s, run[0]);
      StepKeepsInv(c, s, run[0]);
      assert forall i :: 0 <= i < |run[1..]| ==> Moving(run[1..][i]);
      RunWaiting(c, Apply(c, s, run[0]), run[1..]);
      RunSpace(c, Apply(c, s, run[0]), run[1..]);
    }
  }

  lemma DriveSpace(c: Config, s: State, run: seq<Label>, s': State)
    requires Sound(c, s) && Drive(c, s, run, s') && s.gc.None?
    ensures s'.allocable == s.allocable || Waiting(s'.ios) < Waiting(s.ios)
  {
    hide Inv, Placed, Run, Waiting;
    DriveIs(c, s, run, s');
    RunSpace(c, s, run);
  }

  // ------------------------------------------------------------------ the worker goes on

  function PassRank(p: Pass): nat {
    match p
    case Writes => 2
    case Copies => 1
    case Resting => 0
  }

  // What the worker and the submitters still have in their hands.
  function Chores(q: Sched): nat {
    2 * (|q.batch| + |q.gcWrites|) + |q.turns| + PassRank(q.pass)
  }

  /** The step or run dispatched a waiting write, or else brought the work down. */
  ghost predicate Better(c: Config, s: State, s': State) {
    || Waiting(s'.ios) < Waiting(s.ios)
    || (Waiting(s'.ios) == Waiting(s.ios)
        && (Remaining(c, s') < Remaining(c, s)
           || (Remaining(c, s') == Remaining(c, s) && Chores(s'.sched) < Chores(s.sched))))
  }

  lemma WorksBetter(c: Config, s: State, l: Label) returns (run: seq<Label>, s': State)
    requires Sound(c, s) && Works(c, s, l)
    ensures Drive(c, s, run, s') && Better(c, s, s')
  {
    hide Sound, WellFormed, Enabled, Apply, Remaining, Drive;
    run, s' := [l], Apply(c, s, l);
    DriveOne(c, s, l);
    DriveWaiting(c, s, run, s');
  }

  // Nobody is submitting anything.
  predicate HandsFree(q: Sched) {
    q.turns == map[] && q.busy.None?
  }

  lemma NoTurnsFree(c: Config, s: State)
    requires Sound(c, s) && s.sched.turns == map[]
    ensures HandsFree(s.sched)
  {
    hide Inv;
    PlacedParts(c.streams, s.ios, s.sched);
  }

  // The worker's steps between two submissions.
  lemma TakeWritesStep(c: Config, s: State) returns (s': State)
    requires Sound(c, s) && s.sched.pass.Resting?
    ensures s' == s.(sched := TakeWrites(s.sched)) && Drive(c, s, [LTakeWrites], s') && Sound(c, s')
  {
    hide Sound, WellFormed, Drive;
    SoundShape(c, s);
    s' := Apply(c, s, LTakeWrites);
    DriveOne(c, s, LTakeWrites);
    StepKeepsSound(c, s, LTakeWrites);
  }

  lemma TakeCopiesStep(c: Config, s: State) returns (s': State)
    requires Sound(c, s) && s.sched.pass.Writes? && s.sched.busy.None? && s.sched.batch == []
    ensures s' == s.(sched := TakeCopies(s.sched)) && Drive(c, s, [LTakeCopies], s') && Sound(c, s')
  {
    hide Sound, WellFormed, Drive;
    SoundShape(c, s);
    s' := Apply(c, s, LTakeCopies);
    DriveOne(c, s, LTakeCopies);
    StepKeepsSound(c, s, LTakeCopies);
  }

  lemma NextStep(c: Config, s: State) returns (s': State)
    requires Sound(c, s) && s.sched.busy.None? && s.sched.batch != []
    ensures s' == s.(sched := TakeNext(s.sched)) && Drive(c, s, [LNext], s') && Sound(c, s')
  {
    hide Sound, WellFormed, Drive;
    SoundShape(c, s);
    s' := Apply(c, s, LNext);
    DriveOne(c, s, LNext);
    StepKeepsSound(c, s, LNext);
  }

  lemma RestStep(c: Config, s: State) returns (s': State)
    requires Sound(c, s) && s.sched.pass.Copies? && s.sched.busy.None? && s.sched.batch == []
    ensures s' == s.(sched := s.sched.(pass := Resting)) && Drive(c, s, [LRest], s') && Sound(c, s')
  {
    hide Sound, WellFormed, Drive;
    SoundShape(c, s);
    s' := Apply(c, s, LRest);
    DriveOne(c, s, LRest);
    StepKeepsSound(c, s, LRest);
  }

  /** The worker takes the next write of its list and submits it: it is dispatched, or back in
      its queue. */
  lemma NextWrite(c: Config, s: State) returns (run: seq<Label>, s': State)
    requires Sound(c, s) && HandsFree(s.sched) && s.sched.pass.Writes? && s.sched.batch != []
    ensures Drive(c, s, run, s')
    ensures Waiting(s'.ios) < Waiting(s.ios) || Back(s, s')
  {
    PlacedParts(c.streams, s.ios, s.sched);
    var t := s.sched.batch[0];
    hide Sound, Drive, Returned, FaceOf;
    var s1 := NextStep(c, s);
    var rest, last := FinishTurn(c, s1, t);
    DriveOn(c, s, [LNext], s1, rest, last);
    run, s' := [LNext] + rest, last;
    if FaceOf(s'.ios, t).Gone? {
      Dispatched(c, s, run, s', t);
    } else {
      BackAgain(s, s1, s');
    }
  }

  // The first write of the worker's list has had its turn in vain.
  ghost predicate Back(s: State, s': State)
    requires s.sched.batch != []
  {
    var q, t := s.sched, s.sched.batch[0];
    && OnlyTurn(s, s', t) && AtRest(FaceOf(s'.ios, t))
    && s'.sched == q.(batch := q.batch[1..], pending := q.pending + [t])
  }

  lemma BackAgain(s: State, s1: State, s': State)
    requires HandsFree(s.sched) && s.sched.batch != [] && s1 == s.(sched := TakeNext(s.sched))
    requires Returned(s1, s', s.sched.batch[0])
    ensures Back(s, s')
  {
    hide FaceOf, Work;
    assert s1.sched.turns - {s.sched.batch[0]} == map[];
  }

  // The worker's whole list of writes has had its turn in vain.
  ghost predicate AllBack(s: State, s': State) {
    && s'.sched.batch == [] && HandsFree(s'.sched) && s'.sched.pass.Writes? && s'.sched.gcWrites == s.sched.gcWrites
    && Work(s'.ios) <= Work(s.ios) && s'.gc == s.gc
  }

  lemma {:induction false} DrainBatch(c: Config, s: State) returns (run: seq<Label>, s': State)
    requires Sound(c, s) && HandsFree(s.sched) && s.sched.pass.Writes?
    ensures Drive(c, s, run, s')
    ensures Waiting(s'.ios) < Waiting(s.ios) || AllBack(s, s')
    decreases |s.sched.batch|
  {
    hide Sound, WellFormed, Waiting, Work, FaceOf, SameFaces;
    if s.sched.batch == [] {
      run, s' := [], s;
      EmptyRun(c, s);
    } else {
      hide Run, Moving;
      var a, s1 := NextWrite(c, s);
      run, s' := a, s1;
      if !(Waiting(s1.ios) < Waiting(s.ios)) {
        DriveWaiting(c, s, a, s1);
        DriveSound(c, s, a, s1);
        var b, s2 := DrainBatch(c, s1);
        DriveOn(c, s, a, s1, b, s2);
        run, s' := a + b, s2;
      }
    }
  }

  // ------------------------------------------------------------------ a write that must get on

  // A write with its tree slot that either carries a GC task or finds enough space.
  ghost predicate Ripe(c: Config, s: State, h: nat) {
    && FaceOf(s.ios, h) == Face(User, Alloc({}))
    && (Carrier(s.ios, h) || s.allocable >= c.cap)
  }

  lemma RoomFor(c: Config, s: State, h: nat) returns (k: nat)
    requires Inv(c, s) && Ripe(c, s, h)
    ensures CanAlloc(s, h, k) && HasRoom(s, k) && !Refused(c, s, h)
  {
    hide Inv, WellFormed;
    InvShape(c, s);
    if Carrier(s.ios, h) {
      k := ReserveIsEnough(c, s, h);
    } else {
      SpaceIsSomewhere(c, s);
      ActiveSize(c, s);
      if s.empty != [] { k := 0; } else { k :| 0 <= k < |s.active| && s.active[k].Some?; }
    }
  }

  lemma RipeGoes(c: Config, s: State, h: nat) returns (l: Label)
    requires Sound(c, s) && Ripe(c, s, h) && h in s.sched.turns && s.sched.turns[h] == Going({})
    ensures WellFormed(c, s) && Enabled(c, s, l) && Moving(l) && FaceOf(Apply(c, s, l).ios, h).Gone?
  {
    hide Inv, WellFormed, TryAlloc, Placed;
    InvShape(c, s);
    var k := RoomFor(c, s, h);
    l := LTryAlloc(h, k);
    TryAllocShape(c, s, h, k);
  }

  /** A ripe write of the worker's list is dispatched, or another one before it. */
  lemma {:induction false} ServeBatch(c: Config, s: State, h: nat) returns (run: seq<Label>, s': State)
    requires Sound(c, s) && HandsFree(s.sched) && s.sched.pass.Writes? && h in s.sched.batch && Ripe(c, s, h)
    ensures Drive(c, s, run, s') && Waiting(s'.ios) < Waiting(s.ios)
    decreases |s.sched.batch|
  {
    if s.sched.batch[0] == h {
      run, s' := ServeHead(c, s, h);
    } else {
      hide Sound, WellFormed, Drive, Waiting, Work, FaceOf;
      var a, s1 := NextWrite(c, s);
      run, s' := a, s1;
      if !(Waiting(s1.ios) < Waiting(s.ios)) {
        DriveWaiting(c, s, a, s1);
        DriveSound(c, s, a, s1);
        var b, s2 := ServeBatch(c, s1, h);
        DriveOn(c, s, a, s1, b, s2);
        run, s' := a + b, s2;
      }
    }
  }

  lemma DriveSound(c: Config, s: State, run: seq<Label>, s': State)
    requires Drive(c, s, run, s')
    ensures Sound(c, s')
  {
    DriveIs(c, s, run, s');
  }

  lemma ServeHead(c: Config, s: State, h: nat) returns (run: seq<Label>, s': State)
    requires Sound(c, s) && HandsFree(s.sched) && s.sched.pass.Writes?
    requires s.sched.batch != [] && s.sched.batch[0] == h && Ripe(c, s, h)
    ensures Drive(c, s, run, s') && Waiting(s'.ios) < Waiting(s.ios)
  {
    hide Sound, WellFormed, Enabled, Apply, Drive, FaceOf, Waiting;
    var s1 := NextStep(c, s);
    var l := RipeGoes(c, s1, h);
    DriveOne(c, s1, l);
    DriveOn(c, s, [LNext], s1, [l], Apply(c, s1, l));
    run, s' := [LNext] + [l], Apply(c, s1, l);
    Dispatched(c, s, run, s', h);
  }

  // ------------------------------------------------------------------------ always some move

  // The worker rests, and everything idle lies in the queue of writes.
  predicate Rested(q: Sched) {
    q.pass.Resting? && q.batch == [] && q.gcWrites == [] && q.turns == map[]
  }

  /** Nothing moves by itself any more: what is left waits in the queue of writes, and the
      collector has walked through its victim. */
  ghost predicate Calm(s: State) {
    && Rested(s.sched)
    && (forall t <- s.ios :: Stage(s.ios[t]) == 0)
    && (s.gc.Some? ==> !s.gc.value.base)
  }

  // Operation t moves on its own.
  predicate Mobile(io: Io) {
    Stage(io) > 0 && !Idle(io) && (io.Task? ==> !io.st.Parked?)
  }

  lemma RemainingLess(c: Config, s: State, s': State)
    requires Work(s'.ios) <= Work(s.ios) && s'.gc == s.gc
    ensures Remaining(c, s') <= Remaining(c, s) && (Work(s'.ios) == Work(s.ios) ==> Remaining(c, s') == Remaining(c, s))
  {
    hide Work;
  }

  // The worker goes through all the writes that are pending.
  lemma WritesPass(c: Config, s: State) returns (run: seq<Label>, s': State)
    requires Sound(c, s) && HandsFree(s.sched) && s.sched.pass.Resting?
    ensures Drive(c, s, run, s') && Sound(c, s')
    ensures Waiting(s'.ios) < Waiting(s.ios) || AllBack(s, s')
  {
    hide Sound, Waiting, Drive, Work;
    var s1 := TakeWritesStep(c, s);
    var rest, last := DrainBatch(c, s1);
    DriveOn(c, s, [LTakeWrites], s1, rest, last);
    DriveSound(c, s1, rest, last);
    run, s' := [LTakeWrites] + rest, last;
  }

  // The GC queue is served: the worker first goes through the writes, then takes a GC task.
  lemma ServeCopies(c: Config, s: State) returns (run: seq<Label>, s': State)
    requires Sound(c, s) && s.sched.turns == map[] && s.sched.pass.Resting? && s.sched.gcWrites != []
    ensures Drive(c, s, run, s') && Better(c, s, s')
  {
    hide Sound, Waiting, Drive, Work, Remaining, Chores, HandsFree;
    NoTurnsFree(c, s);
    var a, s1 := WritesPass(c, s);
    run, s' := a, s1;
    if !(Waiting(s1.ios) < Waiting(s.ios)) {
      RemainingLess(c, s, s1);
      var b, s2 := FirstCopy(c, s1);
      DriveOn(c, s, a, s1, b, s2);
      run, s' := a + b, s2;
      DriveWaiting(c, s, run, s2);
    }
  }

  lemma GcHead(c: Config, s: State)
    requires Sound(c, s) && s.sched.gcWrites != []
    ensures PageRead(FaceOf(s.ios, s.sched.gcWrites[0]))
  {
    hide Inv, FaceOf;
    PlacedParts(c.streams, s.ios, s.sched);
  }

  lemma FirstCopy(c: Config, s: State) returns (run: seq<Label>, s': State)
    requires Sound(c, s) && HandsFree(s.sched) && s.sched.pass.Writes? && s.sched.batch == [] && s.sched.gcWrites != []
    ensures Drive(c, s, run, s') && Remaining(c, s') < Remaining(c, s)
  {
    hide Sound, Drive, Work, Enabled, Apply, FaceOf, Remaining;
    GcHead(c, s);
    var t := s.sched.gcWrites[0];
    var s1 := TakeCopiesStep(c, s);
    var s2 := NextStep(c, s1);
    DriveOn(c, s, [LTakeCopies], s1, [LNext], s2);
    var l := MoverWorks(c, s2, t);
    DriveOne(c, s2, l);
    run, s' := [LTakeCopies] + [LNext] + [l], Apply(c, s2, l);
    DriveOn(c, s, [LTakeCopies] + [LNext], s2, [l], s');
    RemainingLess(c, s, s2);
  }

  // At rest, every idle task lies in the queue of writes.
  lemma RestedFaces(c: Config, s: State)
    requires Sound(c, s) && Rested(s.sched)
    ensures forall t :: FaceOf(s.ios, t).Face? <==> t in s.sched.pending
    ensures forall t <- s.sched.pending :: AtRest(FaceOf(s.ios, t))
  {
    hide Inv, FaceOf, Apart;
    PlacedParts(c.streams, s.ios, s.sched);
    assert forall t :: FaceOf(s.ios, t).Face? ==> Somewhere(s.sched, t);
  }

  lemma RestedConflicts(c: Config, s: State, h: nat)
    requires Sound(c, s) && Rested(s.sched)
    ensures Count(s.ios, ConflictsOn(h)) == 0
  {
    hide Sound, FaceOf, Match;
    RestedFaces(c, s);
    forall t
      ensures t !in Holders(s.ios, ConflictsOn(h))
    {
      RestedNoConflict(s.ios, t, h);
    }
    assert Holders(s.ios, ConflictsOn(h)) == {};
  }

  lemma RestedNoConflict(ios: map<nat, Io>, t: nat, h: nat)
    requires FaceOf(ios, t).Gone? || AtRest(FaceOf(ios, t))
    ensures t in ios ==> !Match(ConflictsOn(h), ios[t])
  {
  }

  // A parked GC task's host waits in the queue of writes, with its tree slot.
  lemma HostRipe(c: Config, s: State, t: nat)
    requires Sound(c, s) && Rested(s.sched) && t in s.ios && s.ios[t].Task? && s.ios[t].st.Parked?
    requires forall u <- s.ios :: !Mobile(s.ios[u])
    ensures s.ios[t].st.parkedOn in s.sched.pending && Ripe(c, s, s.ios[t].st.parkedOn)
  {
    hide Inv, Placed, MapsInverse, LandedPages, Counts, Moves, Coverage, TriedStreams, InRange, Totals, Reserve,
         LifeCycle,
         TreeLinks, ConflictLinks, WellFormed, RefsExact;
    PartsMakeInv(c, s);
    var h := s.ios[t].st.parkedOn;
    assert !Mobile(s.ios[h]);
    TaskFacts(c, s, h);
    RestedFaces(c, s);
    RestedConflicts(c, s, h);
  }

  lemma ServeHost(c: Config, s: State, h: nat) returns (run: seq<Label>, s': State)
    requires Sound(c, s) && Rested(s.sched) && h in s.sched.pending && Ripe(c, s, h)
    ensures Drive(c, s, run, s') && Waiting(s'.ios) < Waiting(s.ios)
  {
    hide Sound, Waiting, Drive, FaceOf;
    NoTurnsFree(c, s);
    var s1 := TakeWritesStep(c, s);
    var a, s2 := ServeBatch(c, s1, h);
    DriveOn(c, s, [LTakeWrites], s1, a, s2);
    run, s' := [LTakeWrites] + a, s2;
  }

  // Somebody has a task in hand: that submission goes on.
  lemma HandWorks(c: Config, s: State, t: nat) returns (run: seq<Label>, s': State)
    requires Sound(c, s) && t in s.sched.turns
    ensures Drive(c, s, run, s') && Better(c, s, s')
  {
    hide Sound, Drive, Waiting, Work, FaceOf, Works, SameFaces, Carrier, EndTurn;
    HandFace(c, s, t);
    if FaceOf(s.ios, t).kind.Mover? {
      var l := MoverWorks(c, s, t);
      run, s' := WorksBetter(c, s, l);
    } else {
      run, s' := FinishTurn(c, s, t);
      if FaceOf(s'.ios, t).Gone? {
        Dispatched(c, s, run, s', t);
      } else {
        DriveWaiting(c, s, run, s');
        BackInQueue(c, s, s', t);
      }
    }
  }

  lemma BackInQueue(c: Config, s: State, s': State, t: nat)
    requires Returned(s, s', t) && t in s.sched.turns
    requires Waiting(s'.ios) <= Waiting(s.ios)
    ensures Better(c, s, s')
  {
    hide Waiting, Work, FaceOf, SameFaces, Carrier;
  }

  lemma HandFace(c: Config, s: State, t: nat)
    requires Sound(c, s) && t in s.sched.turns
    ensures FaceOf(s.ios, t).Face?
  {
    hide Inv, FaceOf, Apart, BatchOk, BusyOk;
    PlacedParts(c.streams, s.ios, s.sched);
    assert Somewhere(s.sched, t);
  }

  // Nobody has a task in hand: the worker goes on with its list, or to the next one.
  lemma WorkerWorks(c: Config, s: State) returns (run: seq<Label>, s': State)
    requires Sound(c, s) && s.sched.turns == map[] && (s.sched.batch != [] || !s.sched.pass.Resting?)
    ensures Drive(c, s, run, s') && Better(c, s, s')
  {
    hide Sound, Drive, Waiting, Work, Remaining, Chores;
    NoTurnsFree(c, s);
    WorkerChores(s.sched);
    if s.sched.batch != [] {
      var next := NextStep(c, s);
      run, s' := [LNext], next;
    } else if s.sched.pass.Writes? {
      var next := TakeCopiesStep(c, s);
      run, s' := [LTakeCopies], next;
    } else {
      var next := RestStep(c, s);
      run, s' := [LRest], next;
    }
    RemainingLess(c, s, s');
  }

  lemma WorkerChores(q: Sched)
    requires q.turns == map[]
    ensures q.batch != [] ==> Chores(TakeNext(q)) < Chores(q)
    ensures q.batch == [] && q.pass.Writes? ==> Chores(TakeCopies(q)) < Chores(q)
    ensures q.pass.Copies? ==> Chores(q.(pass := Resting)) < Chores(q)
  {
    if q.batch != [] { assert TakeNext(q).turns.Keys == {q.batch[0]}; }
  }

  /** As long as something is left that moves, some run brings the work down or dispatches a
      waiting write: there is no deadlock between writers, collector and workers. */
  lemma Advance(c: Config, s: State) returns (run: seq<Label>, s': State)
    requires Sound(c, s) && !Calm(s)
    ensures Drive(c, s, run, s') && Better(c, s, s')
  {
    hide Inv, Placed, WellFormed, Drive, Waiting, Work, Works, Better;
    if t :| t in s.ios && Mobile(s.ios[t]) {
      var l := DeviceWorks(c, s, t);
      run, s' := WorksBetter(c, s, l);
    } else if s.gc.Some? && s.gc.value.base {
      var l := ScanWorks(c, s);
      run, s' := WorksBetter(c, s, l);
    } else if t :| t in s.sched.turns {
      run, s' := HandWorks(c, s, t);
    } else if s.sched.batch != [] || !s.sched.pass.Resting? {
      run, s' := WorkerWorks(c, s);
    } else if s.sched.gcWrites != [] {
      run, s' := ServeCopies(c, s);
    } else {
      var t :| t in s.ios && Stage(s.ios[t]) > 0;
      StuckIsParked(c, s, t);
      HostRipe(c, s, t);
      run, s' := ServeHost(c, s, s.ios[t].st.parkedOn);
      BetterBy(c, s, s');
    }
  }

  lemma BetterBy(c: Config, s: State, s': State)
    requires Waiting(s'.ios) < Waiting(s.ios)
    ensures Better(c, s, s')
  {
  }

  lemma StuckIsParked(c: Config, s: State, t: nat)
    requires Sound(c, s) && Rested(s.sched) && t in s.ios && Stage(s.ios[t]) > 0 && !Mobile(s.ios[t])
    ensures s.ios[t].Task? && s.ios[t].st.Parked?
  {
    hide Sound;
    RestedFaces(c, s);
    assert Idle(s.ios[t]) ==> AtRest(FaceOf(s.ios, t));
  }

  // ------------------------------------------------------------------- the collection ends

  // Steps that bring in nothing from outside: no new write, no new read, no discard.
  predicate Inward(l: Label) {
    !l.LSubmit? && !l.LLookup? && !l.LDiscard?
  }

  ghost predicate Leads(c: Config, s: State, run: seq<Label>, s': State) {
    forall seal: Seal :: Led(seal, c, s, run, s')
  }

  ghost predicate Led(seal: Seal, c: Config, s: State, run: seq<Label>, s': State) {
    && Run(c, s, run) == Some(s') && Sound(c, s')
    && forall i :: 0 <= i < |run| ==> Inward(run[i])
  }

  lemma LeadsIs(c: Config, s: State, run: seq<Label>, s': State)
    ensures Leads(c, s, run, s') <==>
              Run(c, s, run) == Some(s') && Sound(c, s') && forall i :: 0 <= i < |run| ==> Inward(run[i])
  {
    hide Run, Sound, Inward;
    assert Leads(c, s, run, s') ==> Led(Seal, c, s, run, s');
  }

  lemma LeadsOn(c: Config, s: State, a: seq<Label>, s1: State, b: seq<Label>, s2: State)
    requires Leads(c, s, a, s1) && Leads(c, s1, b, s2)
    ensures Leads(c, s, a + b, s2)
  {
    hide Sound, Inward, Run;
    LeadsIs(c, s, a, s1);
    LeadsIs(c, s1, b, s2);
    LeadsIs(c, s, a + b, s2);
    RunConcat(c, s, a, s1, b);
  }

  lemma LeadsOne(c: Config, s: State, l: Label)
    requires Sound(c, s) && WellFormed(c, s) && Enabled(c, s, l) && Inward(l)
    ensures Leads(c, s, [l], Apply(c, s, l))
  {
    hide Sound, WellFormed, Enabled, Apply, Inward;
    OneStep(c, s, l);
    StepKeepsSound(c, s, l);
  }

  lemma DriveLeads(c: Config, s: State, run: seq<Label>, s': State)
    requires Drive(c, s, run, s')
    ensures Leads(c, s, run, s') && Sound(c, s')
  {
    hide Sound, Run;
    DriveIs(c, s, run, s');
  }

  // The run ends with the reset of a victim, and chooses and resets none before.
  predicate OneCollection(run: seq<Label>) {
    |run| > 0 && run[|run| - 1].LReset? && forall i :: 0 <= i < |run| - 1 ==> Moving(run[i])
  }

  // Nothing holds the victim any more: the zone worker resets it.
  lemma ResetLast(c: Config, s: State) returns (l: Label)
    requires Sound(c, s) && Calm(s) && s.gc.Some?
    ensures WellFormed(c, s) && Enabled(c, s, l) && Inward(l) && l.LReset?
    ensures Apply(c, s, l).gc.None? && Apply(c, s, l).allocable >= c.cap
            && Waiting(Apply(c, s, l).ios) == Waiting(s.ios)
  {
    hide Inv, Placed, WellFormed;
    InvShape(c, s);
    var v := s.gc.value.zone;
    ScanFacts(c, s);
    ZoneFacts(c, s, v);
    SpaceIsNatural(c, s);
    MoverStages(c, s);
    assert Holders(s.ios, MovesFrom(v)) == {};
    assert Holders(s.ios, ReadsFrom(v)) == {};
    assert Holders(s.ios, WritesTo(v)) == {};
    l := LReset(v);
  }

  lemma MoverStages(c: Config, s: State)
    requires Inv(c, s)
    ensures forall t <- s.ios :: IsMove(s.ios[t]) ==> Stage(s.ios[t]) > 0
  {
    hide Inv;
    forall t | t in s.ios && IsMove(s.ios[t])
      ensures Stage(s.ios[t]) > 0
    {
      TaskFacts(c, s, t);
    }
  }

  lemma SpaceIsNatural(c: Config, s: State)
    requires Inv(c, s) && s.gc.Some?
    ensures s.allocable >= 0
  {
    hide Inv, MapsInverse, LandedPages, LifeCycle, Counts, RefsExact, Tasks, Moves, Coverage, TriedStreams, InRange,
         Totals, WellFormed;
    PartsMakeInv(c, s);
  }

  /** From every state with a victim under collection, steps of what is already in flight lead to
      its reset, with a whole zone's blocks allocable: no wait in the collector's protocol is for
      anything but such steps. */
  lemma {:induction false} GcCanComplete(c: Config, s: State) returns (run: seq<Label>, s': State)
    requires Sound(c, s) && s.gc.Some?
    ensures Leads(c, s, run, s') && Sound(c, s') && OneCollection(run)
    ensures s'.gc.None? && s'.allocable >= c.cap && Waiting(s'.ios) <= Waiting(s.ios)
    decreases Waiting(s.ios), Remaining(c, s), Chores(s.sched)
  {
    hide Sound, WellFormed, Enabled, Apply, Calm, Drive, Leads, Waiting, Remaining, Chores, Inward;
    if Calm(s) {
      var l := ResetLast(c, s);
      LeadsOne(c, s, l);
      StepKeepsSound(c, s, l);
      run, s' := [l], Apply(c, s, l);
    } else {
      var a, s1 := Advance(c, s);
      DriveGc(c, s, a, s1);
      DriveWaiting(c, s, a, s1);
      DriveLeads(c, s, a, s1);
      var b, s2 := GcCanComplete(c, s1);
      LeadsOn(c, s, a, s1, b, s2);
      run, s' := a + b, s2;
      CollectionOn(c, s, a, s1, b);
    }
  }

  lemma CollectionOn(c: Config, s: State, a: seq<Label>, s1: State, b: seq<Label>)
    requires Drive(c, s, a, s1) && OneCollection(b)
    ensures OneCollection(a + b)
  {
    hide Run, Sound;
    DriveIs(c, s, a, s1);
  }

  /** In every reachable state: a collection under way can always be driven to its reset by what
      is already in flight, after which no writer is refused. */
  lemma CollectionCanEnd(c: Config, s: State) returns (run: seq<Label>, s': State)
    requires Reachable(c, s) && s.gc.Some?
    ensures Run(c, s, run) == Some(s') && OneCollection(run)
    ensures s'.gc.None? && s'.allocable >= c.cap
  {
    hide Sound, Reachable, Run, Waiting;
    ReachableSound(c, s);
    run, s' := GcCanComplete(c, s);
    LeadsIs(c, s, run, s');
  }

  // ----------------------------------------------------------------------- the device drains

  /** Without a collection, everything but the pending writes comes to its end. */
  lemma {:induction false} CanSettle(c: Config, s: State) returns (run: seq<Label>, s': State)
    requires Sound(c, s) && s.gc.None?
    ensures Drive(c, s, run, s') && Calm(s') && s'.gc.None?
    ensures Waiting(s'.ios) < Waiting(s.ios) || (Waiting(s'.ios) == Waiting(s.ios) && s'.allocable == s.allocable)
    decreases Waiting(s.ios), Remaining(c, s), Chores(s.sched)
  {
    if Calm(s) {
      run, s' := [], s;
      EmptyRun(c, s);
    } else {
      hide Sound, WellFormed, Calm, Drive, Waiting, Remaining, Chores;
      var a, s1 := Advance(c, s);
      DriveGc(c, s, a, s1);
      DriveSound(c, s, a, s1);
      var b, s2 := CanSettle(c, s1);
      DriveOn(c, s, a, s1, b, s2);
      run, s' := a + b, s2;
      DriveWaiting(c, s, run, s2);
      DriveSpace(c, s, run, s2);
    }
  }

  // Zones written out and not yet closed.
  ghost function Limbo(zones: seq<Zone>): set<nat> {
    set z: nat | z < |zones| && zones[z].phase.ToFull?
  }

  lemma CalmZone(c: Config, s: State, z: nat)
    requires Inv(c, s) && z < |s.zones| && forall t <- s.ios :: Stage(s.ios[t]) == 0
    ensures s.zones[z].pending == 0 && (s.zones[z].phase.ToFull? ==> CanClose(s, z))
  {
    hide Inv;
    ZoneFacts(c, s, z);
    assert Holders(s.ios, WritesTo(z)) == {};
  }

  lemma CloseOne(c: Config, s: State, z: nat) returns (s': State)
    requires Sound(c, s) && CanClose(s, z)
    ensures Leads(c, s, [LClose(z)], s') && Sound(c, s')
    ensures s'.ios == s.ios && s'.sched == s.sched && s'.gc == s.gc && s'.allocable == s.allocable
    ensures |s'.zones| == |s.zones| && Limbo(s'.zones) == Limbo(s.zones) - {z}
  {
    hide Sound, WellFormed, Leads;
    SoundShape(c, s);
    s' := Apply(c, s, LClose(z));
    LeadsOne(c, s, LClose(z));
    StepKeepsSound(c, s, LClose(z));
  }

  /** The zone worker closes what is written out. */
  lemma {:induction false} CanCloseAll(c: Config, s: State) returns (run: seq<Label>, s': State)
    requires Sound(c, s) && Calm(s) && s.gc.None?
    ensures Leads(c, s, run, s') && Sound(c, s') && Settled(s')
    ensures s'.ios == s.ios && s'.sched == s.sched && s'.allocable == s.allocable
    decreases Limbo(s.zones)
  {
    if Limbo(s.zones) == {} {
      run, s' := [], s;
      EmptyRun(c, s);
      AllSettled(c, s);
    } else {
      hide Inv, Placed, Leads, Settled;
      var z :| z in Limbo(s.zones);
      CalmZone(c, s, z);
      var s1 := CloseOne(c, s, z);
      var rest, last := CanCloseAll(c, s1);
      LeadsOn(c, s, [LClose(z)], s1, rest, last);
      run, s' := [LClose(z)] + rest, last;
    }
  }

  lemma AllSettled(c: Config, s: State)
    requires Sound(c, s) && Calm(s) && s.gc.None? && Limbo(s.zones) == {}
    ensures Settled(s)
  {
    hide Inv, Placed;
    forall z | 0 <= z < |s.zones|
      ensures s.zones[z].pending == 0 && !s.zones[z].phase.ToFull?
    {
      CalmZone(c, s, z);
      assert z !in Limbo(s.zones);
    }
  }

  /** Space is made: a settled device short of space has a victim, and its collection can end. */
  lemma CanMakeSpace(c: Config, s: State) returns (run: seq<Label>, s': State)
    requires Sound(c, s) && Calm(s) && s.gc.None? && s.allocable < c.cap
    requires c.blocks < (c.zones - c.streams) * c.cap
    ensures Leads(c, s, run, s') && Sound(c, s')
    ensures s'.gc.None? && s'.allocable >= c.cap && Waiting(s'.ios) <= Waiting(s.ios)
  {
    hide Inv, Placed, Calm, Leads, Settled, Waiting, WellFormed, Enabled, Apply;
    var a, s1 := CanCloseAll(c, s);
    var z := RefusedHasVictim(c, s1);
    LeadsOne(c, s1, LSelect(z));
    StepKeepsSound(c, s1, LSelect(z));
    SelectStarts(c, s1, z);
    var s2 := Apply(c, s1, LSelect(z));
    LeadsOn(c, s, a, s1, [LSelect(z)], s2);
    var b, s3 := GcCanComplete(c, s2);
    LeadsOn(c, s, a + [LSelect(z)], s2, b, s3);
    run, s' := a + [LSelect(z)] + b, s3;
  }

  lemma SelectStarts(c: Config, s: State, z: nat)
    requires WellFormed(c, s) && Enabled(c, s, LSelect(z))
    ensures Apply(c, s, LSelect(z)).gc.Some? && Apply(c, s, LSelect(z)).ios == s.ios
  {
    hide WellFormed;
  }

  /** In a settled state that refuses user writes, choosing one victim and completing that one
      collection makes room again. */
  lemma OneCycleAdmits(c: Config, s: State) returns (run: seq<Label>, s': State)
    requires Reachable(c, s) && Settled(s) && s.allocable < c.cap
    requires c.blocks < (c.zones - c.streams) * c.cap
    ensures |run| > 0 && run[0].LSelect? && OneCollection(run[1..])
    ensures Run(c, s, run) == Some(s') && s'.allocable >= c.cap
  {
    hide Sound, WellFormed, Enabled, Apply, Reachable, Settled, Waiting, OneCollection;
    ReachableSound(c, s);
    SoundInv(c, s);
    var z := RefusedHasVictim(c, s);
    StepKeepsSound(c, s, LSelect(z));
    SelectStarts(c, s, z);
    var next := Apply(c, s, LSelect(z));
    var rest, last := GcCanComplete(c, next);
    LeadsIs(c, next, rest, last);
    run, s' := [LSelect(z)] + rest, last;
    assert run[1..] == rest;
  }

  // With enough space and nothing else going on, one of the pending writes can be dispatched.
  lemma CanDispatch(c: Config, s: State) returns (run: seq<Label>, s': State)
    requires Sound(c, s) && Calm(s) && s.gc.None? && s.allocable >= c.cap && Waiting(s.ios) != {}
    ensures Drive(c, s, run, s') && Waiting(s'.ios) < Waiting(s.ios)
  {
    hide Sound, Drive, Waiting, WellFormed;
    if h :| h in s.sched.pending && FaceOf(s.ios, h) == Face(User, Alloc({})) {
      run, s' := ServeHost(c, s, h);
    } else {
      run, s' := DispatchFirst(c, s);
    }
  }

  lemma NoSlots(c: Config, s: State)
    requires Sound(c, s) && Calm(s)
    requires forall h <- s.sched.pending :: FaceOf(s.ios, h) != Face(User, Alloc({}))
    ensures s.tree == map[]
    ensures Waiting(s.ios) != {} ==> s.sched.pending != [] && FaceOf(s.ios, s.sched.pending[0]) == Face(User, Init)
  {
    hide Inv, Placed;
    RestedFaces(c, s);
    InTreeIdle(c, s);
    assert forall b :: b !in s.tree;
  }

  lemma InTreeIdle(c: Config, s: State)
    requires Inv(c, s) && forall t <- s.ios :: Stage(s.ios[t]) == 0
    ensures forall b <- s.tree :: FaceOf(s.ios, s.tree[b]).Face? && FaceOf(s.ios, s.tree[b]).st.Alloc?
  {
    hide Inv, MapsInverse, LandedPages, LifeCycle, Counts, RefsExact, Moves, Coverage, TriedStreams, InRange, Totals,
         Reserve, WellFormed, ConflictLinks, ParkLinks;
    PartsMakeInv(c, s);
  }

  lemma DispatchFirst(c: Config, s: State) returns (run: seq<Label>, s': State)
    requires Sound(c, s) && Calm(s) && s.gc.None? && s.allocable >= c.cap && Waiting(s.ios) != {}
    requires forall h <- s.sched.pending :: FaceOf(s.ios, h) != Face(User, Alloc({}))
    ensures Drive(c, s, run, s') && Waiting(s'.ios) < Waiting(s.ios)
  {
    hide Sound, Drive, Waiting, WellFormed, Enabled, Apply, FaceOf;
    NoSlots(c, s);
    NoTurnsFree(c, s);
    var h := s.sched.pending[0];
    var s1 := TakeWritesStep(c, s);
    var s2 := NextStep(c, s1);
    DriveOn(c, s, [LTakeWrites], s1, [LNext], s2);
    var s3 := InsertFirst(c, s2, h);
    DriveOn(c, s, [LTakeWrites] + [LNext], s2, [LInsert(h)], s3);
    var l := RipeGoes(c, s3, h);
    DriveOne(c, s3, l);
    run, s' := [LTakeWrites] + [LNext] + [LInsert(h)] + [l], Apply(c, s3, l);
    DriveOn(c, s, [LTakeWrites] + [LNext] + [LInsert(h)], s3, [l], s');
    Dispatched(c, s, run, s', h);
  }

  lemma InsertFirst(c: Config, s: State, h: nat) returns (s': State)
    requires Sound(c, s) && FaceOf(s.ios, h) == Face(User, Init) && s.tree == map[]
    requires h in s.sched.turns && s.sched.turns[h] == Going({}) && s.allocable >= c.cap
    ensures Drive(c, s, [LInsert(h)], s') && Sound(c, s')
    ensures s'.sched == s.sched && Ripe(c, s', h)
  {
    hide Sound, WellFormed, Drive;
    SoundShape(c, s);
    s' := Apply(c, s, LInsert(h));
    DriveOne(c, s, LInsert(h));
    StepKeepsSound(c, s, LInsert(h));
  }

  // The condition on which the driver's removal waits.
  predicate Drained(s: State) {
    s.userInflight == 0 && s.gcInflight == 0 && s.readInflight == 0
  }

  lemma CalmIsDrained(c: Config, s: State)
    requires Sound(c, s) && Calm(s) && Waiting(s.ios) == {}
    ensures Drained(s)
  {
    hide Inv, Placed, MapsInverse, LandedPages, LifeCycle, Counts, RefsExact, Moves, Coverage, TriedStreams, InRange,
         Reserve, WellFormed, TreeLinks, ConflictLinks, ParkLinks;
    PartsMakeInv(c, s);
    NoneLive(c, s);
  }

  lemma NoneLive(c: Config, s: State)
    requires Tasks(s.ios, s.tree) && (forall t <- s.ios :: Stage(s.ios[t]) == 0) && Waiting(s.ios) == {}
    ensures Count(s.ios, LiveUser) == 0 && Count(s.ios, LiveMove) == 0 && Count(s.ios, LiveRead) == 0
  {
    hide TreeLinks, ConflictLinks, ParkLinks;
    assert forall t <- s.ios :: t !in Waiting(s.ios);
    assert Holders(s.ios, LiveUser) == {};
    assert Holders(s.ios, LiveMove) == {};
    assert Holders(s.ios, LiveRead) == {};
  }

  /** Without a collection under way, one round: settle, make space if it is short, and dispatch a
      pending write; or there is none left. */
  lemma Round(c: Config, s: State) returns (run: seq<Label>, s': State)
    requires Sound(c, s) && s.gc.None? && c.blocks < (c.zones - c.streams) * c.cap
    ensures Leads(c, s, run, s') && Sound(c, s')
    ensures Waiting(s'.ios) < Waiting(s.ios) || Drained(s')
            || (Waiting(s'.ios) <= Waiting(s.ios) && s'.gc.None? && s'.allocable >= c.cap > s.allocable)
  {
    hide Sound, Calm, Drive, Leads, Waiting, Drained;
    var a, s1 := CanSettle(c, s);
    DriveLeads(c, s, a, s1);
    run, s' := a, s1;
    if !(Waiting(s1.ios) < Waiting(s.ios)) {
      if Waiting(s1.ios) == {} {
        CalmIsDrained(c, s1);
      } else if s1.allocable < c.cap {
        var b, s2 := CanMakeSpace(c, s1);
        LeadsOn(c, s, a, s1, b, s2);
        run, s' := a + b, s2;
      } else {
        var b, s2 := CanDispatch(c, s1);
        DriveLeads(c, s1, b, s2);
        LeadsOn(c, s, a, s1, b, s2);
        run, s' := a + b, s2;
      }
    }
  }

  /** Everything in flight can be brought to its end. */
  lemma {:induction false} CanDrain(c: Config, s: State) returns (run: seq<Label>, s': State)
    requires Sound(c, s) && c.blocks < (c.zones - c.streams) * c.cap
    ensures Leads(c, s, run, s') && Sound(c, s') && Drained(s')
    decreases Waiting(s.ios), s.gc.Some?, s.allocable < c.cap
  {
    hide Sound, Leads, Waiting, Drained;
    var a, s1;
    if s.gc.Some? { a, s1 := GcCanComplete(c, s); } else { a, s1 := Round(c, s); }
    run, s' := a, s1;
    if !Drained(s1) {
      var b, s2 := CanDrain(c, s1);
      LeadsOn(c, s, a, s1, b, s2);
      run, s' := a + b, s2;
    }
  }

  /** The wait of the driver's removal is never in vain: from every reachable state, steps that
      bring in nothing from outside lead to zero operations in flight and empty queues. */
  lemma DeviceCanDrain(c: Config, s: State) returns (run: seq<Label>, s': State)
    requires Reachable(c, s) && c.blocks < (c.zones - c.streams) * c.cap
    ensures Run(c, s, run) == Some(s')
    ensures forall i :: 0 <= i < |run| ==> !run[i].LSubmit? && !run[i].LLookup? && !run[i].LDiscard?
    ensures Drained(s') && s'.sched.pending == [] && s'.sched.gcWrites == []
  {
    hide Sound, Reachable, Run;
    ReachableSound(c, s);
    run, s' := CanDrain(c, s);
    LeadsIs(c, s, run, s');
    EmptyQueues(c, s');
  }

  // ------------------------------------------------------------------ every writer gets on

  // The first state of the run in which a waiting write is on the device.
  lemma {:induction false} FirstDispatch(c: Config, s: State, run: seq<Label>, t: nat) returns (n: nat, s': State)
    requires Inv(c, s) && t in Waiting(s.ios) && Run(c, s, run).Some? && t !in Waiting(Run(c, s, run).value.ios)
    requires forall i :: 0 <= i < |run| ==> Inward(run[i])
    ensures n <= |run| && Run(c, s, run[..n]) == Some(s')
    ensures t in s'.ios && IsUser(s'.ios[t]) && s'.ios[t].st.Writing?
    decreases |run|
  {
    hide Inv, WellFormed, Enabled, Apply, Waiting;
    var next := Apply(c, s, run[0]);
    StepWaiting(c, s, run[0]);
    StepKeepsInv(c, s, run[0]);
    if t in Waiting(next.ios) {
      var m;
      m, s' := FirstDispatch(c, next, run[1..], t);
      n := m + 1;
      assert run[..n][1..] == run[1..][..m];
    } else {
      n, s' := 1, next;
      assert run[..1][1..] == [];
    }
  }

  /** In every reachable state, whatever the shortage of space and whatever is under way, each
      write that waits for its dispatch can be brought to the device by steps that bring in
      nothing from outside. */
  lemma WriterCanProceed(c: Config, s: State, t: nat) returns (run: seq<Label>, s': State)
    requires Reachable(c, s) && c.blocks < (c.zones - c.streams) * c.cap
    requires t in s.ios && IsUser(s.ios[t]) && (s.ios[t].st.Init? || s.ios[t].st.Conflict? || s.ios[t].st.Alloc?)
    ensures Run(c, s, run) == Some(s')
    ensures forall i :: 0 <= i < |run| ==> !run[i].LSubmit? && !run[i].LLookup? && !run[i].LDiscard?
    ensures t in s'.ios && IsUser(s'.ios[t]) && s'.ios[t].st.Writing?
  {
    hide Sound, Reachable, Run, Drained, Waiting;
    ReachableSound(c, s);
    var all, last := CanDrain(c, s);
    LeadsIs(c, s, all, last);
    NoWaiting(c, last);
    IsWaiting(s.ios, t);
    SoundInv(c, s);
    var n, mid := FirstDispatch(c, s, all, t);
    run, s' := all[..n], mid;
  }

  lemma IsWaiting(ios: map<nat, Io>, t: nat)
    requires t in ios && IsUser(ios[t]) && (ios[t].st.Init? || ios[t].st.Conflict? || ios[t].st.Alloc?)
    ensures t in Waiting(ios)
  {
  }

  lemma NoWaiting(c: Config, s: State)
    requires Sound(c, s) && Drained(s)
    ensures Waiting(s.ios) == {}
  {
    hide Inv, Placed, MapsInverse, LandedPages, LifeCycle, Counts, RefsExact, Moves, Coverage, TriedStreams, InRange,
         Reserve, WellFormed, TreeLinks, ConflictLinks, ParkLinks;
    PartsMakeInv(c, s);
    CountZero(s.ios, LiveUser);
    assert forall t <- Waiting(s.ios) :: Match(LiveUser, s.ios[t]);
  }
}
