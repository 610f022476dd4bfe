/**
 * Why a victim chosen between the two halves of a reset must be affordable.  If it holds more valid
 * blocks than can be allocated, the collector's walk, the retry worker and writers that come in
 * meanwhile lead to a GC-flagged attempt for which no stream has room.
 */
module Starvation {
  import opened Machine
  import opened Counting
  import opened Invariant
  import opened Frames
  import opened CollectorSteps
  import opened ZoneSteps
  import opened TreeSteps
  import opened Runs
  import opened Guarantees
  import opened Placement
  import opened Effort
  import opened ResetHalves
  import opened Owing
  import opened EarlyReset
  import Liveness

  /** A state after the choice, before the credit of zone z: sound once credited, with user writes
      refused, and with more owed to GC tasks than can be allocated. */
  ghost predicate Shaky(c: Config, s: State, z: nat) {
    forall seal: Seal :: Shaking(seal, c, s, z)
  }

  ghost predicate Shaking(seal: Seal, c: Config, s: State, z: nat) {
    && z < c.zones && NoneTried(s.ios) && Sound(c, Credited(c, s, z))
    && s.gc.Some? && s.allocable < c.cap && |Todo(s.ios)| + Unseen(s) > s.allocable
  }

  lemma ShakyIs(c: Config, s: State, z: nat)
    ensures Shaky(c, s, z) <==>
              && z < c.zones && NoneTried(s.ios) && Sound(c, Credited(c, s, z))
              && s.gc.Some? && s.allocable < c.cap && |Todo(s.ios)| + Unseen(s) > s.allocable
  {
    hide NoneTried, Sound, Credited, Todo, Unseen;
    assert Shaky(c, s, z) ==> Shaking(Seal, c, s, z);
  }

  // Steps that are neither the worker's nor the choice of a victim.
  predicate Inner(l: Label) {
    !l.LReset? && !l.LClose? && !l.LSelect?
  }

  /** The run leads from s to another shaky state by inner steps. */
  ghost predicate Drift(c: Config, z: nat, s: State, run: seq<Label>, s': State) {
    forall seal: Seal :: Drifting(seal, c, z, s, run, s')
  }

  ghost predicate Drifting(seal: Seal, c: Config, z: nat, s: State, run: seq<Label>, s': State) {
    && Run(c, s, run) == Some(s') && Shaky(c, s', z)
    && forall i :: 0 <= i < |run| ==> Inner(run[i])
  }

  lemma DriftIs(c: Config, z: nat, s: State, run: seq<Label>, s': State)
    ensures Drift(c, z, s, run, s') <==>
              Run(c, s, run) == Some(s') && Shaky(c, s', z) && forall i :: 0 <= i < |run| ==> Inner(run[i])
  {
    hide Run, Shaky, Inner;
    assert Drift(c, z, s, run, s') ==> Drifting(Seal, c, z, s, run, s');
  }

  lemma DriftNone(c: Config, z: nat, s: State)
    requires Shaky(c, s, z)
    ensures Drift(c, z, s, [], s)
  {
    hide Shaky;
    EmptyRun(c, s);
  }

  lemma DriftOne(c: Config, z: nat, s: State, l: Label)
    requires WellFormed(c, s) && Enabled(c, s, l) && Inner(l) && Shaky(c, Apply(c, s, l), z)
    ensures Drift(c, z, s, [l], Apply(c, s, l))
  {
    hide Shaky, WellFormed, Enabled, Apply, Inner;
    OneStep(c, s, l);
  }

  lemma DriftOn(c: Config, z: nat, s: State, a: seq<Label>, s1: State, b: seq<Label>, s2: State)
    requires Drift(c, z, s, a, s1) && Drift(c, z, s1, b, s2)
    ensures Drift(c, z, s, a + b, s2)
  {
    hide Shaky, Inner, Run;
    DriftIs(c, z, s, a, s1);
    DriftIs(c, z, s1, b, s2);
    DriftIs(c, z, s, a + b, s2);
    RunConcat(c, s, a, s1, b);
  }

  lemma ShakyShape(c: Config, s: State, z: nat)
    requires Shaky(c, s, z)
    ensures WellFormed(c, s) && c.Valid() && |s.zones| == c.zones && |s.active| == c.streams
    ensures NoneTried(s.ios) && z < c.zones
    ensures Inv(c, Credited(c, s, z)) && Placed(c.streams, s.ios, s.sched) && Credited(c, s, z) == Whole(c, s, z)
  {
    hide Inv, WellFormed, Placed;
    ShakyIs(c, s, z);
    ForgiveNothing(s.ios);
    WholeCredited(c, s, z);
    InvShape(c, Credited(c, s, z));
    WholeShape(c, s, z);
    ActiveSize(c, s);
  }

  // --------------------------------------------------------------------------------- its steps

  // Given at once or later, the credit makes no difference to a step that is no attempt.
  lemma CreditedApply(c: Config, s: State, z: nat, l: Label)
    requires WellFormed(c, s) && NoneTried(s.ios) && Enabled(c, s, l) && !l.LTryAlloc? && !l.LReset? && z < c.zones
    ensures NoneTried(Apply(c, s, l).ios) && Apply(c, s, l).allocable == s.allocable
    ensures var w := Credited(c, s, z);
            WellFormed(c, w) && Enabled(c, w, l) && Apply(c, w, l) == Credited(c, Apply(c, s, l), z)
  {
    hide WellFormed, Enabled, Effect, Queues, Whole, Credited, NoneTried;
    StillNoneTried(c, s, l);
    SameStreams(c, s, l);
    Commute(c, s, z, l);
    ForgiveNothing(s.ios);
    WholeCredited(c, s, z);
    ForgiveNothing(Apply(c, s, l).ios);
    WholeCredited(c, Apply(c, s, l), z);
  }

  lemma StillNoneTried(c: Config, s: State, l: Label)
    requires WellFormed(c, s) && NoneTried(s.ios) && Enabled(c, s, l) && !l.LTryAlloc? && !l.LReset?
    ensures NoneTried(Apply(c, s, l).ios)
  {
    hide WellFormed, Enabled, Effect;
    StepTriedFrom(c, s, l);
  }

  lemma GcStays(c: Config, s: State, l: Label)
    requires WellFormed(c, s) && Enabled(c, s, l) && Inner(l) && s.gc.Some?
    ensures Apply(c, s, l).gc.Some?
  {
    hide WellFormed, Release, TryAlloc;
    if l.LTryAlloc? { AttemptScan(c, s, l.t, l.stream); }
  }

  // A step that leaves as much owed.
  lemma GentleStep(c: Config, s: State, z: nat, l: Label)
    requires Shaky(c, s, z) && WellFormed(c, s) && Enabled(c, s, l) && Inner(l) && !l.LTryAlloc?
    requires |Todo(Apply(c, s, l).ios)| + Unseen(Apply(c, s, l)) >= |Todo(s.ios)| + Unseen(s)
    ensures Shaky(c, Apply(c, s, l), z) && Drift(c, z, s, [l], Apply(c, s, l))
  {
    hide WellFormed, Enabled, Apply, Sound, Credited, NoneTried, Todo, Unseen;
    ShakyIs(c, s, z);
    CreditedApply(c, s, z, l);
    StepKeepsSound(c, Credited(c, s, z), l);
    GcStays(c, s, l);
    DriftOne(c, z, s, l);
  }

  predicate Unowed(ios: map<nat, Io>, t: nat) {
    t in ios && IsUser(ios[t]) && ios[t].pendingGc.None?
  }

  // An attempt of a user write that is owed nothing, refused or without room, only moves its turn on.
  lemma RefusedSound(c: Config, s: State, z: nat, t: nat, k: nat)
    requires WellFormed(c, s) && z < c.zones && Sound(c, Credited(c, s, z)) && CanAlloc(s, t, k) && InTurn(s.sched, t)
    requires Enabled(c, s, LTryAlloc(t, k)) && Unowed(s.ios, t) && (s.allocable < c.cap || !HasRoom(s, k))
    ensures Apply(c, s, LTryAlloc(t, k)) == s.(sched := AfterAttempt(c.streams, s.sched, t, k, false))
    ensures Sound(c, Credited(c, Apply(c, s, LTryAlloc(t, k)), z))
  {
    hide WellFormed, Inv;
    PlacedParts(c.streams, s.ios, s.sched);
    var q := AfterAttempt(c.streams, s.sched, t, k, false);
    RefusedQueues(c, s, t, k);
    QueuesApart(c, Credited(c, s, z), q);
    assert Credited(c, s.(sched := q), z) == Credited(c, s, z).(sched := q);
    assert TurnOk(c.streams, FaceOf(s.ios, t), s.sched.turns[t]);
    var turn := q.turns[t];
    assert TurnOk(c.streams, FaceOf(s.ios, t), turn);
    assert q == s.sched.(turns := s.sched.turns[t := turn]);
    hide Placed;
    PlacedTurn(c.streams, s.ios, s.ios, s.sched, t, turn);
  }

  lemma RefusedQueues(c: Config, s: State, t: nat, k: nat)
    requires WellFormed(c, s) && CanAlloc(s, t, k) && InTurn(s.sched, t) && Enabled(c, s, LTryAlloc(t, k))
    requires Unowed(s.ios, t) && (s.allocable < c.cap || !HasRoom(s, k))
    ensures Apply(c, s, LTryAlloc(t, k)) == s.(sched := AfterAttempt(c.streams, s.sched, t, k, false))
  {
    hide WellFormed;
  }

  lemma RefusedStep(c: Config, s: State, z: nat, t: nat, k: nat)
    requires Shaky(c, s, z) && WellFormed(c, s) && CanAlloc(s, t, k) && InTurn(s.sched, t)
    requires Enabled(c, s, LTryAlloc(t, k)) && Unowed(s.ios, t)
    ensures Apply(c, s, LTryAlloc(t, k)) == s.(sched := AfterAttempt(c.streams, s.sched, t, k, false))
    ensures Drift(c, z, s, [LTryAlloc(t, k)], Apply(c, s, LTryAlloc(t, k)))
  {
    hide WellFormed, Sound, Todo, Unseen, Enabled, Apply, Credited;
    ShakyIs(c, s, z);
    RefusedSound(c, s, z, t, k);
    SchedUnseen(s, Apply(c, s, LTryAlloc(t, k)).sched);
    DriftOne(c, z, s, LTryAlloc(t, k));
  }

  // ------------------------------------------------------------------------------- the walk

  // GC tasks have got no further than having their page read, and nobody carries one.
  ghost predicate Early(ios: map<nat, Io>) {
    forall t <- ios :: ios[t].Task? ==>
      ios[t].pendingGc.None? && (IsMove(ios[t]) ==> ios[t].st.Reading? || ios[t].st.ReadDone?)
  }

  // Nobody has a GC task in hand, and the worker has none on its list.
  ghost predicate HandsOfUsers(ios: map<nat, Io>, q: Sched) {
    && (forall t <- q.turns :: FaceOf(ios, t).Face? && FaceOf(ios, t).kind.User?)
    && (forall t <- q.batch :: FaceOf(ios, t).Face? && FaceOf(ios, t).kind.User?)
  }

  ghost predicate Fresh(c: Config, s: State, z: nat) {
    Shaky(c, s, z) && Early(s.ios) && HandsOfUsers(s.ios, s.sched)
  }

  lemma ScanIn(c: Config, s: State, z: nat)
    requires Shaky(c, s, z)
    ensures s.gc.Some? && s.gc.value.zone < |s.zones|
    ensures CanVisit(c, s) ==> s.gc.value.base
    ensures s.gc.value.pos >= s.zones[s.gc.value.zone].wp ==> Unseen(s) == 0
  {
    hide Inv, Placed, Unvisited;
    ShakyIs(c, s, z);
    ShakyShape(c, s, z);
    ScanFacts(c, Credited(c, s, z));
    EntriesBelow(c, Credited(c, s, z), s.gc.value.zone);
    if s.gc.value.pos >= s.zones[s.gc.value.zone].wp {
      NothingAhead(s.zones[s.gc.value.zone].rmap, s.gc.value.pos);
    }
  }

  lemma NothingAhead(rmap: map<nat, nat>, pos: nat)
    requires forall o <- rmap :: o < pos
    ensures Unvisited(rmap, pos) == 0
  {
    assert Ahead(rmap, pos) == {};
  }

  lemma EntriesBelow(c: Config, s: State, v: nat)
    requires Inv(c, s) && v < |s.zones|
    ensures forall o <- s.zones[v].rmap :: o < s.zones[v].wp
  {
    hide Inv, LandedPages, LifeCycle, Counts, RefsExact, Tasks, Moves, Coverage, TriedStreams, InRange, Totals, Reserve,
         WellFormed;
    PartsMakeInv(c, s);
    ZoneFacts(c, s, v);
  }

  lemma VisitGently(c: Config, s: State, z: nat, t: nat)
    requires Fresh(c, s, z) && CanVisit(c, s) && t !in s.ios
    ensures WellFormed(c, s) && Enabled(c, s, LVisit(t))
    ensures var s' := Apply(c, s, LVisit(t));
            && Fresh(c, s', z) && Drift(c, z, s, [LVisit(t)], s') && s'.gc.Some?
            && s'.gc.value == s.gc.value.(pos := s.gc.value.pos + 1) && |s'.zones| == |s.zones|
            && s'.zones[s.gc.value.zone].wp == s.zones[s.gc.value.zone].wp
  {
    hide Shaky, WellFormed, Todo, Unseen, Visit, Enabled, Apply, Early, HandsOfUsers, CanVisit, Drift;
    ShakyShape(c, s, z);
    VisitEnabled(c, s, t);
    VisitApplied(c, s, LVisit(t));
    VisitSame(c, s, t);
    VisitParts(c, s, t);
    GentleStep(c, s, z, LVisit(t));
  }

  lemma VisitEnabled(c: Config, s: State, t: nat)
    requires WellFormed(c, s) && CanVisit(c, s) && t !in s.ios
    ensures Enabled(c, s, LVisit(t))
  {
  }

  // What leaves the entries unseen joins the tasks owed.
  lemma VisitSame(c: Config, s: State, t: nat)
    requires CanVisit(c, s) && t !in s.ios
    ensures |Todo(Visit(c, s, t).ios)| + Unseen(Visit(c, s, t)) == |Todo(s.ios)| + Unseen(s)
  {
    hide Todo, Unseen, Visit;
    VisitTodo(c, s, t);
    VisitUnseen(c, s, t);
  }

  lemma VisitParts(c: Config, s: State, t: nat)
    requires CanVisit(c, s) && t !in s.ios && Early(s.ios) && HandsOfUsers(s.ios, s.sched)
    requires WellFormed(c, s)
    ensures var s' := Apply(c, s, LVisit(t));
            && Early(s'.ios) && HandsOfUsers(s'.ios, s'.sched) && s'.gc.Some?
            && s'.gc.value == s.gc.value.(pos := s.gc.value.pos + 1) && |s'.zones| == |s.zones|
            && s'.zones[s.gc.value.zone].wp == s.zones[s.gc.value.zone].wp
  {
    hide WellFormed;
  }

  /** The collector goes through its victim. */
  lemma {:induction false} WalkOn(c: Config, s: State, z: nat) returns (run: seq<Label>, s': State)
    requires Fresh(c, s, z) && s.gc.Some? && s.gc.value.base && s.gc.value.zone < |s.zones|
    ensures Fresh(c, s', z) && Unseen(s') == 0 && Drift(c, z, s, run, s')
    decreases s.zones[s.gc.value.zone].wp - s.gc.value.pos
  {
    hide Shaky, WellFormed, Early, HandsOfUsers, Drift, Unseen, Apply;
    ScanIn(c, s, z);
    if CanVisit(c, s) {
      var t := UpperBound(s.ios.Keys);
      VisitGently(c, s, z, t);
      var s1 := Apply(c, s, LVisit(t));
      var rest;
      rest, s' := WalkOn(c, s1, z);
      run := [LVisit(t)] + rest;
      DriftOn(c, z, s, [LVisit(t)], s1, rest, s');
    } else {
      run, s' := [], s;
      DriftNone(c, z, s);
    }
  }

  // -------------------------------------------------------------------------------- the reads

  // No GC task is being read, and no user write is on the device.
  predicate Settling(io: Io) {
    io.Task? && ((io.kind.Mover? && io.st.Reading?) || (io.kind.User? && (io.st.Writing? || io.st.Landed?)))
  }

  function SettleStep(io: Io, t: nat): Label {
    if io.Task? && io.kind.Mover? then LMoveRead(t) else if io.Task? && io.st.Writing? then LAppend(t) else LEndio(t)
  }

  lemma SettleGently(c: Config, s: State, z: nat, t: nat)
    requires Fresh(c, s, z) && Unseen(s) == 0 && t in s.ios && Settling(s.ios[t])
    ensures var l := SettleStep(s.ios[t], t);
            && WellFormed(c, s) && Enabled(c, s, l)
            && Fresh(c, Apply(c, s, l), z) && Unseen(Apply(c, s, l)) == 0 && Drift(c, z, s, [l], Apply(c, s, l))
            && Work(Apply(c, s, l).ios) < Work(s.ios)
  {
    hide Inv, Shaky, WellFormed, Todo, Unseen, Work, Endio, HandsOfUsers, Early;
    var l := SettleStep(s.ios[t], t);
    ShakyShape(c, s, z);
    SettleTodo(c, s, z, t);
    SettleWorks(c, s, z, t);
    SettleParts(c, s, z, t);
    hide Enabled, Apply;
    GentleStep(c, s, z, l);
  }

  lemma SettleParts(c: Config, s: State, z: nat, t: nat)
    requires Shaky(c, s, z) && WellFormed(c, s) && t in s.ios && Settling(s.ios[t])
    requires Early(s.ios) && HandsOfUsers(s.ios, s.sched) && Enabled(c, s, SettleStep(s.ios[t], t))
    ensures var s' := Apply(c, s, SettleStep(s.ios[t], t));
            Early(s'.ios) && HandsOfUsers(s'.ios, s'.sched)
  {
    hide Inv, WellFormed, Placed, Todo, Unseen, Credited, NoneTried, Endio, Early;
    ShakyShape(c, s, z);
    if s.ios[t].kind.User? && s.ios[t].st.Landed? {
      hide Enabled, FaceOf;
      EndioEarly(c, s, t);
      CreditedApply(c, s, z, LEndio(t));
      CreditedTodo(c, s, z);
      EndioFaces(c, Credited(c, s, z), t);
      EndioParts(c, s, z, t);
    } else {
      EarlyAt(s.ios, t);
      UpdateEarly(s.ios, t, Apply(c, s, SettleStep(s.ios[t], t)).ios[t]);
    }
  }

  lemma EarlyAt(ios: map<nat, Io>, t: nat)
    requires Early(ios) && t in ios && ios[t].Task?
    ensures ios[t].pendingGc.None?
  {
  }

  lemma UpdateEarly(ios: map<nat, Io>, t: nat, io: Io)
    requires Early(ios)
    requires io.Task? ==> io.pendingGc.None? && (IsMove(io) ==> io.st.Reading? || io.st.ReadDone?)
    ensures Early(ios[t := io])
  {
  }

  lemma EndioEarly(c: Config, s: State, t: nat)
    requires WellFormed(c, s) && CanEndio(s, t) && s.ios[t].kind.User? && Early(s.ios)
    ensures Early(Endio(c, s, t).ios)
  {
    hide WellFormed;
    UnmapShape(c, s, s.ios[t].blk);
    hide Unmap;
  }

  lemma EndioParts(c: Config, s: State, z: nat, t: nat)
    requires WellFormed(c, s) && CanEndio(s, t) && WellFormed(c, Credited(c, s, z)) && Enabled(c, s, LEndio(t))
    requires CanEndio(Credited(c, s, z), t) && Enabled(c, Credited(c, s, z), LEndio(t))
    requires Apply(c, Credited(c, s, z), LEndio(t)) == Credited(c, Apply(c, s, LEndio(t)), z)
    ensures Apply(c, s, LEndio(t)).ios == Endio(c, s, t).ios == Endio(c, Credited(c, s, z), t).ios
    ensures Apply(c, s, LEndio(t)).sched == s.sched
  {
    hide WellFormed, Endio;
    EndioIsStep(c, s, t);
    EndioIsStep(c, Credited(c, s, z), t);
  }

  lemma SettleEnabled(c: Config, s: State, t: nat)
    requires WellFormed(c, s) && t in s.ios && Settling(s.ios[t])
    ensures Enabled(c, s, SettleStep(s.ios[t], t))
  {
  }

  // Completions take at most unseen entries away, of which there are none.
  lemma SettleTodo(c: Config, s: State, z: nat, t: nat)
    requires Shaky(c, s, z) && WellFormed(c, s) && Unseen(s) == 0 && t in s.ios && Settling(s.ios[t])
    ensures var l := SettleStep(s.ios[t], t);
            && Enabled(c, s, l) && Unseen(Apply(c, s, l)) == 0 && Todo(Apply(c, s, l).ios) == Todo(s.ios)
  {
    hide Inv, WellFormed, Todo, Unseen, Apply, Enabled, NoneTried, Placed, Whole, Credited;
    var l := SettleStep(s.ios[t], t);
    SettleEnabled(c, s, t);
    ShakyShape(c, s, z);
    CreditedApply(c, s, z, l);
    var w := Credited(c, s, z);
    StepUnseen(c, w, l);
    StepTodo(c, w, l);
    SameTodo(c, w, l);
    CreditedTodo(c, s, z);
    CreditedTodo(c, Apply(c, s, l), z);
  }

  lemma CreditedTodo(c: Config, s: State, z: nat)
    ensures Todo(Credited(c, s, z).ios) == Todo(s.ios) && Unseen(Credited(c, s, z)) == Unseen(s)
    ensures Credited(c, s, z).ios == s.ios && Credited(c, s, z).sched == s.sched && Credited(c, s, z).gc == s.gc
    ensures Credited(c, s, z).tree == s.tree && Credited(c, s, z).zones == s.zones
  {
  }

  lemma SameTodo(c: Config, w: State, l: Label)
    requires WellFormed(c, w) && Enabled(c, w, l)
    requires TodoAfter(c, w, l, Todo(w.ios), Todo(Effect(c, w, l).ios))
    requires !l.LVisit? && !l.LRecheck? && (l.LResolve? ==> l.t in w.ios && IsUser(w.ios[l.t]))
    ensures Todo(Apply(c, w, l).ios) == Todo(w.ios)
  {
    hide WellFormed, Enabled, Effect, Todo;
  }

  lemma SettleWorks(c: Config, s: State, z: nat, t: nat)
    requires Shaky(c, s, z) && WellFormed(c, s) && t in s.ios && Settling(s.ios[t])
    requires Enabled(c, s, SettleStep(s.ios[t], t))
    ensures Work(Apply(c, s, SettleStep(s.ios[t], t)).ios) < Work(s.ios)
  {
    hide Inv, WellFormed, Work, Apply, Enabled, Effect, Queues, NoneTried, Placed, Credited, Todo, Unseen, Append,
         MoveRead, Endio;
    var l := SettleStep(s.ios[t], t);
    ShakyShape(c, s, z);
    CreditedApply(c, s, z, l);
    var w := Credited(c, s, z);
    CreditedTodo(c, s, z);
    CreditedTodo(c, Apply(c, s, l), z);
    StatusWorks(c, w, t);
    if CanEndio(w, t) { EndioWorks(c, w, t); }
    SettleEffect(c, w, t);
  }

  lemma SettleEffect(c: Config, w: State, t: nat)
    requires WellFormed(c, w) && t in w.ios && Settling(w.ios[t]) && Enabled(c, w, SettleStep(w.ios[t], t))
    ensures var l := SettleStep(w.ios[t], t);
            Apply(c, w, l).ios == if l.LMoveRead? then MoveRead(c, w, t).ios
                                  else if l.LAppend? then Append(c, w, t).ios else Endio(c, w, t).ios
  {
    hide WellFormed, Endio;
  }

  // The collector's walk over, its pages read, and no user write on the device.
  ghost predicate Ripe(c: Config, s: State, z: nat) {
    Fresh(c, s, z) && Unseen(s) == 0 && forall t <- s.ios :: !Settling(s.ios[t])
  }

  lemma {:induction false} SettleAll(c: Config, s: State, z: nat) returns (run: seq<Label>, s': State)
    requires Fresh(c, s, z) && Unseen(s) == 0
    ensures Ripe(c, s', z) && Drift(c, z, s, run, s')
    decreases Work(s.ios)
  {
    hide Fresh, WellFormed, Drift, Unseen, Apply, Enabled, Settling, Work;
    if t :| t in s.ios && Settling(s.ios[t]) {
      SettleGently(c, s, z, t);
      var l := SettleStep(s.ios[t], t);
      var rest;
      rest, s' := SettleAll(c, Apply(c, s, l), z);
      run := [l] + rest;
      DriftOn(c, z, s, [l], Apply(c, s, l), rest, s');
    } else {
      run, s' := [], s;
      FreshShaky(c, s, z);
      DriftNone(c, z, s);
    }
  }

  lemma FreshShaky(c: Config, s: State, z: nat)
    requires Fresh(c, s, z)
    ensures Shaky(c, s, z)
  {
    hide Shaky;
  }

  // ----------------------------------------------------------------- a user write has its turn

  // b is a, but for its references and for a callback it may have been waiting for.
  predicate SameBut(a: Io, b: Io) {
    a == b || (a.Task? && b.Task? && b == a.(rc := b.rc, st := b.st)
               && (b.st == a.st || (a.kind.Mover? && a.st.Parked? && b.st.Finishing?)))
  }

  // Besides t, nothing has come, and nothing but tasks that are done has gone.
  ghost predicate Aside(ios: map<nat, Io>, ios': map<nat, Io>, t: nat) {
    && (forall u <- ios' :: u != t ==> u in ios && SameBut(ios[u], ios'[u]))
    && (forall u <- ios :: u != t && !(ios[u].Task? && ios[u].st.Done?) ==> u in ios')
  }

  lemma AsideThrough(a: map<nat, Io>, b: map<nat, Io>, d: map<nat, Io>, t: nat)
    requires Aside(a, b, t) && Aside(b, d, t)
    ensures Aside(a, d, t)
  {
    forall u | u in a && u != t && !(a[u].Task? && a[u].st.Done?)
      ensures u in d
    {
      assert u in b && SameBut(a[u], b[u]);
    }
  }

  lemma AsideUpdate(ios: map<nat, Io>, t: nat, io: Io)
    ensures Aside(ios, ios[t := io], t)
  {
  }

  lemma InsertAside(c: Config, s: State, t: nat)
    requires CanInsert(s, t)
    requires s.ios[t].blk in s.tree ==>
               s.tree[s.ios[t].blk] in s.ios && s.ios[s.tree[s.ios[t].blk]].Task? && s.tree[s.ios[t].blk] != t
    ensures Aside(s.ios, Insert(c, s, t).ios, t)
    ensures t in Insert(c, s, t).ios && SameKind(s.ios[t], Insert(c, s, t).ios[t])
  {
  }

  // The same task, as far as its owner and what it carries go.
  predicate SameKind(a: Io, b: Io)
    requires a.Task?
  {
    b.Task? && b.kind == a.kind && b.pendingGc == a.pendingGc && b.blk == a.blk
  }

  lemma ReleaseAside(ios: map<nat, Io>, h: nat, n: nat, t: nat)
    requires h in ios && ios[h].Task? && h != t && ParkLinks(ios) && (ios[h].rc <= n ==> ios[h].st.Done?)
    requires ios[h].pendingGc.Some? ==> ios[h].pendingGc.value != t
    ensures Aside(ios, Release(ios, h, n), t)
    ensures t in ios ==> t in Release(ios, h, n) && Release(ios, h, n)[t] == ios[t]
  {
  }

  lemma ResolveAside(c: Config, s: State, t: nat)
    requires Inv(c, s) && CanResolve(s, t) && s.ios[t].kind.User?
    ensures WellFormed(c, s) && Aside(s.ios, Resolve(c, s, t).ios, t)
    ensures t in Resolve(c, s, t).ios && SameKind(s.ios[t], Resolve(c, s, t).ios[t])
  {
    hide Inv, WellFormed, Release, RefsExact, TreeLinks, ConflictLinks, ParkLinks, Moves, Coverage, MapsInverse,
         LandedPages, LifeCycle, Counts, Totals, Reserve, TriedStreams, InRange, StatusOk, Aside;
    PartsMakeInv(c, s);
    ConflictFacts(c, s, t);
    var io, h := s.ios[t], s.ios[t].st.host;
    var idle := s.ios[t := io.(st := Init)];
    DropConflict(s.ios, t, io.(st := Init));
    UserLinks(s.ios, s.tree, t);
    LastRef(idle, h, 1);
    NotCarried(idle, h, t);
    ReleaseAside(idle, h, 1, t);
    AsideUpdate(s.ios, t, io.(st := Init));
    AsideThrough(s.ios, idle, Release(idle, h, 1), t);
  }

  lemma NotCarried(ios: map<nat, Io>, h: nat, t: nat)
    requires ParkLinks(ios) && h in ios && ios[h].Task? && t in ios && IsUser(ios[t])
    ensures ios[h].pendingGc.Some? ==>
              ios[h].pendingGc.value != t && ios[h].pendingGc.value in ios && ios[ios[h].pendingGc.value].Task?
  {
  }

  // User write t is in hand and carries no GC task.
  ghost predicate Plain(s: State, t: nat) {
    t in s.sched.turns && FaceOf(s.ios, t).Face? && t in s.ios && IsUser(s.ios[t]) && s.ios[t].pendingGc.None?
  }

  // The turn of t goes on and nothing else has moved.
  ghost predicate GoesOn(c: Config, s: State, s': State, t: nat) {
    && Plain(s, t) && Plain(s', t) && Aside(s.ios, s'.ios, t)
    && Todo(s'.ios) == Todo(s.ios) && Unseen(s') == Unseen(s)
    && s'.sched == s.sched.(turns := s.sched.turns[t := s'.sched.turns[t]])
    && Liveness.TurnRank(c.streams, FaceOf(s'.ios, t), s'.sched.turns[t])
       < Liveness.TurnRank(c.streams, FaceOf(s.ios, t), s.sched.turns[t])
  }

  // A step on the task tree, seen with the credit given.
  lemma TreeStep(c: Config, s: State, z: nat, l: Label)
    requires Shaky(c, s, z) && WellFormed(c, s) && Enabled(c, s, l) && (l.LInsert? || l.LResolve?)
    requires l.t in s.ios && IsUser(s.ios[l.t])
    ensures Drift(c, z, s, [l], Apply(c, s, l))
    ensures Todo(Apply(c, s, l).ios) == Todo(s.ios) && Unseen(Apply(c, s, l)) == Unseen(s)
  {
    hide Inv, WellFormed, Todo, Unseen, Apply, Enabled, NoneTried, Placed, Whole, Credited, Drift;
    ShakyShape(c, s, z);
    CreditedApply(c, s, z, l);
    var w := Credited(c, s, z);
    StepUnseen(c, w, l);
    StepTodo(c, w, l);
    CreditedTodo(c, s, z);
    SameTodo(c, w, l);
    CreditedTodo(c, Apply(c, s, l), z);
    GentleStep(c, s, z, l);
  }

  lemma InsertGoesOn(c: Config, s: State, z: nat, t: nat)
    requires Shaky(c, s, z) && Plain(s, t) && s.sched.turns[t].Going? && s.ios[t].st.Init?
    ensures WellFormed(c, s) && Enabled(c, s, LInsert(t)) && Drift(c, z, s, [LInsert(t)], Apply(c, s, LInsert(t)))
    ensures GoesOn(c, s, Apply(c, s, LInsert(t)), t)
  {
    hide Inv, WellFormed, Todo, Unseen, NoneTried, Placed, Credited, Drift, Insert, Aside, Shaky, FaceOf;
    ShakyShape(c, s, z);
    CreditedTodo(c, s, z);
    var w := Credited(c, s, z);
    OwnersThere(c, s);
    if s.ios[t].blk in s.tree { MeetsUser(c, w, t); }
    TreeStep(c, s, z, LInsert(t));
    InsertAside(c, s, t);
    InsertFaces(c, w, t);
    SameInsert(c, s, z, t);
    assert s.sched.turns == s.sched.turns[t := s.sched.turns[t]];
    InitFace(s.ios, t);
  }

  lemma InitFace(ios: map<nat, Io>, t: nat)
    requires t in ios && IsUser(ios[t]) && ios[t].st.Init?
    ensures FaceOf(ios, t) == Face(User, Init)
  {
  }

  lemma SameInsert(c: Config, s: State, z: nat, t: nat)
    requires CanInsert(s, t)
    requires s.ios[t].blk in s.tree ==> s.tree[s.ios[t].blk] in s.ios && s.ios[s.tree[s.ios[t].blk]].Task?
    ensures Insert(c, Credited(c, s, z), t).ios == Insert(c, s, t).ios
  {
  }

  lemma ResolveGoesOn(c: Config, s: State, z: nat, t: nat)
    requires Shaky(c, s, z) && Plain(s, t) && s.sched.turns[t].Going? && s.ios[t].st.Conflict?
    ensures WellFormed(c, s) && Enabled(c, s, LResolve(t)) && Drift(c, z, s, [LResolve(t)], Apply(c, s, LResolve(t)))
    ensures GoesOn(c, s, Apply(c, s, LResolve(t)), t)
  {
    hide Inv, WellFormed, Todo, Unseen, NoneTried, Placed, Credited, Drift, Resolve, Aside, Shaky, FaceOf;
    ShakyShape(c, s, z);
    CreditedTodo(c, s, z);
    var w := Credited(c, s, z);
    TreeStep(c, s, z, LResolve(t));
    ResolveAside(c, w, t);
    ResolveFaces(c, w, t);
    SameResolve(c, s, z, t);
  }

  lemma SameResolve(c: Config, s: State, z: nat, t: nat)
    requires WellFormed(c, s) && WellFormed(c, Credited(c, s, z)) && CanResolve(s, t)
    ensures Resolve(c, Credited(c, s, z), t).ios == Resolve(c, s, t).ios
  {
    hide WellFormed, Release;
  }

  lemma AttemptGoesOn(c: Config, s: State, z: nat, t: nat) returns (k: nat)
    requires Shaky(c, s, z) && Plain(s, t) && s.sched.turns[t].Going? && s.ios[t].st.Alloc?
    ensures WellFormed(c, s) && Enabled(c, s, LTryAlloc(t, k))
    ensures Drift(c, z, s, [LTryAlloc(t, k)], Apply(c, s, LTryAlloc(t, k)))
    ensures GoesOn(c, s, Apply(c, s, LTryAlloc(t, k)), t)
  {
    hide Inv, WellFormed, Todo, Unseen, Credited, Drift, Shaky;
    PlacedParts(c.streams, s.ios, s.sched);
    ShakyShape(c, s, z);
    var failed := s.sched.turns[t].failed;
    assert TurnOk(c.streams, FaceOf(s.ios, t), s.sched.turns[t]);
    hide Placed;
    k :| k < c.streams && k !in failed;
    NothingTried(c, s, z, t);
    RefusedStep(c, s, z, t, k);
    SchedUnseen(s, Apply(c, s, LTryAlloc(t, k)).sched);
    hide Apply, Enabled;
    assert k in Liveness.Untried(c.streams, failed);
    assert Liveness.Untried(c.streams, failed + {k}) == Liveness.Untried(c.streams, failed) - {k};
  }

  lemma NothingTried(c: Config, s: State, z: nat, t: nat)
    requires Shaky(c, s, z) && t in s.ios && s.ios[t].Task? && s.ios[t].st.Alloc?
    ensures s.ios[t].st.tried == {}
  {
    hide Sound;
    ShakyIs(c, s, z);
  }

  lemma RequeueEnds(c: Config, s: State, z: nat, t: nat)
    requires Shaky(c, s, z) && Plain(s, t) && s.sched.turns[t].Failed?
    ensures WellFormed(c, s) && Enabled(c, s, LRequeue(t)) && Drift(c, z, s, [LRequeue(t)], Apply(c, s, LRequeue(t)))
    ensures var s' := Apply(c, s, LRequeue(t));
            && Aside(s.ios, s'.ios, t) && Todo(s'.ios) == Todo(s.ios) && Unseen(s') == Unseen(s)
            && t in s'.ios && IsUser(s'.ios[t]) && s'.ios[t].pendingGc.None? && AtRest(FaceOf(s'.ios, t))
            && s'.sched == Enqueue(s.sched, t)
  {
    hide Inv, WellFormed, Unseen, Credited, Drift, Shaky, Todo;
    PlacedParts(c.streams, s.ios, s.sched);
    ShakyShape(c, s, z);
    assert TurnOk(c.streams, FaceOf(s.ios, t), s.sched.turns[t]);
    hide Placed;
    StatusTodo(c, s, t, 0, 0);
    RequeueUnseen(c, s, t);
    GentleStep(c, s, z, LRequeue(t));
    AsideUpdate(s.ios, t, Apply(c, s, LRequeue(t)).ios[t]);
  }

  lemma RequeueUnseen(c: Config, s: State, t: nat)
    requires WellFormed(c, s) && Enabled(c, s, LRequeue(t))
    ensures Unseen(Apply(c, s, LRequeue(t))) == Unseen(s)
  {
    hide WellFormed;
  }

  // t is back in its queue and nothing else has moved.
  ghost predicate TurnOver(s: State, s': State, t: nat) {
    && Aside(s.ios, s'.ios, t) && Todo(s'.ios) == Todo(s.ios) && Unseen(s') == Unseen(s)
    && t in s'.ios && IsUser(s'.ios[t]) && s'.ios[t].pendingGc.None? && AtRest(FaceOf(s'.ios, t))
    && s'.sched == Enqueue(s.sched, t)
  }

  lemma OverThrough(c: Config, s: State, s1: State, s2: State, t: nat)
    requires GoesOn(c, s, s1, t) && TurnOver(s1, s2, t)
    ensures TurnOver(s, s2, t)
  {
    hide Aside, Todo, Unseen, FaceOf, Plain;
    AsideThrough(s.ios, s1.ios, s2.ios, t);
    assert s1.sched.turns - {t} == s.sched.turns - {t};
  }

  /** Refused on every stream, a user write ends its turn in its queue. */
  lemma {:induction false} PlainTurn(c: Config, s: State, z: nat, t: nat) returns (run: seq<Label>, s': State)
    requires Shaky(c, s, z) && Plain(s, t)
    ensures Drift(c, z, s, run, s') && TurnOver(s, s', t)
    decreases Liveness.TurnRank(c.streams, FaceOf(s.ios, t), s.sched.turns[t])
  {
    hide Shaky, WellFormed, Enabled, Apply, Drift, TurnOver, Liveness.TurnRank, FaceOf, Aside, Todo, Unseen;
    if s.sched.turns[t].Failed? {
      RequeueEnds(c, s, z, t);
      run, s' := [LRequeue(t)], Apply(c, s, LRequeue(t));
      RequeueOver(s, s', t);
    } else {
      PlainStatus(c, s, z, t);
      var l;
      if s.ios[t].st.Init? {
        l := LInsert(t);
        InsertGoesOn(c, s, z, t);
      } else if s.ios[t].st.Conflict? {
        l := LResolve(t);
        ResolveGoesOn(c, s, z, t);
      } else {
        var k := AttemptGoesOn(c, s, z, t);
        l := LTryAlloc(t, k);
      }
      var s1 := Apply(c, s, l);
      DriftShaky(c, z, s, [l], s1);
      var rest;
      rest, s' := PlainTurn(c, s1, z, t);
      run := [l] + rest;
      DriftOn(c, z, s, [l], s1, rest, s');
      OverThrough(c, s, s1, s', t);
    }
  }

  lemma DriftShaky(c: Config, z: nat, s: State, run: seq<Label>, s': State)
    requires Drift(c, z, s, run, s')
    ensures Shaky(c, s', z)
  {
    hide Shaky, Run;
    DriftIs(c, z, s, run, s');
  }

  lemma RequeueOver(s: State, s': State, t: nat)
    requires Aside(s.ios, s'.ios, t) && Todo(s'.ios) == Todo(s.ios) && Unseen(s') == Unseen(s)
    requires t in s'.ios && IsUser(s'.ios[t]) && s'.ios[t].pendingGc.None? && AtRest(FaceOf(s'.ios, t))
    requires s'.sched == Enqueue(s.sched, t)
    ensures TurnOver(s, s', t)
  {
    hide Aside, Todo, Unseen, FaceOf;
  }

  lemma PlainStatus(c: Config, s: State, z: nat, t: nat)
    requires Shaky(c, s, z) && Plain(s, t)
    ensures s.ios[t].st.Init? || s.ios[t].st.Conflict? || s.ios[t].st.Alloc?
  {
  }

  // ------------------------------------------------------------- before the GC tasks have theirs

  // As far as the early stages go, a user write's turn changes nothing.
  lemma RipeAfter(c: Config, s: State, z: nat, s': State, t: nat)
    requires Ripe(c, s, z) && TurnOver(s, s', t) && Shaky(c, s', z)
    ensures Ripe(c, s', z)
  {
    hide Shaky, Todo, Unseen;
    forall u | u in s'.ios && u != t
      ensures s'.ios[u].Task? ==> u in s.ios && s.ios[u].Task? && s.ios[u].pendingGc.None?
      ensures !Settling(s'.ios[u])
      ensures s'.ios[u].Task? && IsMove(s'.ios[u]) ==> s'.ios[u].st.Reading? || s'.ios[u].st.ReadDone?
    {
      assert SameBut(s.ios[u], s'.ios[u]);
    }
    forall u | u in s.ios && u != t && FaceOf(s.ios, u).Face?
      ensures FaceOf(s'.ios, u) == FaceOf(s.ios, u)
    {
      assert u in s'.ios && SameBut(s.ios[u], s'.ios[u]);
    }
  }

  lemma InHandIsPlain(c: Config, s: State, z: nat, t: nat)
    requires Fresh(c, s, z) && t in s.sched.turns
    ensures Plain(s, t)
  {
    hide Shaky;
  }

  lemma RipeFresh(c: Config, s: State, z: nat)
    requires Ripe(c, s, z)
    ensures Fresh(c, s, z) && Shaky(c, s, z) && Unseen(s) == 0
  {
    hide Shaky, Early, HandsOfUsers, Unseen;
  }

  /** Everybody who submits a write is done with it. */
  lemma {:induction false} HandsDown(c: Config, s: State, z: nat) returns (run: seq<Label>, s': State)
    requires Ripe(c, s, z)
    ensures Ripe(c, s', z) && Drift(c, z, s, run, s') && s'.sched.turns == map[]
    decreases |s.sched.turns|
  {
    hide Ripe, Fresh, Shaky, Drift, TurnOver, Plain;
    RipeFresh(c, s, z);
    if s.sched.turns == map[] {
      run, s' := [], s;
      DriftNone(c, z, s);
    } else {
      var t :| t in s.sched.turns;
      InHandIsPlain(c, s, z, t);
      var turn, s1 := PlainTurn(c, s, z, t);
      DriftShaky(c, z, s, turn, s1);
      RipeAfter(c, s, z, s1, t);
      OverTurns(s, s1, t);
      var rest;
      rest, s' := HandsDown(c, s1, z);
      run := turn + rest;
      DriftOn(c, z, s, turn, s1, rest, s');
    }
  }

  lemma OverTurns(s: State, s1: State, t: nat)
    requires TurnOver(s, s1, t) && t in s.sched.turns
    ensures |s1.sched.turns| == |s.sched.turns| - 1 && s1.sched == Enqueue(s.sched, t)
  {
    hide Aside, Todo, Unseen, FaceOf;
    SizeRemove(s.sched.turns, t);
  }

  // A step of the retry worker that only moves lists about.
  lemma WorkerGently(c: Config, s: State, z: nat, l: Label)
    requires Shaky(c, s, z) && (l.LTakeWrites? || l.LNext? || l.LTakeCopies? || l.LRest?)
    requires l.LTakeWrites? ==> s.sched.pass.Resting?
    requires l.LNext? ==> s.sched.busy.None? && s.sched.batch != []
    requires l.LTakeCopies? ==> s.sched.pass.Writes? && s.sched.busy.None? && s.sched.batch == []
    requires l.LRest? ==> s.sched.pass.Copies? && s.sched.busy.None? && s.sched.batch == []
    ensures Drift(c, z, s, [l], Worked(s, l)) && Shaky(c, Worked(s, l), z)
  {
    hide WellFormed, Shaky, Todo, Unseen, Drift, Enabled, Apply;
    ShakyShape(c, s, z);
    WorkedIs(c, s, l);
    SchedUnseen(s, Worked(s, l).sched);
    GentleStep(c, s, z, l);
    DriftShaky(c, z, s, [l], Worked(s, l));
  }

  lemma WorkedIs(c: Config, s: State, l: Label)
    requires WellFormed(c, s) && (l.LTakeWrites? || l.LNext? || l.LTakeCopies? || l.LRest?)
    requires l.LTakeWrites? ==> s.sched.pass.Resting?
    requires l.LNext? ==> s.sched.busy.None? && s.sched.batch != []
    requires l.LTakeCopies? ==> s.sched.pass.Writes? && s.sched.busy.None? && s.sched.batch == []
    requires l.LRest? ==> s.sched.pass.Copies? && s.sched.busy.None? && s.sched.batch == []
    ensures Enabled(c, s, l) && Inner(l) && Apply(c, s, l) == Worked(s, l)
  {
    hide WellFormed;
  }

  function Worked(s: State, l: Label): State
    requires l.LNext? ==> s.sched.batch != []
  {
    s.(sched := if l.LTakeWrites? then TakeWrites(s.sched) else if l.LNext? then TakeNext(s.sched)
                else if l.LTakeCopies? then TakeCopies(s.sched) else s.sched.(pass := Resting))
  }

  // Nobody submits anything, and the worker is at its list of writes.
  ghost predicate AtWrites(c: Config, s: State, z: nat) {
    Ripe(c, s, z) && s.sched.turns == map[] && s.sched.pass.Writes? && s.sched.busy.None?
  }

  lemma RipeSched(c: Config, s: State, z: nat, q: Sched)
    requires Ripe(c, s, z) && Shaky(c, s.(sched := q), z) && HandsOfUsers(s.ios, q)
    ensures Ripe(c, s.(sched := q), z)
  {
    hide Shaky, HandsOfUsers, Early, Unseen;
    SchedUnseen(s, q);
  }

  lemma NobodyBusy(c: Config, s: State, z: nat)
    requires Ripe(c, s, z) && s.sched.turns == map[]
    ensures s.sched.busy.None? && (s.sched.pass.Copies? ==> s.sched.batch == [])
    ensures HandsOfUsers(s.ios, TakeWrites(s.sched)) && HandsOfUsers(s.ios, s.sched.(pass := Resting))
  {
    hide Inv, Unseen, Todo;
    ShakyIs(c, s, z);
    PlacedParts(c.streams, s.ios, s.sched);
    assert s.sched.pass.Copies? ==> forall t :: t !in s.sched.batch;
    SomeElement(s.sched.batch);
  }

  /** The retry worker is at its list of writes, or comes to it. */
  lemma WorkerWrites(c: Config, s: State, z: nat) returns (run: seq<Label>, s': State)
    requires Ripe(c, s, z) && s.sched.turns == map[]
    ensures AtWrites(c, s', z) && Drift(c, z, s, run, s')
  {
    hide Ripe, Shaky, Drift, HandsOfUsers;
    RipeFresh(c, s, z);
    NobodyBusy(c, s, z);
    if s.sched.pass.Writes? {
      run, s' := [], s;
      DriftNone(c, z, s);
    } else if s.sched.pass.Resting? {
      run, s' := [LTakeWrites], Worked(s, LTakeWrites);
      WorkerGently(c, s, z, LTakeWrites);
      RipeSched(c, s, z, TakeWrites(s.sched));
    } else {
      var s1 := Worked(s, LRest);
      WorkerGently(c, s, z, LRest);
      RipeSched(c, s, z, s.sched.(pass := Resting));
      NobodyBusy(c, s1, z);
      WorkerGently(c, s1, z, LTakeWrites);
      RipeSched(c, s1, z, TakeWrites(s1.sched));
      run, s' := [LRest] + [LTakeWrites], Worked(s1, LTakeWrites);
      DriftOn(c, z, s, [LRest], s1, [LTakeWrites], s');
    }
  }

  lemma NextPlain(c: Config, s: State, z: nat)
    requires AtWrites(c, s, z) && s.sched.batch != []
    ensures HandsOfUsers(s.ios, TakeNext(s.sched)) && Shaky(c, s, z)
    ensures var s1 := s.(sched := TakeNext(s.sched)); Plain(s1, s.sched.batch[0])
  {
    hide Shaky, Unseen;
    var t := s.sched.batch[0];
    assert t in s.sched.batch;
  }

  /** The worker's list of writes comes to its end, all of them refused. */
  lemma {:induction false} DrainPlain(c: Config, s: State, z: nat) returns (run: seq<Label>, s': State)
    requires AtWrites(c, s, z)
    ensures AtWrites(c, s', z) && s'.sched.batch == [] && Drift(c, z, s, run, s')
    decreases |s.sched.batch|
  {
    hide Ripe, Shaky, Drift, HandsOfUsers, TurnOver, Plain;
    if s.sched.batch == [] {
      run, s' := [], s;
      RipeFresh(c, s, z);
      DriftNone(c, z, s);
    } else {
      var t := s.sched.batch[0];
      NextPlain(c, s, z);
      WorkerGently(c, s, z, LNext);
      var s1 := Worked(s, LNext);
      RipeSched(c, s, z, TakeNext(s.sched));
      var turn, s2 := PlainTurn(c, s1, z, t);
      DriftShaky(c, z, s1, turn, s2);
      RipeAfter(c, s1, z, s2, t);
      OverTurns(s1, s2, t);
      NextOver(s.sched, t);
      DriftOn(c, z, s, [LNext], s1, turn, s2);
      var rest;
      rest, s' := DrainPlain(c, s2, z);
      run := [LNext] + turn + rest;
      DriftOn(c, z, s, [LNext] + turn, s2, rest, s');
    }
  }

  lemma NextOver(q: Sched, t: nat)
    requires q.batch != [] && q.turns == map[] && t == q.batch[0]
    ensures var q' := Enqueue(TakeNext(q), t);
            q'.turns == map[] && q'.batch == q.batch[1..] && q'.busy.None? && q'.pass == q.pass
            && q'.gcWrites == q.gcWrites && t in TakeNext(q).turns
  {
  }

  // ------------------------------------------------------------------ writes that hold the slots

  // A write of block b with its block's tree slot that has not been attempted.
  function Holder(b: nat): Io {
    Task(User, b, 0, Pbid(0, 0), Alloc({}), None, 2)
  }

  /** The worker is about to turn to the GC tasks, and all hands have a write that is about to be
      attempted. */
  ghost predicate Holding(c: Config, s: State, z: nat) {
    && Ripe(c, s, z) && s.sched.pass.Writes? && s.sched.busy.None? && s.sched.batch == []
    && forall t <- s.sched.turns :: s.sched.turns[t] == Going({}) && FaceOf(s.ios, t) == Face(User, Alloc({}))
  }

  // GC tasks whose block's slot is free.
  ghost function Unheld(ios: map<nat, Io>, tree: map<nat, nat>): set<nat> {
    set m | m in ios && IsMove(ios[m]) && ios[m].blk !in tree
  }

  lemma SubmitGently(c: Config, s: State, z: nat, t: nat, b: nat)
    requires Ripe(c, s, z) && t !in s.ios && b < c.blocks
    ensures WellFormed(c, s) && Enabled(c, s, LSubmit(t, b, 0))
    ensures var s1 := Apply(c, s, LSubmit(t, b, 0));
            && Drift(c, z, s, [LSubmit(t, b, 0)], s1) && Unseen(s1) == 0
            && s1 == Submit(s, t, b, 0).(sched := BeginTurn(s.sched, t)) && Plain(s1, t)
  {
    hide Shaky, WellFormed, Todo, Unseen, Drift, Ripe, Enabled, Apply, Plain;
    RipeFresh(c, s, z);
    ShakyShape(c, s, z);
    SubmitIs(c, s, t, b);
    StatusTodo(c, s, t, b, 0);
    SubmitUnseen(s, t, b, BeginTurn(s.sched, t));
    GentleStep(c, s, z, LSubmit(t, b, 0));
  }

  lemma SubmitIs(c: Config, s: State, t: nat, b: nat)
    requires WellFormed(c, s) && t !in s.ios && b < c.blocks
    ensures Enabled(c, s, LSubmit(t, b, 0))
    ensures var s1 := Submit(s, t, b, 0).(sched := BeginTurn(s.sched, t));
            Apply(c, s, LSubmit(t, b, 0)) == s1 && Plain(s1, t)
  {
    hide WellFormed;
  }

  lemma SubmitUnseen(s: State, t: nat, b: nat, q: Sched)
    ensures Unseen(Submit(s, t, b, 0).(sched := q)) == Unseen(s)
  {
  }

  lemma InsertGently(c: Config, s: State, z: nat, t: nat)
    requires Shaky(c, s, z) && Plain(s, t) && s.sched.turns[t].Going? && s.ios[t].st.Init? && s.ios[t].blk !in s.tree
    ensures WellFormed(c, s) && Enabled(c, s, LInsert(t))
    ensures var s1 := Apply(c, s, LInsert(t));
            && Drift(c, z, s, [LInsert(t)], s1) && Unseen(s1) == Unseen(s) && s1.sched == s.sched
            && s1.ios == s.ios[t := s.ios[t].(st := Alloc({}), rc := s.ios[t].rc + 1)]
            && s1.tree == s.tree[s.ios[t].blk := t]
  {
    hide Shaky, Todo, Unseen, Drift, FaceOf, WellFormed;
    InsertGoesOn(c, s, z, t);
    assert s.sched.turns == s.sched.turns[t := s.sched.turns[t]];
  }

  lemma HoldOne(c: Config, s: State, z: nat, m: nat) returns (run: seq<Label>, s': State)
    requires Holding(c, s, z) && m in Unheld(s.ios, s.tree)
    ensures Holding(c, s', z) && Drift(c, z, s, run, s') && Unheld(s'.ios, s'.tree) < Unheld(s.ios, s.tree)
  {
    hide Shaky, WellFormed, Unseen, Drift, Early, HandsOfUsers, FaceOf, Settling, Holder, BeginTurn;
    RipeFresh(c, s, z);
    ShakyShape(c, s, z);
    BlockOf(c, s, m);
    var t := UpperBound(s.ios.Keys);
    run, s' := HolderComes(c, s, z, t, s.ios[m].blk);
    BeginLists(s.sched, t);
    HeldParts(s.ios, s.sched, s.tree, t, m);
  }

  lemma BeginLists(q: Sched, t: nat)
    ensures var q' := BeginTurn(q, t); q'.pass == q.pass && q'.busy == q.busy && q'.batch == q.batch
  {
  }

  lemma HolderComes(c: Config, s: State, z: nat, t: nat, b: nat) returns (run: seq<Label>, s': State)
    requires Ripe(c, s, z) && t !in s.ios && b < c.blocks && b !in s.tree
    ensures Drift(c, z, s, run, s') && Shaky(c, s', z) && Unseen(s') == 0
    ensures s'.ios == s.ios[t := Holder(b)] && s'.tree == s.tree[b := t] && s'.sched == BeginTurn(s.sched, t)
  {
    hide Shaky, WellFormed, Unseen, Drift, Ripe, Enabled, Apply, Plain;
    SubmitGently(c, s, z, t, b);
    var s1 := Apply(c, s, LSubmit(t, b, 0));
    DriftShaky(c, z, s, [LSubmit(t, b, 0)], s1);
    InsertGently(c, s1, z, t);
    s' := Apply(c, s1, LInsert(t));
    DriftShaky(c, z, s1, [LInsert(t)], s');
    run := [LSubmit(t, b, 0)] + [LInsert(t)];
    DriftOn(c, z, s, [LSubmit(t, b, 0)], s1, [LInsert(t)], s');
    assert s'.ios == s.ios[t := Holder(b)];
  }

  lemma BlockOf(c: Config, s: State, m: nat)
    requires WellFormed(c, s) && m in s.ios && IsMove(s.ios[m])
    ensures s.ios[m].blk < c.blocks
  {
    assert IoInRange(c, s.zones, s.ios, s.ios[m]);
  }

  lemma HeldParts(ios: map<nat, Io>, q: Sched, tree: map<nat, nat>, t: nat, m: nat)
    requires t !in ios && m in Unheld(ios, tree) && Early(ios) && HandsOfUsers(ios, q)
    requires forall u <- ios :: !Settling(ios[u])
    requires forall u <- q.turns :: q.turns[u] == Going({}) && FaceOf(ios, u) == Face(User, Alloc({}))
    ensures var b := ios[m].blk;
            var ios', q' := ios[t := Holder(b)], BeginTurn(q, t);
            && Early(ios') && HandsOfUsers(ios', q') && (forall u <- ios' :: !Settling(ios'[u]))
            && (forall u <- q'.turns :: q'.turns[u] == Going({}) && FaceOf(ios', u) == Face(User, Alloc({})))
            && Unheld(ios', tree[b := t]) < Unheld(ios, tree)
  {
    var b := ios[m].blk;
    assert m !in Unheld(ios[t := Holder(b)], tree[b := t]);
  }

  /** Writes that come in take every slot that a GC task will want. */
  lemma {:induction false} HoldAll(c: Config, s: State, z: nat) returns (run: seq<Label>, s': State)
    requires Holding(c, s, z)
    ensures Holding(c, s', z) && Drift(c, z, s, run, s') && Unheld(s'.ios, s'.tree) == {}
    decreases Unheld(s.ios, s.tree)
  {
    hide Ripe, Drift, Shaky, Unheld, FaceOf;
    RipeFresh(c, s, z);
    if m :| m in Unheld(s.ios, s.tree) {
      var first, s1 := HoldOne(c, s, z, m);
      var rest;
      rest, s' := HoldAll(c, s1, z);
      run := first + rest;
      DriftOn(c, z, s, first, s1, rest, s');
    } else {
      run, s' := [], s;
      DriftNone(c, z, s);
    }
  }

  // ------------------------------------------------------------------ the GC tasks park themselves

  // The owner of GC task m's block is a user write that waits for space and carries nothing.
  predicate Held(ios: map<nat, Io>, tree: map<nat, nat>, m: nat)
    requires m in ios && ios[m].Task?
  {
    var b := ios[m].blk;
    && b in tree && tree[b] in ios && IsUser(ios[tree[b]]) && ios[tree[b]].st.Alloc?
    && ios[tree[b]].pendingGc.None? && ios[tree[b]].blk == b
  }

  // All hands have a write that is about to be attempted.
  ghost predicate HandsReady(ios: map<nat, Io>, q: Sched) {
    forall t <- q.turns :: q.turns[t] == Going({}) && FaceOf(ios, t) == Face(User, Alloc({}))
  }

  /** The worker is at its list of GC tasks; those still to come find their slots held, and the
      others are parked. */
  ghost predicate Parking(c: Config, s: State, z: nat) {
    && Shaky(c, s, z) && Unseen(s) == 0 && s.sched.pass.Copies? && s.sched.busy.None? && s.sched.gcWrites == []
    && HandsReady(s.ios, s.sched)
    && forall m <- s.ios :: IsMove(s.ios[m]) ==>
         s.ios[m].st.Parked? || (s.ios[m].st.ReadDone? && Held(s.ios, s.tree, m))
  }

  lemma OwnerFacts(c: Config, s: State, b: nat)
    requires Inv(c, s) && b in s.tree
    ensures s.tree[b] in s.ios && s.ios[s.tree[b]].Task? && s.ios[s.tree[b]].blk == b && InTree(s.ios[s.tree[b]].st)
    ensures forall m <- s.ios :: IsMove(s.ios[m]) && s.ios[m].blk == b && m != s.tree[b] ==> s.ios[s.tree[b]].kind.User?
  {
    hide Inv, MapsInverse, LandedPages, LifeCycle, Counts, RefsExact, Coverage, TriedStreams, InRange, Totals, Reserve,
         WellFormed, ConflictLinks, ParkLinks;
    PartsMakeInv(c, s);
    var o := s.tree[b];
    assert StatusOk(s.ios[o]);
  }

  lemma StartParking(c: Config, s: State, z: nat)
    requires Holding(c, s, z) && Unheld(s.ios, s.tree) == {}
    ensures var s1 := Worked(s, LTakeCopies);
            Parking(c, s1, z) && Drift(c, z, s, [LTakeCopies], s1)
  {
    hide Shaky, Unseen, Drift, Early, HandsOfUsers, FaceOf;
    RipeFresh(c, s, z);
    WorkerGently(c, s, z, LTakeCopies);
    SchedUnseen(s, TakeCopies(s.sched));
    forall m | m in s.ios && IsMove(s.ios[m])
      ensures s.ios[m].st.ReadDone? && Held(s.ios, s.tree, m)
    {
      assert m !in Unheld(s.ios, s.tree);
      SlotHeld(c, s, z, m);
    }
  }

  lemma SlotHeld(c: Config, s: State, z: nat, m: nat)
    requires Ripe(c, s, z) && m in s.ios && IsMove(s.ios[m]) && s.ios[m].blk in s.tree
    ensures s.ios[m].st.ReadDone? && Held(s.ios, s.tree, m)
  {
    hide Inv, Shaky, Unseen, HandsOfUsers;
    RipeFresh(c, s, z);
    ShakyShape(c, s, z);
    assert !Settling(s.ios[m]);
    OwnerFacts(c, Credited(c, s, z), s.ios[m].blk);
    var o := s.tree[s.ios[m].blk];
    assert !Settling(s.ios[o]);
    TaskFacts(c, Credited(c, s, z), o);
  }

  // The GC task at the head of the worker's list finds its slot held, and parks.
  lemma ParkOne(c: Config, s: State, z: nat) returns (run: seq<Label>, s': State)
    requires Parking(c, s, z) && s.sched.batch != []
    ensures Drift(c, z, s, run, s') && Shaky(c, s', z) && Unseen(s') == 0
    ensures var m := s.sched.batch[0];
            && m in s.ios && IsMove(s.ios[m]) && s.ios[m].st.ReadDone? && Held(s.ios, s.tree, m)
            && s'.tree == s.tree && s'.sched == s.sched.(batch := s.sched.batch[1..])
            && var h := s.tree[s.ios[m].blk];
               s'.ios == s.ios[m := s.ios[m].(st := Parked(h))][h := s.ios[h].(pendingGc := Some(m))]
  {
    hide Shaky, Unseen, Drift, Held, WellFormed, Enabled, Apply, HandsReady;
    var m := s.sched.batch[0];
    ParkHead(c, s, z);
    WorkerGently(c, s, z, LNext);
    var s1 := Worked(s, LNext);
    SchedUnseen(s, s1.sched);
    MeetHost(c, s1, z, m);
    var s2 := Apply(c, s1, LInsert(m));
    DriftShaky(c, z, s1, [LInsert(m)], s2);
    DriftOn(c, z, s, [LNext], s1, [LInsert(m)], s2);
    ParkHost(c, s1, s2, z, m);
    s' := Apply(c, s2, LResolve(m));
    DriftShaky(c, z, s2, [LResolve(m)], s');
    run := [LNext] + [LInsert(m)] + [LResolve(m)];
    DriftOn(c, z, s, [LNext] + [LInsert(m)], s2, [LResolve(m)], s');
    NextParked(s.sched);
  }

  lemma NextParked(q: Sched)
    requires q.batch != [] && q.busy.None? && q.batch[0] !in q.turns
    ensures EndTurn(TakeNext(q), q.batch[0]) == q.(batch := q.batch[1..])
    ensures InTurn(TakeNext(q), q.batch[0])
  {
    assert q.turns[q.batch[0] := Going({})] - {q.batch[0]} == q.turns;
  }

  lemma ParkHead(c: Config, s: State, z: nat)
    requires Parking(c, s, z) && s.sched.batch != []
    ensures var m := s.sched.batch[0];
            && m in s.ios && IsMove(s.ios[m]) && s.ios[m].st.ReadDone? && Held(s.ios, s.tree, m)
            && m !in s.sched.turns && InTurn(TakeNext(s.sched), m) && Shaky(c, s, z)
  {
    hide Shaky, Unseen, Held, HandsReady, Inv;
    PlacedParts(c.streams, s.ios, s.sched);
    var m := s.sched.batch[0];
    ShakyShape(c, s, z);
    assert m in s.sched.batch;
    assert PageRead(FaceOf(s.ios, m)) && m !in s.sched.turns;
    NextParked(s.sched);
  }

  // It is owed an allocation before and after.
  lemma MeetHost(c: Config, s: State, z: nat, m: nat)
    requires Shaky(c, s, z) && m in s.ios && IsMove(s.ios[m]) && s.ios[m].st.ReadDone? && Held(s.ios, s.tree, m)
    requires InTurn(s.sched, m)
    ensures WellFormed(c, s) && Enabled(c, s, LInsert(m)) && Drift(c, z, s, [LInsert(m)], Apply(c, s, LInsert(m)))
    ensures var s1, h := Apply(c, s, LInsert(m)), s.tree[s.ios[m].blk];
            && h != m && s1.tree == s.tree && s1.sched == s.sched && Unseen(s1) == Unseen(s)
            && s1.ios == s.ios[h := s.ios[h].(rc := s.ios[h].rc + 1)][m := s.ios[m].(st := Conflict(h))]
  {
    hide Inv, WellFormed, Todo, Unseen, NoneTried, Placed, Credited, Drift, Shaky, Effect, Queues;
    ShakyShape(c, s, z);
    InsertIs(c, s, m);
    hide Enabled, Apply;
    CreditedApply(c, s, z, LInsert(m));
    var w := Credited(c, s, z);
    StepUnseen(c, w, LInsert(m));
    StepTodo(c, w, LInsert(m));
    CreditedTodo(c, s, z);
    SameTodo(c, w, LInsert(m));
    CreditedTodo(c, Apply(c, s, LInsert(m)), z);
    GentleStep(c, s, z, LInsert(m));
  }

  lemma InsertIs(c: Config, s: State, m: nat)
    requires WellFormed(c, s) && CanInsert(s, m) && InTurn(s.sched, m) && s.ios[m].blk in s.tree
    requires s.tree[s.ios[m].blk] in s.ios && s.ios[s.tree[s.ios[m].blk]].Task?
    ensures Enabled(c, s, LInsert(m))
    ensures var s1, h := Apply(c, s, LInsert(m)), s.tree[s.ios[m].blk];
            && s1.tree == s.tree && s1.sched == s.sched
            && s1.ios == s.ios[h := s.ios[h].(rc := s.ios[h].rc + 1)][m := s.ios[m].(st := Conflict(h))]
  {
    hide WellFormed;
  }

  // What it is owed passes to its host, which is still to allocate.
  lemma ParkHost(c: Config, s: State, s1: State, z: nat, m: nat)
    requires Shaky(c, s, z) && m in s.ios && IsMove(s.ios[m]) && s.ios[m].st.ReadDone? && Held(s.ios, s.tree, m)
    requires InTurn(s.sched, m) && Shaky(c, s1, z) && s1.tree == s.tree && s1.sched == s.sched
    requires var h := s.tree[s.ios[m].blk];
             && h != m
             && s1.ios == s.ios[h := s.ios[h].(rc := s.ios[h].rc + 1)][m := s.ios[m].(st := Conflict(h))]
    ensures WellFormed(c, s1) && Enabled(c, s1, LResolve(m))
    ensures Drift(c, z, s1, [LResolve(m)], Apply(c, s1, LResolve(m)))
    ensures var s2, h := Apply(c, s1, LResolve(m)), s.tree[s.ios[m].blk];
            && s2.tree == s.tree && s2.sched == EndTurn(s.sched, m) && Unseen(s2) == Unseen(s1)
            && s2.ios == s.ios[m := s.ios[m].(st := Parked(h))][h := s.ios[h].(pendingGc := Some(m))]
  {
    hide Inv, WellFormed, Todo, Unseen, NoneTried, Placed, Credited, Drift, Shaky, Effect, Queues;
    var h := s.tree[s.ios[m].blk];
    ShakyShape(c, s, z);
    ShakyShape(c, s1, z);
    CreditedTodo(c, s, z);
    TaskFacts(c, Credited(c, s, z), h);
    ResolveIs(c, s1, m);
    hide Enabled, Apply;
    CreditedApply(c, s1, z, LResolve(m));
    var w := Credited(c, s1, z);
    StepUnseen(c, w, LResolve(m));
    StepTodo(c, w, LResolve(m));
    CreditedTodo(c, s1, z);
    ParkedTodo(c, w, m);
    CreditedTodo(c, Apply(c, s1, LResolve(m)), z);
    GentleStep(c, s1, z, LResolve(m));
  }

  lemma ResolveIs(c: Config, s: State, m: nat)
    requires WellFormed(c, s) && CanResolve(s, m) && s.ios[m].kind.Mover? && InTurn(s.sched, m)
    requires s.ios[m].st.host in s.ios && s.ios[m].st.host != m && IsUser(s.ios[s.ios[m].st.host])
    requires s.ios[s.ios[m].st.host].rc > 1
    ensures Enabled(c, s, LResolve(m))
    ensures var s1, h := Apply(c, s, LResolve(m)), s.ios[m].st.host;
            && s1.tree == s.tree && s1.sched == EndTurn(s.sched, m)
            && s1.ios == s.ios[m := s.ios[m].(st := Parked(h))]
                              [h := s.ios[h].(pendingGc := Some(m), rc := s.ios[h].rc - 1)]
  {
    hide WellFormed;
  }

  lemma ParkedTodo(c: Config, w: State, m: nat)
    requires WellFormed(c, w) && Enabled(c, w, LResolve(m)) && m in w.ios && IsMove(w.ios[m]) && w.ios[m].st.Conflict?
    requires TodoAfter(c, w, LResolve(m), Todo(w.ios), Todo(Effect(c, w, LResolve(m)).ios))
    requires w.ios[m].st.host in w.ios && w.ios[w.ios[m].st.host].Task? && w.ios[w.ios[m].st.host].st.Alloc?
    ensures |Todo(Apply(c, w, LResolve(m)).ios)| == |Todo(w.ios)|
  {
    hide WellFormed, Enabled, Effect, Todo;
    var todo, h := Todo(w.ios), w.ios[m].st.host;
    assert |todo - {m}| == |todo| - 1 && |todo - {m} + {h}| == |todo|;
  }

  lemma ParkingOn(c: Config, s: State, z: nat, s': State)
    requires Parking(c, s, z) && s.sched.batch != [] && Shaky(c, s', z) && Unseen(s') == 0
    requires var m := s.sched.batch[0];
             && m in s.ios && IsMove(s.ios[m]) && s.ios[m].st.ReadDone? && Held(s.ios, s.tree, m)
             && s'.tree == s.tree && s'.sched == s.sched.(batch := s.sched.batch[1..])
             && var h := s.tree[s.ios[m].blk];
                s'.ios == s.ios[m := s.ios[m].(st := Parked(h))][h := s.ios[h].(pendingGc := Some(m))]
    ensures Parking(c, s', z)
  {
    hide Shaky, Unseen;
    var m := s.sched.batch[0];
    OneMoveEach(c, s, z, m);
  }

  lemma OneMoveEach(c: Config, s: State, z: nat, m: nat)
    requires Shaky(c, s, z) && m in s.ios && IsMove(s.ios[m])
    ensures forall u <- s.ios :: IsMove(s.ios[u]) && u != m ==> s.ios[u].blk != s.ios[m].blk
  {
    hide Inv, MapsInverse, LandedPages, LifeCycle, Counts, RefsExact, Tasks, Coverage, TriedStreams, InRange, Totals,
         Reserve, WellFormed;
    ShakyShape(c, s, z);
    PartsMakeInv(c, Credited(c, s, z));
  }

  /** All GC tasks that are owed an allocation have parked, and their hosts are owed it. */
  lemma {:induction false} ParkAll(c: Config, s: State, z: nat) returns (run: seq<Label>, s': State)
    requires Parking(c, s, z)
    ensures Parking(c, s', z) && s'.sched.batch == [] && Drift(c, z, s, run, s')
    decreases |s.sched.batch|
  {
    hide Shaky, Drift, Unseen, Held, HandsReady;
    if s.sched.batch == [] {
      run, s' := [], s;
      DriftNone(c, z, s);
    } else {
      var first, s1 := ParkOne(c, s, z);
      ParkingOn(c, s, z, s1);
      var rest;
      rest, s' := ParkAll(c, s1, z);
      run := first + rest;
      DriftOn(c, z, s, first, s1, rest, s');
    }
  }

  // ---------------------------------------------------------------------- the hosts take their turn

  /** Only hosts of parked GC tasks are owed anything. */
  ghost predicate Armed(c: Config, s: State, z: nat) {
    && Shaky(c, s, z) && Unseen(s) == 0 && s.sched.busy.None? && s.sched.gcWrites == []
    && HandsReady(s.ios, s.sched)
    && forall m <- s.ios :: IsMove(s.ios[m]) ==> s.ios[m].st.Parked? || s.ios[m].st.Finishing?
  }

  lemma AllParked(c: Config, s: State, z: nat)
    requires Parking(c, s, z) && s.sched.batch == []
    ensures Armed(c, s, z)
  {
    hide Inv, Unseen, Held, Placed, Shaky, FaceOf;
    forall m | m in s.ios && IsMove(s.ios[m])
      ensures !s.ios[m].st.ReadDone?
    {
      NoneWaits(c, s, z, m);
    }
  }

  lemma NoneWaits(c: Config, s: State, z: nat, m: nat)
    requires Parking(c, s, z) && s.sched.batch == [] && m in s.ios && IsMove(s.ios[m])
    ensures !s.ios[m].st.ReadDone?
  {
    hide Inv, Unseen, Held, Apart;
    ShakyIs(c, s, z);
    PlacedParts(c.streams, s.ios, s.sched);
    assert FaceOf(s.ios, m).Face? ==> Somewhere(s.sched, m);
  }

  lemma ArmedTodo(c: Config, s: State, z: nat, t: nat)
    requires Armed(c, s, z) && t in Todo(s.ios)
    ensures Host(s.ios, t) && s.ios[t].st == Alloc({}) && UsesReserve(s.ios[t])
    ensures t in s.sched.turns || t in s.sched.pending || t in s.sched.batch
  {
    hide Inv, Unseen, HandsReady, Apart;
    ShakyIs(c, s, z);
    PlacedParts(c.streams, s.ios, s.sched);
    TodoMatch(s.ios, t);
    assert FaceOf(s.ios, t) == Face(User, Alloc({}));
    assert Somewhere(s.sched, t);
  }

  /** A GC-flagged task is about to be attempted, and no stream has room. */
  ghost predicate Doomed(c: Config, s: State, t: nat) {
    && WellFormed(c, s) && t in s.ios && s.ios[t].Task? && UsesReserve(s.ios[t])
    && (forall k: nat :: k < c.streams ==> Enabled(c, s, LTryAlloc(t, k)) && !HasRoom(s, k))
    && |s.active| == c.streams > 0
  }

  predicate Host(ios: map<nat, Io>, t: nat) {
    t in ios && IsUser(ios[t]) && ios[t].pendingGc.Some?
  }

  // t has its block, and nothing else has moved.
  ghost predicate Served(s: State, s': State, t: nat) {
    && t in s.ios && s.ios[t].Task? && t in s'.ios && s'.ios[t].Task? && s'.ios[t].st.Writing?
    && s'.ios == s.ios[t := s.ios[t].(st := s'.ios[t].st)] && s'.sched == EndTurn(s.sched, t)
    && Todo(s'.ios) == Todo(s.ios) - {t} && Unseen(s') == Unseen(s)
  }

  lemma ServedEnabled(c: Config, s: State, t: nat, k: nat)
    requires WellFormed(c, s) && Enabled(c, s, LTryAlloc(t, k))
    ensures CanAlloc(s, t, k) && InTurn(s.sched, t)
  {
    hide WellFormed;
  }

  // An attempt for which there is room.
  lemma ServedStep(c: Config, s: State, z: nat, t: nat, k: nat) returns (s': State)
    requires Shaky(c, s, z) && WellFormed(c, s) && CanAlloc(s, t, k) && Enabled(c, s, LTryAlloc(t, k)) && HasRoom(s, k)
    requires Host(s.ios, t)
    ensures Drift(c, z, s, [LTryAlloc(t, k)], s') && Served(s, s', t)
  {
    hide WellFormed, Todo, Unseen, Credited, Sound, NoneTried, Apply, Enabled, Drift, Served;
    ShakyIs(c, s, z);
    var l := LTryAlloc(t, k);
    ServedEnabled(c, s, t, k);
    HostReserves(c, s, t);
    ServedParts(c, s, t, k);
    s' := Apply(c, s, l);
    ShakyShape(c, s, z);
    ServedCredited(c, s, z, t, k);
    StepKeepsSound(c, Credited(c, s, z), l);
    ServedLess(s, s', t);
    DriftOne(c, z, s, l);
  }

  lemma HostReserves(c: Config, s: State, t: nat)
    requires Host(s.ios, t)
    ensures UsesReserve(s.ios[t]) && !Refused(c, s, t)
  {
  }

  lemma ServedLess(s: State, s': State, t: nat)
    requires Served(s, s', t) && t in Todo(s.ios)
    ensures |Todo(s'.ios)| + Unseen(s') == |Todo(s.ios)| + Unseen(s) - 1
  {
    hide Todo, Unseen;
  }

  lemma ServedParts(c: Config, s: State, t: nat, k: nat)
    requires WellFormed(c, s) && CanAlloc(s, t, k) && Enabled(c, s, LTryAlloc(t, k)) && HasRoom(s, k) && Host(s.ios, t)
    ensures var s' := Apply(c, s, LTryAlloc(t, k));
            Served(s, s', t) && s'.allocable == s.allocable - 1 && s'.gc == s.gc && t in Todo(s.ios)
  {
    hide WellFormed, Todo, Unseen, TryAlloc, Enabled, Apply;
    var s1 := TryAlloc(c, s, t, k);
    HostReserves(c, s, t);
    ServedIs(c, s, t, k);
    TryAllocShape(c, s, t, k);
    AttemptTodo(c, s, t, k);
    AttemptUnseen(c, s, t, k);
    AttemptScan(c, s, t, k);
    SchedUnseen(s1, EndTurn(s.sched, t));
  }

  lemma ServedIs(c: Config, s: State, t: nat, k: nat)
    requires WellFormed(c, s) && CanAlloc(s, t, k) && Enabled(c, s, LTryAlloc(t, k)) && HasRoom(s, k)
    requires !Refused(c, s, t)
    ensures Apply(c, s, LTryAlloc(t, k)) == TryAlloc(c, s, t, k).(sched := EndTurn(s.sched, t))
  {
    hide WellFormed, TryAlloc;
  }

  lemma ServedCredited(c: Config, s: State, z: nat, t: nat, k: nat)
    requires WellFormed(c, s) && z < c.zones && NoneTried(s.ios) && CanAlloc(s, t, k)
    requires Enabled(c, s, LTryAlloc(t, k)) && HasRoom(s, k) && !Refused(c, s, t)
    ensures var w, l := Credited(c, s, z), LTryAlloc(t, k);
            && WellFormed(c, w) && Enabled(c, w, l) && NoneTried(Apply(c, s, l).ios)
            && Apply(c, w, l) == Credited(c, Apply(c, s, l), z)
  {
    hide WellFormed, Credited, Whole, TryAlloc, Inv, Placed, Todo, Unseen, NoneTried;
    ForgiveNothing(s.ios);
    WholeCredited(c, s, z);
    WholeShape(c, s, z);
    CreditedTodo(c, s, z);
    ServedIs(c, s, t, k);
    CommuteAttempt(c, s, z, t, k);
    var s1 := TryAlloc(c, s, t, k);
    TryAllocShape(c, s, t, k);
    StillUntried(s.ios, t, s1.ios[t]);
    ForgiveNothing(s1.ios);
    WholeCredited(c, s1, z);
    CreditedSched(c, s1, z, EndTurn(s.sched, t));
    ServedIs(c, Credited(c, s, z), t, k);
  }

  lemma CreditedSched(c: Config, s: State, z: nat, q: Sched)
    ensures Credited(c, s.(sched := q), z) == Credited(c, s, z).(sched := q)
  {
  }

  lemma StillUntried(ios: map<nat, Io>, t: nat, io: Io)
    requires NoneTried(ios) && io.Task? && io.st.Writing?
    ensures NoneTried(ios[t := io])
  {
  }

  // The host has its block, or no stream has room for it.
  lemma Fire(c: Config, s: State, z: nat, t: nat) returns (ok: bool, k: nat, s': State)
    requires Shaky(c, s, z) && Host(s.ios, t) && s.ios[t].st == Alloc({})
    requires t in s.sched.turns && s.sched.turns[t] == Going({})
    ensures ok ==> Drift(c, z, s, [LTryAlloc(t, k)], s') && Served(s, s', t)
    ensures !ok ==> s' == s && Doomed(c, s, t)
  {
    hide Shaky, WellFormed, Drift, Served, HasRoom, Enabled;
    ShakyShape(c, s, z);
    FireEnabled(c, s, t);
    s' := s;
    ok := exists k: nat :: k < c.streams && HasRoom(s, k);
    if ok {
      k :| k < c.streams && HasRoom(s, k);
      s' := ServedStep(c, s, z, t, k);
    } else {
      k := 0;
    }
  }

  lemma FireEnabled(c: Config, s: State, t: nat)
    requires WellFormed(c, s) && Host(s.ios, t) && s.ios[t].st == Alloc({}) && |s.active| == c.streams
    requires t in s.sched.turns && s.sched.turns[t] == Going({})
    ensures UsesReserve(s.ios[t])
    ensures forall k: nat :: k < c.streams ==> CanAlloc(s, t, k) && Enabled(c, s, LTryAlloc(t, k))
  {
    hide WellFormed;
    var none: set<nat> := {};
    assert forall k :: k !in none;
  }

  lemma ServedArmed(c: Config, s: State, z: nat, s': State, t: nat)
    requires Armed(c, s, z) && Served(s, s', t) && Shaky(c, s', z) && Host(s.ios, t)
    ensures Armed(c, s', z)
  {
    hide Shaky, Unseen, Todo;
  }

  // What the hands do once the GC tasks are parked.
  lemma {:induction false} FireHands(c: Config, s: State, z: nat)
      returns (run: seq<Label>, s': State, t: nat, doom: bool)
    requires Armed(c, s, z)
    ensures Drift(c, z, s, run, s')
    ensures doom ==> Doomed(c, s', t)
    ensures !doom ==> Armed(c, s', z) && s'.sched.batch == s.sched.batch && s'.sched.pass == s.sched.pass
    ensures !doom ==> forall u <- s'.sched.turns :: u !in Todo(s'.ios)
    decreases |s.sched.turns|
  {
    hide Shaky, Drift, Served, Todo, Unseen, HandsReady, Doomed, FaceOf;
    run, s', t, doom := [], s, 0, false;
    DriftNone(c, z, s);
    if u :| u in s.sched.turns && u in Todo(s.ios) {
      ArmedTodo(c, s, z, u);
      HandReady(s.ios, s.sched, u);
      var ok, k, s1 := Fire(c, s, z, u);
      if ok {
        DriftShaky(c, z, s, [LTryAlloc(u, k)], s1);
        ServedArmed(c, s, z, s1, u);
        ServedTurns(s, s1, u);
        var rest;
        rest, s', t, doom := FireHands(c, s1, z);
        run := [LTryAlloc(u, k)] + rest;
        DriftOn(c, z, s, [LTryAlloc(u, k)], s1, rest, s');
      } else {
        t, doom := u, true;
      }
    }
  }

  lemma HandReady(ios: map<nat, Io>, q: Sched, u: nat)
    requires HandsReady(ios, q) && u in q.turns
    ensures q.turns[u] == Going({})
  {
  }

  lemma ServedTurns(s: State, s': State, t: nat)
    requires Served(s, s', t) && t in s.sched.turns
    ensures |s'.sched.turns| == |s.sched.turns| - 1
    ensures s'.sched.batch == s.sched.batch && s'.sched.pass == s.sched.pass
  {
    hide Todo, Unseen;
    SizeRemove(s.sched.turns, t);
  }

  /** The worker is at its list of writes, and it holds all that are owed anything. */
  ghost predicate Firing(c: Config, s: State, z: nat) {
    Armed(c, s, z) && s.sched.pass.Writes? && forall t <- Todo(s.ios) :: t in s.sched.batch
  }

  lemma ArmedSched(c: Config, s: State, z: nat, q: Sched)
    requires Armed(c, s, z) && Shaky(c, s.(sched := q), z) && q.turns == s.sched.turns && q.gcWrites == s.sched.gcWrites
    requires q.busy == s.sched.busy
    ensures Armed(c, s.(sched := q), z)
  {
    hide Shaky, Unseen, FaceOf;
    SchedUnseen(s, q);
  }

  lemma StartFiring(c: Config, s: State, z: nat) returns (run: seq<Label>, s': State)
    requires Armed(c, s, z) && s.sched.pass.Copies? && s.sched.batch == []
    requires forall u <- s.sched.turns :: u !in Todo(s.ios)
    ensures Firing(c, s', z) && Drift(c, z, s, run, s')
  {
    hide Shaky, Drift, Unseen, Todo, HandsReady;
    var s1 := Worked(s, LRest);
    WorkerGently(c, s, z, LRest);
    ArmedSched(c, s, z, s1.sched);
    s' := Worked(s1, LTakeWrites);
    WorkerGently(c, s1, z, LTakeWrites);
    ArmedSched(c, s1, z, s'.sched);
    run := [LRest] + [LTakeWrites];
    DriftOn(c, z, s, [LRest], s1, [LTakeWrites], s');
    forall t | t in Todo(s.ios)
      ensures t in s.sched.pending
    {
      ArmedTodo(c, s, z, t);
    }
  }

  // The worker takes the next write of its list in hand.
  lemma NextArmed(c: Config, s: State, z: nat) returns (s1: State)
    requires Firing(c, s, z) && s.sched.batch != []
    ensures Drift(c, z, s, [LNext], s1) && Shaky(c, s1, z) && s1 == s.(sched := TakeNext(s.sched)) && Unseen(s1) == 0
    ensures var t := s.sched.batch[0];
            && t in s1.sched.turns && s1.sched.turns[t] == Going({}) && t !in s.sched.turns
            && (t in Todo(s.ios) ==> Host(s.ios, t) && s.ios[t].st == Alloc({}))
            && (t !in Todo(s.ios) ==> Plain(s1, t))
  {
    hide Shaky, Drift, Todo, Unseen, HandsReady;
    WorkerGently(c, s, z, LNext);
    s1 := Worked(s, LNext);
    SchedUnseen(s, s1.sched);
    HeadOfWrites(c, s, z);
    if s.sched.batch[0] in Todo(s.ios) { ArmedTodo(c, s, z, s.sched.batch[0]); }
  }

  lemma HeadOfWrites(c: Config, s: State, z: nat)
    requires Firing(c, s, z) && s.sched.batch != []
    ensures var t := s.sched.batch[0];
            && t !in s.sched.turns && FaceOf(s.ios, t).Face? && t in s.ios && IsUser(s.ios[t])
            && (t !in Todo(s.ios) ==> s.ios[t].pendingGc.None?)
  {
    hide Inv, Unseen, HandsReady;
    PlacedParts(c.streams, s.ios, s.sched);
    var t := s.sched.batch[0];
    ShakyShape(c, s, z);
    assert t in s.sched.batch && AtRest(FaceOf(s.ios, t));
    CreditedTodo(c, s, z);
    TaskFacts(c, Credited(c, s, z), t);
  }

  lemma ServedFiring(c: Config, s: State, z: nat, s1: State, s2: State)
    requires Firing(c, s, z) && s.sched.batch != [] && s1 == s.(sched := TakeNext(s.sched))
    requires s.sched.batch[0] !in s.sched.turns && Host(s.ios, s.sched.batch[0])
    requires Served(s1, s2, s.sched.batch[0]) && Shaky(c, s2, z)
    ensures Firing(c, s2, z) && s2.sched.batch == s.sched.batch[1..]
  {
    hide Shaky, Unseen, Todo;
    NextParked(s.sched);
    SchedUnseen(s, s1.sched);
    assert s.sched.batch == [s.sched.batch[0]] + s.sched.batch[1..];
  }

  lemma RefusedFiring(c: Config, s: State, z: nat, s1: State, s2: State)
    requires Firing(c, s, z) && s.sched.batch != [] && s1 == s.(sched := TakeNext(s.sched))
    requires s.sched.batch[0] !in s.sched.turns && s.sched.batch[0] !in Todo(s.ios)
    requires TurnOver(s1, s2, s.sched.batch[0]) && Shaky(c, s2, z)
    ensures Firing(c, s2, z) && s2.sched.batch == s.sched.batch[1..]
  {
    hide Shaky, Unseen, Todo;
    var t := s.sched.batch[0];
    NextParked(s.sched);
    SchedUnseen(s, s1.sched);
    assert s.sched.batch == [t] + s.sched.batch[1..];
    forall m | m in s2.ios && IsMove(s2.ios[m])
      ensures s2.ios[m].st.Parked? || s2.ios[m].st.Finishing?
    {
      assert m != t && SameBut(s.ios[m], s2.ios[m]);
    }
    forall u | u in s2.sched.turns
      ensures FaceOf(s2.ios, u) == FaceOf(s.ios, u)
    {
      assert u != t && u in s.ios && u in s2.ios && SameBut(s.ios[u], s2.ios[u]);
    }
  }

  // What is left to allocate is never less than nothing.
  lemma NoDebt(c: Config, s: State, z: nat)
    requires Shaky(c, s, z)
    ensures s.allocable >= 0
  {
    hide Inv, MapsInverse, LandedPages, LifeCycle, Counts, RefsExact, Tasks, Moves, Coverage, TriedStreams, InRange,
         Reserve, WellFormed, Total, Placed, Todo, Unseen;
    ShakyShape(c, s, z);
    var w := Credited(c, s, z);
    PartsMakeInv(c, w);
    CreditedZone(c, w, z);
    forall i | 0 <= i < |w.zones|
      ensures w.zones[i].wp <= c.cap
    {
      WrittenBelowCap(c, w, i);
    }
    FreeAddsUp(c.cap, w.zones, z);
  }

  lemma WrittenBelowCap(c: Config, s: State, i: nat)
    requires Inv(c, s) && i < |s.zones|
    ensures s.zones[i].wp <= c.cap
  {
    hide Inv;
    ZoneFacts(c, s, i);
  }

  lemma {:induction false} FreeAddsUp(cap: nat, zones: seq<Zone>, i: nat)
    requires forall j :: 0 <= j < |zones| ==> zones[j].wp <= cap
    ensures Total(cap, Free, zones) >= if i < |zones| then cap - zones[i].wp else 0
  {
    if zones != [] {
      FreeAddsUp(cap, zones[1..], if i > 0 then i - 1 else |zones|);
    }
  }

  // With its list at the end the worker would have served everybody, which there is no space for.
  lemma SomethingToFire(c: Config, s: State, z: nat)
    requires Firing(c, s, z)
    ensures s.sched.batch != []
  {
    hide Sound, Unseen, Todo, NoneTried;
    ShakyIs(c, s, z);
    NoDebt(c, s, z);
    assert s.sched.batch == [] ==> Todo(s.ios) == {};
  }

  /** Sooner or later the worker takes a host in hand that no stream has room for. */
  lemma {:induction false} FireBatch(c: Config, s: State, z: nat) returns (run: seq<Label>, s': State, t: nat)
    requires Firing(c, s, z)
    ensures Drift(c, z, s, run, s') && Doomed(c, s', t)
    decreases |s.sched.batch|
  {
    hide Shaky, Drift, Served, TurnOver, Todo, Unseen, HandsReady, Doomed, Firing, Plain, FaceOf;
    SomethingToFire(c, s, z);
    var s1 := NextArmed(c, s, z);
    t := s.sched.batch[0];
    var first, s2 := [], s1;
    if t in Todo(s.ios) {
      var ok, k, s3 := Fire(c, s1, z, t);
      if !ok { return [LNext], s1, t; }
      first, s2 := [LTryAlloc(t, k)], s3;
      DriftShaky(c, z, s1, first, s2);
      ServedFiring(c, s, z, s1, s2);
    } else {
      first, s2 := PlainTurn(c, s1, z, t);
      DriftShaky(c, z, s1, first, s2);
      RefusedFiring(c, s, z, s1, s2);
    }
    DriftOn(c, z, s, [LNext], s1, first, s2);
    var rest;
    rest, s', t := FireBatch(c, s2, z);
    run := [LNext] + first + rest;
    DriftOn(c, z, s, [LNext] + first, s2, rest, s');
  }

  // -------------------------------------------------------------------------------- the choice

  lemma ChoiceIsShaky(c: Config, s: State, z: nat, v: nat)
    requires WellFormed(c, s) && Enabled(c, s, LSelect(v)) && z < c.zones && NoneTried(s.ios)
    requires Sound(c, Credited(c, s, z)) && v < |s.zones| && s.zones[v].weight > s.allocable
    ensures var s' := Apply(c, s, LSelect(v));
            && Shaky(c, s', z) && s'.ios == s.ios && s'.sched == s.sched && s'.gc == Some(Scan(v, 0, true))
            && v < |s'.zones|
  {
    hide Sound, WellFormed, Enabled, Apply, Todo, Unseen, NoneTried, Credited, Whole;
    CreditedApply(c, s, z, LSelect(v));
    StepKeepsSound(c, Credited(c, s, z), LSelect(v));
    SoundInv(c, Credited(c, s, z));
    ForgiveNothing(s.ios);
    WholeCredited(c, s, z);
    SelectOwed(c, s, z, v);
    SelectShape(c, s, v);
  }

  lemma ChoiceIsFresh(c: Config, s: State, z: nat)
    requires Sound(c, Credited(c, s, z)) && s.gc.None?
    ensures Early(s.ios) && HandsOfUsers(s.ios, s.sched)
  {
    hide Inv;
    PlacedParts(c.streams, s.ios, s.sched);
    NoGcNoMoves(c, Credited(c, s, z));
    NobodyCarries(c, Credited(c, s, z));
    hide Apart, TurnOk;
    assert forall t :: FaceOf(s.ios, t).Face? ==> FaceOf(s.ios, t).kind.User?;
  }

  lemma NobodyCarries(c: Config, w: State)
    requires Inv(c, w) && forall t :: t in w.ios ==> !IsMove(w.ios[t])
    ensures forall t <- w.ios :: w.ios[t].Task? ==> w.ios[t].pendingGc.None?
  {
    hide Inv, MapsInverse, LandedPages, LifeCycle, Counts, RefsExact, Moves, Coverage, TriedStreams, InRange, Totals,
         Reserve, WellFormed, TreeLinks, ConflictLinks, StatusOk;
    PartsMakeInv(c, w);
  }

  // From the choice to the worker's list of GC tasks.
  lemma ToParking(c: Config, s: State, z: nat) returns (run: seq<Label>, s': State)
    requires Fresh(c, s, z) && s.gc.Some? && s.gc.value.base && s.gc.value.zone < |s.zones|
    ensures Parking(c, s', z) && Drift(c, z, s, run, s')
  {
    hide Fresh, Ripe, Drift, Shaky, Unheld, FaceOf;
    var a, s1 := WalkOn(c, s, z);
    var b, s2 := SettleAll(c, s1, z);
    DriftOn(c, z, s, a, s1, b, s2);
    var d, s3 := HandsDown(c, s2, z);
    DriftOn(c, z, s, a + b, s2, d, s3);
    var e, s4 := WorkerWrites(c, s3, z);
    DriftOn(c, z, s, a + b + d, s3, e, s4);
    var f, s5 := DrainPlain(c, s4, z);
    DriftOn(c, z, s, a + b + d + e, s4, f, s5);
    var g, s6 := HoldAll(c, s5, z);
    DriftOn(c, z, s, a + b + d + e + f, s5, g, s6);
    StartParking(c, s6, z);
    s' := Worked(s6, LTakeCopies);
    DriftOn(c, z, s, a + b + d + e + f + g, s6, [LTakeCopies], s');
    run := a + b + d + e + f + g + [LTakeCopies];
  }

  // And from there to a host that no stream has room for.
  lemma ToDoom(c: Config, s: State, z: nat) returns (run: seq<Label>, s': State, t: nat)
    requires Parking(c, s, z)
    ensures Drift(c, z, s, run, s') && Doomed(c, s', t)
  {
    hide Armed, Drift, Shaky, Doomed, Firing, Todo;
    var a, s1 := ParkAll(c, s, z);
    AllParked(c, s1, z);
    var b, s2, u, doom := FireHands(c, s1, z);
    DriftOn(c, z, s, a, s1, b, s2);
    if doom {
      return a + b, s2, u;
    }
    var d, s3 := StartFiring(c, s2, z);
    DriftOn(c, z, s, a + b, s2, d, s3);
    var e;
    e, s', t := FireBatch(c, s3, z);
    DriftOn(c, z, s, a + b + d, s3, e, s');
    run := a + b + d + e;
  }

  /** A victim that holds more valid blocks than can be allocated before the credit: steps of
      operations under way and of writes that come in lead, for any number of streams, to a
      GC-flagged task that is about to be attempted and that no stream has room for. */
  lemma UnaffordableStarves(c: Config, s: State, z: nat, v: nat) returns (run: seq<Label>, s': State, t: nat)
    requires WellFormed(c, s) && Enabled(c, s, LSelect(v)) && z < c.zones && NoneTried(s.ios)
    requires Sound(c, Credited(c, s, z)) && !Affordable(s, v)
    ensures Run(c, Apply(c, s, LSelect(v)), run) == Some(s') && Doomed(c, s', t)
    ensures forall i :: 0 <= i < |run| ==> Inner(run[i])
  {
    hide Sound, WellFormed, Shaky, Early, HandsOfUsers, Doomed, NoneTried, Apply, Run;
    SelectShape(c, s, v);
    ChoiceIsShaky(c, s, z, v);
    ChoiceIsFresh(c, s, z);
    var s1 := Apply(c, s, LSelect(v));
    var a, s2 := ToParking(c, s1, z);
    var b;
    b, s', t := ToDoom(c, s2, z);
    DriftOn(c, z, s1, a, s2, b, s');
    run := a + b;
    DriftIs(c, z, s1, run, s');
  }

  // ------------------------------------------------------------------- exactly when it is safe

  function Dos(run: seq<Label>): (steps: seq<Step>)
    ensures |steps| == |run| && forall i :: 0 <= i < |run| ==> steps[i] == Do(run[i])
  {
    seq(|run|, i requires 0 <= i < |run| => Do(run[i]))
  }

  // Inner steps go on between the halves as they do in the machine, and choose no victim.
  lemma {:induction false} InnerHalfRun(c: Config, s: State, z: nat, run: seq<Label>, s': State, e: Step)
    requires Run(c, s, run) == Some(s') && forall i :: 0 <= i < |run| ==> Inner(run[i])
    requires CanStep(c, Half(s', Some(z)), e) && e.Do? && Inner(e.l)
    ensures HalfRun(c, Half(s, Some(z)), Dos(run)) == Some(Half(s', Some(z)))
    ensures Sparing(c, Half(s, Some(z)), Dos(run) + [e])
    ensures Fails(Half(s', Some(z)), e) ==> !Smooth(c, Half(s, Some(z)), Dos(run) + [e])
    decreases |run|
  {
    hide WellFormed, Enabled, Apply, Fails;
    if run == [] {
      assert Dos(run) + [e] == [e] && [e][1..] == [];
    } else {
      var h := Half(s, Some(z));
      assert CanStep(c, h, Do(run[0])) && After(c, h, Do(run[0])) == Half(Apply(c, s, run[0]), Some(z));
      assert Dos(run)[1..] == Dos(run[1..]) && (Dos(run) + [e])[1..] == Dos(run[1..]) + [e];
      InnerHalfRun(c, Apply(c, s, run[0]), z, run[1..], s', e);
    }
  }

  // Tasks wait in their places between the halves, too.
  ghost predicate HalfSound(c: Config, h: Half) {
    match h.credit
    case None => Sound(c, h.s)
    case Some(z) => z < c.zones && Sound(c, Credited(c, h.s, z))
  }

  lemma OneStreamSound(c: Config, h: Half, e: Step)
    requires c.streams == 1 && HalfInv(c, h) && NoneTried(h.s.ios) && HalfSound(c, h)
    requires CanStep(c, h, e) && Spares(h, e)
    ensures HalfSound(c, After(c, h, e))
  {
    hide Sound, WellFormed, Enabled, Apply, Credited, Unflagged, NoneTried, HalfInv, Todo, Unseen;
    match e
    case Do(l) =>
      StepAllowed(c, h, l);
      if h.credit.None? {
        StepKeepsSound(c, h.s, l);
      } else if l.LTryAlloc? {
        OneStreamStep(c, h, e);
        AttemptSound(c, h, l);
      } else {
        CreditedApply(c, h.s, h.credit.value, l);
        StepKeepsSound(c, Credited(c, h.s, h.credit.value), l);
      }
    case Unflag(z) =>
      ResetSound(c, h.s, z);
      Halves(c, h.s, z);
    case Credit =>
  }

  lemma AttemptSound(c: Config, h: Half, l: Label)
    requires c.streams == 1 && NoneTried(h.s.ios) && HalfSound(c, h) && h.credit.Some? && CanStep(c, h, Do(l))
    requires l.LTryAlloc? && !Fails(h, Do(l))
    ensures HalfSound(c, After(c, h, Do(l)))
  {
    hide WellFormed, Inv, Placed, TryAlloc, Credited, NoneTried;
    var s, t, k, z := h.s, l.t, l.stream, h.credit.value;
    if !Refused(c, s, t) && HasRoom(s, k) {
      ServedCredited(c, s, z, t, k);
      StepKeepsSound(c, Credited(c, s, z), l);
    } else {
      RefusedSound(c, s, z, t, k);
    }
  }

  lemma ResetSound(c: Config, s: State, z: nat)
    requires Sound(c, s) && CanReset(s, z)
    ensures Sound(c, Reset(c, s, z)) && z < c.zones
  {
    hide Inv, Placed, WellFormed;
    SoundShape(c, s);
    ZonesOf(c, s);
    StepKeepsSound(c, s, LReset(z));
  }

  lemma {:induction false} SparingSound(c: Config, h: Half, run: seq<Step>)
    requires c.streams == 1 && HalfInv(c, h) && NoneTried(h.s.ios) && HalfSound(c, h) && Sparing(c, h, run)
    ensures HalfRun(c, h, run).Some? ==> HalfSound(c, HalfRun(c, h, run).value)
    decreases |run|
  {
    hide HalfInv, HalfSound, CanStep, After, Spares, NoneTried;
    if run != [] && CanStep(c, h, run[0]) {
      OneStreamStep(c, h, run[0]);
      OneStreamSound(c, h, run[0]);
      SparingSound(c, After(c, h, run[0]), run[1..]);
    }
  }

  lemma SparingState(c: Config, before: seq<Step>, h: Half)
    requires c.Valid() && c.streams == 1 && HalfRun(c, Half(Initial(c), None), before) == Some(h)
    requires Sparing(c, Half(Initial(c), None), before)
    ensures HalfInv(c, h) && NoneTried(h.s.ios) && HalfSound(c, h)
  {
    hide HalfInv, HalfRun, Sparing, Inv, Placed;
    InitialSound(c);
    SoundInv(c, Initial(c));
    InitialHalf(c);
    SparingKeeps(c, Half(Initial(c), None), before);
    SparingSound(c, Half(Initial(c), None), before);
  }

  /** With one stream: after any run that was sparing so far, choosing v between the halves is safe,
      that is, no GC-flagged attempt fails however the device goes on sparingly, exactly when v
      holds no more valid blocks than can be allocated. */
  lemma EarlyChoiceIff(c: Config, before: seq<Step>, h: Half, v: nat)
    requires c.Valid() && c.streams == 1 && HalfRun(c, Half(Initial(c), None), before) == Some(h)
    requires Sparing(c, Half(Initial(c), None), before) && h.credit.Some? && CanStep(c, h, Do(LSelect(v)))
    ensures (forall run :: Sparing(c, After(c, h, Do(LSelect(v))), run) ==> Smooth(c, After(c, h, Do(LSelect(v))), run))
       <==> Affordable(h.s, v)
  {
    hide HalfInv, HalfRun, Sparing, Smooth, CanStep, After, NoneTried, HalfSound;
    SparingState(c, before, h);
    var h1 := After(c, h, Do(LSelect(v)));
    if Affordable(h.s, v) {
      OneStreamStep(c, h, Do(LSelect(v)));
      forall run | Sparing(c, h1, run)
        ensures Smooth(c, h1, run)
      {
        SparingKeeps(c, h1, run);
      }
    } else {
      var run := StarvingRun(c, h, v);
    }
  }

  lemma StarvingRun(c: Config, h: Half, v: nat) returns (run: seq<Step>)
    requires NoneTried(h.s.ios) && HalfSound(c, h) && h.credit.Some? && CanStep(c, h, Do(LSelect(v)))
    requires !Affordable(h.s, v)
    ensures Sparing(c, After(c, h, Do(LSelect(v))), run) && !Smooth(c, After(c, h, Do(LSelect(v))), run)
  {
    hide Sound, WellFormed, Enabled, Apply, Run, NoneTried, Sparing, Smooth, HasRoom;
    StepAllowed(c, h, LSelect(v));
    var z := h.credit.value;
    var labels, s', t := UnaffordableStarves(c, h.s, z, v);
    var e := Do(LTryAlloc(t, 0));
    InnerHalfRun(c, Apply(c, h.s, LSelect(v)), z, labels, s', e);
    run := Dos(labels) + [e];
  }

  // -------------------------------------------------------------------- with any number of streams

  // No stream has room for t, which has tried all before k in vain and may try the others.
  ghost predicate Losing(c: Config, s: State, t: nat, k: nat) {
    && WellFormed(c, s) && t in s.ios && s.ios[t].Task? && UsesReserve(s.ios[t]) && s.ios[t].st.Alloc?
    && |s.active| == c.streams && s.empty == []
    && (forall i: nat :: i < c.streams ==> s.active[i].None?)
    && (forall i: nat :: i < k ==> i in s.ios[t].st.tried)
    && (k < c.streams ==> InTurn(s.sched, t))
    && (forall i: nat :: k <= i < c.streams ==> i !in s.ios[t].st.tried && i !in s.sched.turns[t].failed)
  }

  lemma LoseOne(c: Config, s: State, t: nat, k: nat)
    requires Losing(c, s, t, k) && k < c.streams
    ensures Enabled(c, s, LTryAlloc(t, k)) && Losing(c, Apply(c, s, LTryAlloc(t, k)), t, k + 1)
  {
    var s' := Apply(c, s, LTryAlloc(t, k));
    assert s' == s.(ios := s'.ios, sched := s'.sched);
    assert s'.ios == s.ios[t := s.ios[t].(st := Alloc(s.ios[t].st.tried + {k}))];
    SameShape(c, s, s', t);
    hide WellFormed;
    if k + 1 < c.streams {
      assert k + 1 !in s.sched.turns[t].failed + {k};
    }
  }

  lemma SameShape(c: Config, s: State, s': State, t: nat)
    requires WellFormed(c, s) && t in s.ios && s.ios[t].Task? && s' == s.(ios := s'.ios, sched := s'.sched)
    requires t in s'.ios && s'.ios[t].Task? && s'.ios[t].st.Alloc? && s.ios[t].st.Alloc?
    requires s'.ios == s.ios[t := s.ios[t].(st := s'.ios[t].st)]
    ensures WellFormed(c, s')
  {
    forall u | u in s'.ios
      ensures IoInRange(c, s'.zones, s'.ios, s'.ios[u])
    {
      assert IoInRange(c, s.zones, s.ios, s.ios[u]);
    }
  }

  lemma {:induction false} LoseAll(c: Config, s: State, t: nat, k: nat) returns (run: seq<Label>, s': State)
    requires Losing(c, s, t, k) && k <= c.streams
    ensures Run(c, s, run) == Some(s') && Starved(c, s', t)
    ensures forall i :: 0 <= i < |run| ==> Inner(run[i])
    decreases c.streams - k
  {
    hide WellFormed, Apply, Enabled;
    if k == c.streams {
      run, s' := [], s;
    } else {
      LoseOne(c, s, t, k);
      var rest;
      rest, s' := LoseAll(c, Apply(c, s, LTryAlloc(t, k)), t, k + 1);
      run := [LTryAlloc(t, k)] + rest;
      assert run[1..] == rest;
    }
  }

  lemma DoomLoses(c: Config, s: State, t: nat)
    requires Doomed(c, s, t)
    ensures Losing(c, s, t, 0)
  {
    hide WellFormed;
    assert Enabled(c, s, LTryAlloc(t, 0)) && !HasRoom(s, 0);
    forall i: nat | i < c.streams
      ensures s.active[i].None? && i !in s.ios[t].st.tried && i !in s.sched.turns[t].failed
    {
      assert Enabled(c, s, LTryAlloc(t, i)) && !HasRoom(s, i);
    }
  }

  // Inner steps between the halves heed whatever there is to heed.
  lemma {:induction false} InnerHeeds(c: Config, s: State, z: nat, run: seq<Label>, s': State)
    requires Run(c, s, run) == Some(s') && forall i :: 0 <= i < |run| ==> Inner(run[i])
    ensures HalfRun(c, Half(s, Some(z)), Dos(run)) == Some(Half(s', Some(z)))
    ensures Heedful(c, Half(s, Some(z)), Dos(run))
    decreases |run|
  {
    hide WellFormed, Enabled, Apply;
    if run != [] {
      var h := Half(s, Some(z));
      assert CanStep(c, h, Do(run[0])) && After(c, h, Do(run[0])) == Half(Apply(c, s, run[0]), Some(z));
      assert Dos(run)[1..] == Dos(run[1..]);
      InnerHeeds(c, Apply(c, s, run[0]), z, run[1..], s');
    }
  }

  // However the device goes on heeding both, no GC-flagged task runs out of streams.
  ghost predicate NeverStarves(c: Config, h: Half) {
    forall run, t :: Heedful(c, h, run) && HalfRun(c, h, run).Some? ==> !Starved(c, HalfRun(c, h, run).value.s, t)
  }

  lemma SoundHalf(c: Config, h: Half)
    requires HalfSound(c, h) && h.credit.Some? && h.s.gc.None?
    ensures HalfInv(c, h) && NoneTried(h.s.ios)
  {
    hide Inv, Placed, Whole, Credited, NoneTried, TriedStreams;
    CreditTried(c, h.s, h.credit.value);
    ForgiveNothing(h.s.ios);
    WholeCredited(c, h.s, h.credit.value);
    NoneTriedStreams(h.s.ios, h.s.empty, h.s.active);
  }

  /** With any number of streams: in a state between the halves that is sound once credited, choosing
      v is safe, that is, no GC-flagged task runs out of streams however the device goes on heeding
      both, exactly when v holds no more valid blocks than can be allocated. */
  lemma ChoiceIff(c: Config, h: Half, v: nat)
    requires HalfSound(c, h) && h.credit.Some? && CanStep(c, h, Do(LSelect(v)))
    ensures NeverStarves(c, After(c, h, Do(LSelect(v)))) <==> Affordable(h.s, v)
  {
    hide HalfInv, HalfSound, HalfRun, Heedful, After, Starved, NoneTried, WellFormed, IsVictim;
    SoundHalf(c, h);
    var h1 := After(c, h, Do(LSelect(v)));
    if Affordable(h.s, v) {
      StepKeepsHalf(c, h, Do(LSelect(v)));
      forall run, t | Heedful(c, h1, run) && HalfRun(c, h1, run).Some?
        ensures !Starved(c, HalfRun(c, h1, run).value.s, t)
      {
        KeptNeverStarves(c, h1, run, t);
      }
    } else {
      var run, t := StarvingHeeds(c, h, v);
    }
  }

  lemma StarvingHeeds(c: Config, h: Half, v: nat) returns (run: seq<Step>, t: nat)
    requires NoneTried(h.s.ios) && HalfSound(c, h) && h.credit.Some? && CanStep(c, h, Do(LSelect(v)))
    requires !Affordable(h.s, v)
    ensures var h1 := After(c, h, Do(LSelect(v)));
            Heedful(c, h1, run) && HalfRun(c, h1, run).Some? && Starved(c, HalfRun(c, h1, run).value.s, t)
  {
    hide Sound, WellFormed, Enabled, Apply, Run, NoneTried, Heedful, Starved, HalfRun, Doomed, Losing, Dos;
    StepAllowed(c, h, LSelect(v));
    var z, s1 := h.credit.value, Apply(c, h.s, LSelect(v));
    var a, s2, u := UnaffordableStarves(c, h.s, z, v);
    DoomLoses(c, s2, u);
    var b, s3 := LoseAll(c, s2, u, 0);
    RunConcat(c, s1, a, s2, b);
    InnerHeeds(c, s1, z, a + b, s3);
    run, t := Dos(a + b), u;
  }
}
