/** The retry worker's two loops and one turn of the collector thread. */
module Retry {
  import opened Machine
  import opened Invariant
  import opened Frames
  import opened TreeSteps
  import opened ZoneSteps
  import opened Runs
  import opened Guarantees
  import opened Placement
  import opened ExactlyOnce
  import opened Driver
  import opened Turns

  // ------------------------------------------------------- what one turn leaves alone

  // A task that only its own steps can move.
  predicate Steady(io: Io) {
    io.Task? && !io.st.Done? && !io.st.Parked?
  }

  predicate Same(a: Io, b: Io)
    requires a.Task?
  {
    b.Task? && b.kind == a.kind && b.st == a.st && b.blk == a.blk
  }

  // Outside us, steady tasks stay as they are, parked GC tasks stay with their host or are
  // called back, and no GC task comes to life.
  ghost predicate Kept(ios: map<nat, Io>, ios': map<nat, Io>, us: seq<nat>) {
    && (forall t <- ios :: t !in us && Steady(ios[t]) ==> t in ios' && Same(ios[t], ios'[t]))
    && (forall t :: t !in us && Carried(ios, t) ==> Carried(ios', t))
    && (forall t :: t !in us && Live(ios', t) ==> Live(ios, t))
  }

  lemma ReleaseKept(ios: map<nat, Io>, h: nat, n: nat, u: nat)
    requires h in ios && ios[h].Task? && (h == u || (ios[h].rc <= n ==> ios[h].st.Done?))
    requires ios[h].pendingGc.Some? ==>
               var g := ios[h].pendingGc.value;
               g in ios && ios[g].Task? && (g == u || (ios[g].kind.Mover? && ios[g].st.Parked?))
    ensures Kept(ios, Release(ios, h, n), [u])
  {
  }

  lemma KeptThrough(a: map<nat, Io>, b: map<nat, Io>, d: map<nat, Io>, us: seq<nat>)
    requires Kept(a, b, us) && Kept(b, d, us)
    ensures Kept(a, d, us)
  {
    hide Carried, Live;
  }

  lemma KeptWider(a: map<nat, Io>, b: map<nat, Io>, u: nat, us: seq<nat>)
    requires Kept(a, b, [u]) && u in us
    ensures Kept(a, b, us)
  {
    hide Carried, Live, Same, Steady;
    assert forall t :: t !in us ==> t !in [u];
  }

  lemma ResolveKept(c: Config, s: State, u: nat)
    requires Inv(c, s) && CanResolve(s, u)
    ensures WellFormed(c, s) && Kept(s.ios, Resolve(c, s, u).ios, [u])
  {
    hide Inv, WellFormed, Release, RefsExact, Kept, MapsInverse, LandedPages, LifeCycle, Counts, Totals, TreeLinks,
         ConflictLinks, ParkLinks, StatusOk, Moves, Coverage, Reserve, TriedStreams, InRange;
    PartsMakeInv(c, s);
    ConflictFacts(c, s, u);
    var io, h := s.ios[u], s.ios[u].st.host;
    if io.kind.User? {
      var idle := s.ios[u := io.(st := Init)];
      DropConflict(s.ios, u, io.(st := Init));
      LastRef(idle, h, 1);
      if s.ios[h].pendingGc.Some? { ParkedMover(c, s, h); }
      ReleaseKept(idle, h, 1, u);
      UpdateKept(s.ios, u, io.(st := Init));
      KeptThrough(s.ios, idle, Release(idle, h, 1), [u]);
    } else {
      var parked := Park(s.ios, u, h);
      ParkRefs(s.ios, u, h);
      LastRef(parked, h, 1);
      ReleaseKept(parked, h, 1, u);
      ParkKept(s.ios, u, h);
      KeptThrough(s.ios, parked, Release(parked, h, 1), [u]);
    }
  }

  lemma UpdateKept(ios: map<nat, Io>, u: nat, io: Io)
    ensures Kept(ios, ios[u := io], [u])
  {
  }

  lemma ParkKept(ios: map<nat, Io>, u: nat, h: nat)
    requires u in ios && h in ios && ios[u].Task? && ios[h].Task?
    ensures Kept(ios, Park(ios, u, h), [u])
  {
  }

  lemma FinishKept(c: Config, s: State, u: nat)
    requires Inv(c, s) && CanFinish(s, u)
    ensures WellFormed(c, s) && Kept(s.ios, Finish(c, s, u).ios, [u])
  {
    hide Inv, WellFormed, Release, Kept;
    InvShape(c, s);
    TaskFacts(c, s, u);
    var done := s.ios[u := s.ios[u].(st := Done)];
    ReleaseKept(done, u, 1, u);
    UpdateKept(s.ios, u, done[u]);
    KeptThrough(s.ios, done, Release(done, u, 1), [u]);
  }

  lemma AllocKept(c: Config, s: State, u: nat, k: nat)
    requires WellFormed(c, s) && CanAlloc(s, u, k)
    ensures Kept(s.ios, TryAlloc(c, s, u, k).ios, [u])
  {
    hide WellFormed, TryAlloc, Kept;
    TryAllocShape(c, s, u, k);
    UpdateKept(s.ios, u, TryAlloc(c, s, u, k).ios[u]);
  }

  lemma InsertKept(c: Config, s: State, u: nat)
    requires Inv(c, s) && CanInsert(s, u)
    ensures WellFormed(c, s) && Kept(s.ios, Insert(c, s, u).ios, [u])
  {
    hide Inv, WellFormed;
    InvShape(c, s);
    if s.ios[u].blk in s.tree { MeetsUser(c, s, u); }
  }

  lemma StepKept(c: Config, s: State, l: Label, u: nat)
    requires Inv(c, s) && Enabled(c, s, l) && OwnStep(l, u)
    ensures Kept(s.ios, Apply(c, s, l).ios, [u])
  {
    hide Inv, WellFormed, Insert, Resolve, TryAlloc, Finish, Kept, Queues;
    InvShape(c, s);
    match l
    case LInsert(_) => InsertKept(c, s, u);
    case LResolve(_) => ResolveKept(c, s, u);
    case LTryAlloc(_, k) => AllocKept(c, s, u, k);
    case LFinish(_) => FinishKept(c, s, u);
    case LRecheck(_) => UpdateKept(s.ios, u, Recheck(s, u).ios[u]);
  }

  /** A task's own turn moves no other task that is not waiting for someone's callback. */
  lemma {:induction false} TurnKept(c: Config, s: State, trace: seq<Label>, u: nat)
    requires Inv(c, s) && Run(c, s, trace).Some? && OwnTurn(trace, u)
    ensures Kept(s.ios, Run(c, s, trace).value.ios, [u])
    decreases |trace|
  {
    hide Inv, WellFormed, Enabled, Apply, Kept;
    if trace == [] {
      NothingKept(s.ios, [u]);
    } else {
      StepKept(c, s, trace[0], u);
      StepKeepsInv(c, s, trace[0]);
      TurnKept(c, Apply(c, s, trace[0]), trace[1..], u);
      KeptThrough(s.ios, Apply(c, s, trace[0]).ios, Run(c, s, trace).value.ios, [u]);
    }
  }

  lemma NothingKept(ios: map<nat, Io>, us: seq<nat>)
    ensures Kept(ios, ios, us)
  {
  }

  lemma RequeueKept(c: Config, s: State, t: nat)
    requires WellFormed(c, s) && Enabled(c, s, LRequeue(t))
    ensures Kept(s.ios, Apply(c, s, LRequeue(t)).ios, [t])
  {
    hide WellFormed, Kept, Queues;
    NothingKept(s.ios, [t]);
    if CanRequeue(s, t) { UpdateKept(s.ios, t, Requeue(s, t).ios[t]); }
  }

  // --------------------------------------------------------------------- what a pass has done

  // One turn of a loop of the worker: the states around it and its steps.
  datatype Entry = Entry(before: State, steps: seq<Label>, after: State)

  // Each turn starts where the one before it has ended, the first in s.
  ghost predicate Chained(log: seq<Entry>, s: State) {
    && (log != [] ==> log[0].before == s)
    && forall i :: 0 < i < |log| ==> log[i].before == log[i - 1].after
  }

  function EndOf(log: seq<Entry>, s: State): State {
    if log == [] then s else log[|log| - 1].after
  }

  function Steps(log: seq<Entry>): seq<Label> {
    if log == [] then [] else Steps(log[..|log| - 1]) + log[|log| - 1].steps
  }

  /** The worker takes t off its list, submits it once, and possibly puts it back in its queue. */
  ghost predicate WorkerTurn(c: Config, t: nat, e: Entry) {
    && Run(c, e.before, e.steps) == Some(e.after)
    && e.steps != [] && e.steps[0].LNext?
    && (forall i :: 1 <= i < |e.steps| ==> OwnStep(e.steps[i], t) || e.steps[i] == LRequeue(t))
    && e.before.sched.batch != [] && e.before.sched.batch[0] == t
    && e.after.sched.batch == e.before.sched.batch[1..]
  }

  /** And t is a user write: it is dispatched exactly if it could be, to the zone its block's stream
      leads to, else queued again. */
  ghost predicate WriteTurn(c: Config, streamOf: nat -> nat, t: nat, e: Entry) {
    && WorkerTurn(c, t, e) && t in e.before.ios && IsUser(e.before.ios[t])
    && Decided(c, e.after.ios, t, e)
    && (Passable(c, e.before, t) ==> LandsIn(e.before, streamOf(e.before.ios[t].blk), e.after.ios[t].st.zone))
    && e.after.sched.pending == e.before.sched.pending + if Passable(c, e.before, t) then [] else [t]
  }

  // Write t is on the device if it could be dispatched when its turn came, else at rest.
  ghost predicate Decided(c: Config, ios: map<nat, Io>, t: nat, e: Entry) {
    && t in e.before.ios && e.before.ios[t].Task? && t in ios && IsUser(ios[t])
    && if Passable(c, e.before, t) then ios[t].st.Writing? else AtRest(FaceOf(ios, t))
  }

  ghost predicate AllDecided(c: Config, ios: map<nat, Io>, queue: seq<nat>, log: seq<Entry>)
    requires |log| <= |queue|
  {
    forall i :: 0 <= i < |log| ==> Decided(c, ios, queue[i], log[i])
  }

  ghost predicate WriteTurns(c: Config, streamOf: nat -> nat, queue: seq<nat>, log: seq<Entry>)
    requires |log| <= |queue|
  {
    forall i :: 0 <= i < |log| ==> WriteTurn(c, streamOf, queue[i], log[i])
  }

  // Or t is a GC task, and its turn ends as it must.
  ghost predicate CopyTurn(c: Config, streamOf: nat -> nat, t: nat, outcome: Outcome, e: Entry) {
    && WorkerTurn(c, t, e) && t in e.before.ios && e.before.ios[t].Task? && Verdict(e.before, t, outcome)
    && Ended(e.after.ios, t, outcome)
    && (outcome.Dispatched? ==> LandsIn(e.before, streamOf(e.before.ios[t].blk), e.after.ios[t].st.zone))
  }

  ghost predicate CopyTurns(c: Config, streamOf: nat -> nat, queue: seq<nat>, outcomes: seq<Outcome>, log: seq<Entry>)
    requires |log| == |outcomes| <= |queue|
  {
    forall i :: 0 <= i < |log| ==> CopyTurn(c, streamOf, queue[i], outcomes[i], log[i])
  }

  lemma EmptyLog(s: State, l: Label)
    ensures Chained([], s) && EndOf([], s) == s && [l] + Steps([]) == [l]
  {
  }

  lemma StepsSnoc(c: Config, s: State, start: State, first: seq<Label>, log: seq<Entry>, e: Entry)
    requires Chained(log, start) && e.before == EndOf(log, start)
    requires Run(c, s, first + Steps(log)) == Some(e.before) && Run(c, e.before, e.steps) == Some(e.after)
    ensures Chained(log + [e], start) && EndOf(log + [e], start) == e.after
    ensures Run(c, s, first + Steps(log + [e])) == Some(e.after)
  {
    hide Run;
    assert (log + [e])[..|log|] == log;
    RunConcat(c, s, first + Steps(log), e.before, e.steps);
    assert first + Steps(log) + e.steps == first + Steps(log + [e]);
  }

  lemma {:induction false} TurnsAreQuiet(c: Config, queue: seq<nat>, log: seq<Entry>)
    requires |log| <= |queue| && forall i :: 0 <= i < |log| ==> WorkerTurn(c, queue[i], log[i])
    ensures AllQuiet(Steps(log))
  {
    hide Run;
    if log != [] {
      TurnsAreQuiet(c, queue, log[..|log| - 1]);
      assert WorkerTurn(c, queue[|log| - 1], log[|log| - 1]);
    }
  }

  lemma WriteTurnsAre(c: Config, streamOf: nat -> nat, queue: seq<nat>, log: seq<Entry>)
    requires |log| <= |queue| && WriteTurns(c, streamOf, queue, log)
    ensures forall i :: 0 <= i < |log| ==> WorkerTurn(c, queue[i], log[i])
  {
    hide WorkerTurn, Decided;
  }

  lemma CopyTurnsAre(c: Config, streamOf: nat -> nat, queue: seq<nat>, outcomes: seq<Outcome>, log: seq<Entry>)
    requires |log| == |outcomes| <= |queue| && CopyTurns(c, streamOf, queue, outcomes, log)
    ensures forall i :: 0 <= i < |log| ==> WorkerTurn(c, queue[i], log[i])
  {
    hide WorkerTurn;
  }

  lemma DecidedStays(c: Config, ios: map<nat, Io>, ios': map<nat, Io>, us: seq<nat>, queue: seq<nat>, log: seq<Entry>)
    requires Kept(ios, ios', us) && |log| <= |queue| && AllDecided(c, ios, queue, log)
    requires forall i :: 0 <= i < |log| ==> queue[i] !in us
    ensures AllDecided(c, ios', queue, log)
  {
    hide Passable;
    forall i | 0 <= i < |log|
      ensures Decided(c, ios', queue[i], log[i])
    {
      assert Decided(c, ios, queue[i], log[i]);
    }
  }

  /** While a zone's worth of blocks is left, every task is admitted. */
  lemma SpaceAdmits(c: Config, s: State, t: nat)
    requires Inv(c, s) && c.cap <= s.allocable && t in s.ios && s.ios[t].Task?
    ensures Admitted(c, s, t)
  {
    hide Inv;
    InvShape(c, s);
    SpaceIsSomewhere(c, s);
    if s.empty == [] {
      var k :| 0 <= k < |s.active| && s.active[k].Some?;
      assert s.active[k].Some?;
    }
  }

  // ------------------------------------------------------------------- the pass over the writes

  // The tasks of the queue that are not dispatched, in the order of the queue.
  ghost function Undispatched(ios: map<nat, Io>, queue: seq<nat>): seq<nat> {
    if queue == [] then []
    else
      var last := queue[|queue| - 1];
      Undispatched(ios, queue[..|queue| - 1]) + if FaceOf(ios, last).Face? then [last] else []
  }

  // A user write that has had its turn.
  predicate HadTurn(ios: map<nat, Io>, t: nat) {
    t in ios && IsUser(ios[t]) && (ios[t].st.Writing? || AtRest(FaceOf(ios, t)))
  }

  ghost predicate AllHadTurn(ios: map<nat, Io>, queue: seq<nat>) {
    forall i :: 0 <= i < |queue| ==> HadTurn(ios, queue[i])
  }

  lemma HadTurnStays(ios: map<nat, Io>, ios': map<nat, Io>, us: seq<nat>, t: nat)
    requires Kept(ios, ios', us) && t !in us && HadTurn(ios, t)
    ensures HadTurn(ios', t) && FaceOf(ios', t) == FaceOf(ios, t)
  {
  }

  lemma {:induction false} UndispatchedStays(ios: map<nat, Io>, ios': map<nat, Io>, us: seq<nat>, queue: seq<nat>)
    requires Kept(ios, ios', us) && AllHadTurn(ios, queue) && forall i :: 0 <= i < |queue| ==> queue[i] !in us
    ensures AllHadTurn(ios', queue) && Undispatched(ios', queue) == Undispatched(ios, queue)
  {
    hide Kept, HadTurn, FaceOf;
    if queue != [] {
      UndispatchedStays(ios, ios', us, queue[..|queue| - 1]);
      HadTurnStays(ios, ios', us, queue[|queue| - 1]);
    }
  }

  // One more task of the queue has had its turn.
  lemma PassedNext(ios: map<nat, Io>, ios': map<nat, Io>, queue: seq<nat>, n: nat)
    requires n < |queue| && Distinct(queue) && Kept(ios, ios', [queue[n]])
    requires AllHadTurn(ios, queue[..n]) && HadTurn(ios', queue[n])
    ensures AllHadTurn(ios', queue[..n + 1])
    ensures Undispatched(ios', queue[..n + 1])
            == Undispatched(ios, queue[..n]) + if FaceOf(ios', queue[n]).Face? then [queue[n]] else []
  {
    hide Kept, HadTurn, FaceOf;
    assert queue[..n + 1][..n] == queue[..n];
    UndispatchedStays(ios, ios', [queue[n]], queue[..n]);
  }

  // The queues once the worker's next task has had its turn.
  function AfterNext(q: Sched, again: bool): Sched
    requires q.batch != []
  {
    q.(batch := q.batch[1..], pending := if again then q.pending + [q.batch[0]] else q.pending)
  }

  lemma NextIsGone(q: Sched)
    requires q.batch != [] && q.busy.None? && q.batch[0] !in q.turns
    ensures var t := q.batch[0];
            && EndTurn(TakeNext(q), t) == AfterNext(q, false)
            && Enqueue(FailTurn(TakeNext(q), t), t) == AfterNext(q, true)
  {
    var t := q.batch[0];
    assert q.turns[t := Going({})] - {t} == q.turns;
    assert q.turns[t := Going({})][t := Failed] - {t} == q.turns;
  }

  // What the worker's next task looks like, and that nobody else has it in hand.
  lemma BatchHead(c: Config, s: State)
    requires Sound(c, s) && s.sched.batch != []
    ensures s.sched.batch[0] !in s.sched.turns && |s.active| == c.streams
    ensures s.sched.pass.Writes? ==> AtRest(FaceOf(s.ios, s.sched.batch[0]))
    ensures s.sched.pass.Copies? ==> PageRead(FaceOf(s.ios, s.sched.batch[0]))
  {
    hide Inv, FaceOf, TurnOk, WellFormed;
    PlacedParts(c.streams, s.ios, s.sched);
    SoundShape(c, s);
    ActiveSize(c, s);
    assert s.sched.batch[0] in s.sched.batch;
  }

  /** One turn of the loop in __retry_submit_io_task. */
  method RetryNext(dev: Lbz, streamOf: nat -> nat) returns (t: nat, ghost e: Entry)
    requires dev.Valid() && dev.batch != [] && dev.sched.pass.Writes? && dev.sched.busy.None?
    requires forall b :: streamOf(b) < dev.c.streams
    modifies dev
    ensures dev.Valid() && e.before == old(dev.View()) && e.after == dev.View()
    ensures t == old(dev.batch)[0] && WriteTurn(dev.c, streamOf, t, e) && HadTurn(dev.ios, t)
    ensures Kept(old(dev.ios), dev.ios, [t])
    ensures dev.sched == AfterNext(old(dev.sched), FaceOf(dev.ios, t).Face?)
  {
    hide Sound, WellFormed, Enabled, Apply, Run, Kept, EndTurn, TakeNext, Enqueue, FailTurn, Admitted, LandsIn;
    ghost var s := dev.View();
    BatchHead(dev.c, s);
    NextIsGone(s.sched);
    t := dev.NextOfBatch();
    NextInHand(s.sched);
    ghost var s1, turn := dev.View(), [];
    AdmittedSched(dev.c, s, s1.sched, t);
    SameLanding(s, s1, streamOf(dev.ios[t].blk));
    var ok;
    ok, turn := dev.SubmitWrite(t, streamOf(dev.ios[t].blk));
    SoundInv(dev.c, s1);
    TurnKept(dev.c, s1, turn, t);
    if !ok {
      ghost var s2 := dev.View();
      FailedTurn(s1.sched, t);
      dev.AddToRetry(t);
      Snoc(dev.c, s1, turn, s2, LRequeue(t));
      turn := turn + [LRequeue(t)];
      RequeueKept(dev.c, s2, t);
      KeptThrough(s1.ios, s2.ios, dev.ios, [t]);
    }
    RunConcat(dev.c, s, [LNext], s1, turn);
    e := Entry(s, [LNext] + turn, dev.View());
  }

  lemma AdmittedSched(c: Config, s: State, q: Sched, t: nat)
    requires t in s.ios && s.ios[t].Task?
    ensures Admitted(c, s.(sched := q), t) <==> Admitted(c, s, t)
  {
  }

  lemma NextInHand(q: Sched)
    requires q.batch != []
    ensures q.batch[0] in TakeNext(q).turns && TakeNext(q).turns[q.batch[0]] == Going({})
  {
  }

  lemma FailedTurn(q: Sched, t: nat)
    ensures t in FailTurn(q, t).turns && FailTurn(q, t).turns[t].Failed?
  {
  }

  /** __retry_submit_io_task: every write of the queue is tried once, in order.  Each is dispatched
      exactly if it can be when its turn comes, and otherwise in the queue again; the queue holds
      exactly the latter, in their old order, and tasks outside the queue are left alone. */
  method RetryWrites(dev: Lbz, streamOf: nat -> nat) returns (ghost log: seq<Entry>)
    requires dev.Valid() && dev.sched.pass.Resting? && forall b :: streamOf(b) < dev.c.streams
    modifies dev
    ensures dev.Valid() && Run(dev.c, old(dev.View()), [LTakeWrites] + Steps(log)) == Some(dev.View())
    ensures |log| == |old(dev.pending)| && WriteTurns(dev.c, streamOf, old(dev.pending), log)
    ensures Chained(log, Spliced(old(dev.View()))) && EndOf(log, Spliced(old(dev.View()))) == dev.View()
    ensures AllDecided(dev.c, dev.ios, old(dev.pending), log)
    ensures AllHadTurn(dev.ios, old(dev.pending)) && dev.pending == Undispatched(dev.ios, old(dev.pending))
    ensures dev.sched == old(dev.sched).(pass := Writes, batch := [], pending := dev.pending)
    ensures Kept(old(dev.ios), dev.ios, old(dev.pending))
  {
    hide Sound, WellFormed, Enabled, Apply, Run, Kept, HadTurn, FaceOf, WriteTurn, Decided, Chained, EndOf, Steps;
    ghost var s := dev.View();
    ghost var queue := dev.pending;
    RestingWorker(dev.c, s);
    dev.SpliceWrites();
    log := [];
    EmptyLog(Spliced(s), LTakeWrites);
    NothingKept(dev.ios, queue);
    while dev.batch != []
      invariant |log| <= |queue| && dev.batch == queue[|log|..] && Distinct(queue)
      invariant dev.Valid() && Run(dev.c, s, [LTakeWrites] + Steps(log)) == Some(dev.View())
      invariant Chained(log, Spliced(s)) && EndOf(log, Spliced(s)) == dev.View()
      invariant WriteTurns(dev.c, streamOf, queue, log) && AllDecided(dev.c, dev.ios, queue, log)
      invariant AllHadTurn(dev.ios, queue[..|log|]) && dev.pending == Undispatched(dev.ios, queue[..|log|])
      invariant dev.sched == s.sched.(pass := Writes, batch := dev.batch, pending := dev.pending)
      invariant dev.sched.busy.None? && Kept(s.ios, dev.ios, queue)
      decreases |dev.batch|
    {
      ghost var before := dev.View();
      ghost var e;
      var t;
      t, e := RetryNext(dev, streamOf);
      TurnIsRun(dev.c, streamOf, t, e);
      StepsSnoc(dev.c, s, Spliced(s), [LTakeWrites], log, e);
      PassedNext(before.ios, dev.ios, queue, |log|);
      DecidedStays(dev.c, before.ios, dev.ios, [t], queue, log);
      KeptWider(before.ios, dev.ios, t, queue);
      KeptThrough(s.ios, before.ios, dev.ios, queue);
      log := log + [e];
    }
    assert queue[..|log|] == queue;
  }

  // The state once the worker has taken the queue of writes, or the queue of GC tasks.
  function Spliced(s: State): State {
    s.(sched := TakeWrites(s.sched))
  }

  function SplicedCopies(s: State): State {
    s.(sched := TakeCopies(s.sched))
  }

  lemma TurnIsRun(c: Config, streamOf: nat -> nat, t: nat, e: Entry)
    requires WriteTurn(c, streamOf, t, e)
    ensures Run(c, e.before, e.steps) == Some(e.after) && Decided(c, e.after.ios, t, e)
  {
    hide Run;
    assert WorkerTurn(c, t, e) && Decided(c, e.after.ios, t, e);
  }

  lemma RestingWorker(c: Config, s: State)
    requires Sound(c, s) && s.sched.pass.Resting?
    ensures s.sched.busy.None? && s.sched.batch == [] && Distinct(s.sched.pending)
  {
    hide Inv, FaceOf, TurnOk, Distinct;
    PlacedParts(c.streams, s.ios, s.sched);
  }

  // ------------------------------------------------------------------- the pass over the copies

  ghost predicate AllEnded(ios: map<nat, Io>, queue: seq<nat>, outcomes: seq<Outcome>)
    requires |outcomes| <= |queue|
  {
    forall i :: 0 <= i < |outcomes| ==> Ended(ios, queue[i], outcomes[i])
  }

  lemma NothingEnded(ios: map<nat, Io>, queue: seq<nat>)
    ensures AllEnded(ios, queue, [])
  {
  }

  lemma EndedNext(ios: map<nat, Io>, ios': map<nat, Io>, queue: seq<nat>, outcomes: seq<Outcome>, outcome: Outcome)
    requires |outcomes| < |queue| && Distinct(queue) && Kept(ios, ios', [queue[|outcomes|]])
    requires AllEnded(ios, queue, outcomes) && Ended(ios', queue[|outcomes|], outcome)
    ensures AllEnded(ios', queue, outcomes + [outcome])
  {
    hide Kept, Ended;
    forall i | 0 <= i < |outcomes|
      ensures Ended(ios', queue[i], outcomes[i])
    {
      EndedStays(ios, ios', [queue[|outcomes|]], queue[i], outcomes[i]);
    }
  }

  lemma EndedStays(ios: map<nat, Io>, ios': map<nat, Io>, us: seq<nat>, t: nat, outcome: Outcome)
    requires Kept(ios, ios', us) && t !in us && Ended(ios, t, outcome)
    ensures Ended(ios', t, outcome)
  {
  }

  /** One turn of the loop in __retry_submit_gc_task. */
  method CopyNext(dev: Lbz, streamOf: nat -> nat) returns (t: nat, outcome: Outcome, ghost e: Entry)
    requires dev.Valid() && dev.batch != [] && dev.sched.pass.Copies? && dev.sched.busy.None?
    requires forall b :: streamOf(b) < dev.c.streams
    modifies dev
    ensures dev.Valid() && e.before == old(dev.View()) && e.after == dev.View()
    ensures Run(dev.c, e.before, e.steps) == Some(e.after) && CopyTurn(dev.c, streamOf, t, outcome, e)
    ensures t == old(dev.batch)[0] && Ended(dev.ios, t, outcome) && Kept(old(dev.ios), dev.ios, [t])
    ensures dev.sched == AfterNext(old(dev.sched), false)
  {
    hide Sound, WellFormed, Enabled, Apply, Run, Kept, EndTurn, TakeNext, LandsIn;
    ghost var s := dev.View();
    BatchHead(dev.c, s);
    NextIsGone(s.sched);
    t := dev.NextOfBatch();
    NextInHand(s.sched);
    ghost var s1, turn := dev.View(), [];
    SameLanding(s, s1, streamOf(dev.ios[t].blk));
    outcome, turn := dev.SubmitGc(t, streamOf(dev.ios[t].blk));
    SoundInv(dev.c, s1);
    TurnKept(dev.c, s1, turn, t);
    RunConcat(dev.c, s, [LNext], s1, turn);
    e := Entry(s, [LNext] + turn, dev.View());
  }

  /** __retry_submit_gc_task: every GC task of the queue has its turn, in order, and parks exactly
      if its block has a writer then, is skipped if its block has moved, and is dispatched otherwise.
      None is queued again: the default branch and the -EAGAIN branch are dead. */
  method RetryGc(dev: Lbz, streamOf: nat -> nat) returns (outcomes: seq<Outcome>, ghost log: seq<Entry>)
    requires dev.Valid() && dev.sched.pass.Writes? && dev.batch == [] && dev.sched.busy.None?
    requires forall b :: streamOf(b) < dev.c.streams
    modifies dev
    ensures dev.Valid() && Run(dev.c, old(dev.View()), [LTakeCopies] + Steps(log)) == Some(dev.View())
    ensures |outcomes| == |old(dev.gcWrites)| && AllEnded(dev.ios, old(dev.gcWrites), outcomes)
    ensures |log| == |outcomes| && CopyTurns(dev.c, streamOf, old(dev.gcWrites), outcomes, log)
    ensures Chained(log, SplicedCopies(old(dev.View()))) && EndOf(log, SplicedCopies(old(dev.View()))) == dev.View()
    ensures dev.sched == old(dev.sched).(pass := Copies, gcWrites := [])
    ensures Kept(old(dev.ios), dev.ios, old(dev.gcWrites))
  {
    hide Sound, WellFormed, Enabled, Apply, Run, Kept, Ended, CopyTurn, Chained, EndOf, Steps, AllEnded, EndTurn;
    ghost var s := dev.View();
    ghost var queue := dev.gcWrites;
    WaitingCopies(dev.c, s);
    dev.SpliceCopies();
    outcomes, log := [], [];
    EmptyLog(SplicedCopies(s), LTakeCopies);
    NothingEnded(dev.ios, queue);
    NothingKept(dev.ios, queue);
    while dev.batch != []
      invariant |log| == |outcomes| <= |queue| && dev.batch == queue[|outcomes|..] && Distinct(queue)
      invariant dev.Valid() && Run(dev.c, s, [LTakeCopies] + Steps(log)) == Some(dev.View())
      invariant Chained(log, SplicedCopies(s)) && EndOf(log, SplicedCopies(s)) == dev.View()
      invariant CopyTurns(dev.c, streamOf, queue, outcomes, log)
      invariant AllEnded(dev.ios, queue, outcomes)
      invariant dev.sched == s.sched.(pass := Copies, batch := dev.batch, gcWrites := [])
      invariant dev.sched.busy.None? && Kept(s.ios, dev.ios, queue)
      decreases |dev.batch|
    {
      ghost var before := dev.View();
      ghost var e;
      var t, outcome;
      t, outcome, e := CopyNext(dev, streamOf);
      StepsSnoc(dev.c, s, SplicedCopies(s), [LTakeCopies], log, e);
      EndedNext(before.ios, dev.ios, queue, outcomes, outcome);
      KeptWider(before.ios, dev.ios, t, queue);
      KeptThrough(s.ios, before.ios, dev.ios, queue);
      outcomes := outcomes + [outcome];
      log := log + [e];
    }
  }

  lemma WaitingCopies(c: Config, s: State)
    requires Sound(c, s)
    ensures Distinct(s.sched.gcWrites) && forall t <- s.sched.pending :: t !in s.sched.gcWrites
  {
    hide Inv, FaceOf, TurnOk, Distinct;
    PlacedParts(c.streams, s.ios, s.sched);
  }

  /** The steps of a whole pass. */
  function PassSteps(writes: seq<Entry>, copies: seq<Entry>): seq<Label> {
    [LTakeWrites] + Steps(writes) + ([LTakeCopies] + Steps(copies)) + [LRest]
  }

  /** The retry worker: first the writes, then the GC tasks, each task of either queue in one turn of
      its own, in order, and nothing else.  A write is on the device in the end exactly if it could be
      dispatched when its turn came: it had its block's tree slot or nobody had it, the device was not
      too short of space for it, and some stream had room.  The others are the queue, in their old
      order.  The GC queue ends empty, each of its tasks parked, skipped or dispatched.  An observer
      sees nothing of it. */
  method RetryWork(dev: Lbz, streamOf: nat -> nat)
    returns (outcomes: seq<Outcome>, ghost writes: seq<Entry>, ghost copies: seq<Entry>)
    requires dev.Valid() && dev.sched.pass.Resting? && forall b :: streamOf(b) < dev.c.streams
    modifies dev
    ensures dev.Valid() && Run(dev.c, old(dev.View()), PassSteps(writes, copies)) == Some(dev.View())
    ensures |writes| == |old(dev.pending)| && WriteTurns(dev.c, streamOf, old(dev.pending), writes)
    ensures |copies| == |outcomes| == |old(dev.gcWrites)|
    ensures CopyTurns(dev.c, streamOf, old(dev.gcWrites), outcomes, copies)
    ensures Chained(writes, Spliced(old(dev.View())))
    ensures Chained(copies, SplicedCopies(EndOf(writes, Spliced(old(dev.View())))))
    ensures AllDecided(dev.c, dev.ios, old(dev.pending), writes)
    ensures AllHadTurn(dev.ios, old(dev.pending)) && dev.pending == Undispatched(dev.ios, old(dev.pending))
    ensures AllEnded(dev.ios, old(dev.gcWrites), outcomes)
    ensures dev.sched == old(dev.sched).(pending := dev.pending, gcWrites := [])
    ensures Unseen(old(dev.View()), dev.View()) && dev.mapping == old(dev.mapping)
    ensures old(dev.pending) != [] && dev.c.cap <= old(dev.allocable)
            && old(dev.pending)[0] in old(dev.ios) && old(dev.ios)[old(dev.pending)[0]].Task?
            && (old(dev.ios)[old(dev.pending)[0]].st.Alloc? || old(dev.ios)[old(dev.pending)[0]].blk !in old(dev.tree))
            ==> old(dev.pending)[0] in dev.ios && IsUser(dev.ios[old(dev.pending)[0]])
                && dev.ios[old(dev.pending)[0]].st.Writing?
  {
    hide Sound, WellFormed, Enabled, Apply, Run, Kept, HadTurn, Ended, FaceOf, WriteTurns, CopyTurns, AllDecided,
         Unseen, Chained, AllQuiet;
    ghost var s := dev.View();
    RestingWorker(dev.c, s);
    WaitingCopies(dev.c, s);
    SoundInv(dev.c, s);
    writes := RetryWrites(dev, streamOf);
    ghost var s1 := dev.View();
    outcomes, copies := RetryGc(dev, streamOf);
    RunConcat(dev.c, s, [LTakeWrites] + Steps(writes), s1, [LTakeCopies] + Steps(copies));
    UndispatchedStays(s1.ios, dev.ios, s.sched.gcWrites, s.sched.pending);
    DecidedStays(dev.c, s1.ios, dev.ios, s.sched.gcWrites, s.sched.pending, writes);
    ghost var s2 := dev.View();
    dev.EndPass();
    RunConcat(dev.c, s, [LTakeWrites] + Steps(writes) + ([LTakeCopies] + Steps(copies)), s2, [LRest]);
    PassIsQuiet(dev.c, streamOf, s.sched.pending, writes, s.sched.gcWrites, outcomes, copies);
    QuietRun(dev.c, s, PassSteps(writes, copies));
    if s.sched.pending != [] { FirstGoes(dev.c, s, dev.ios, s.sched.pending, writes); }
  }

  lemma PassIsQuiet(c: Config, streamOf: nat -> nat, queue: seq<nat>, writes: seq<Entry>, gcQueue: seq<nat>,
                    outcomes: seq<Outcome>, copies: seq<Entry>)
    requires |writes| <= |queue| && WriteTurns(c, streamOf, queue, writes)
    requires |copies| == |outcomes| <= |gcQueue| && CopyTurns(c, streamOf, gcQueue, outcomes, copies)
    ensures AllQuiet(PassSteps(writes, copies))
  {
    hide WriteTurns, CopyTurns, WorkerTurn;
    WriteTurnsAre(c, streamOf, queue, writes);
    TurnsAreQuiet(c, queue, writes);
    CopyTurnsAre(c, streamOf, gcQueue, outcomes, copies);
    TurnsAreQuiet(c, gcQueue, copies);
    QuietConcat([LTakeWrites], Steps(writes));
    QuietConcat([LTakeCopies], Steps(copies));
    QuietConcat([LTakeWrites] + Steps(writes), [LTakeCopies] + Steps(copies));
    QuietConcat([LTakeWrites] + Steps(writes) + ([LTakeCopies] + Steps(copies)), [LRest]);
  }

  // The first write of the queue finds the device as the pass does.
  lemma FirstGoes(c: Config, s: State, ios: map<nat, Io>, queue: seq<nat>, log: seq<Entry>)
    requires Inv(c, s) && queue != [] && |log| == |queue| && Chained(log, Spliced(s)) && AllDecided(c, ios, queue, log)
    ensures var t := queue[0];
            c.cap <= s.allocable && t in s.ios && s.ios[t].Task? && (s.ios[t].st.Alloc? || s.ios[t].blk !in s.tree)
            ==> t in ios && IsUser(ios[t]) && ios[t].st.Writing?
  {
    hide Inv, Admitted;
    var t := queue[0];
    assert Decided(c, ios, t, log[0]) && log[0].before == Spliced(s);
    if c.cap <= s.allocable {
      SpaceAdmits(c, s, t);
      AdmittedSched(c, s, Spliced(s).sched, t);
      assert s.(sched := Spliced(s).sched) == Spliced(s);
    }
  }

  // ------------------------------------------------------------------ the collector thread

  /** One turn of lbz_gc_thread.  A victim is taken exactly if there is a reason to collect, no victim
      is under collection, and some full zone is worth it; it is the lightest full zone, every block
      mapped into it gets a GC task, and nothing else happens. */
  method GcTurn(dev: Lbz, regular: bool, emergency: bool) returns (victim: Option<nat>, ghost trace: seq<Label>)
    requires dev.Valid()
    modifies dev
    ensures dev.Valid() && Run(dev.c, old(dev.View()), trace) == Some(dev.View())
    ensures forall i :: 0 <= i < |old(dev.full)| ==> old(dev.full)[i] < |old(dev.zones)|
    ensures victim.Some? <==>
              && (regular || emergency) && old(dev.gc).None?
              && exists i :: 0 <= i < |old(dev.full)|
                             && old(dev.zones)[old(dev.full)[i]].weight < dev.c.cap
                             && (emergency || old(dev.zones)[old(dev.full)[i]].weight <= dev.c.cap / 100)
    ensures victim.Some? ==> exists i :: 0 <= i < |old(dev.full)| && old(dev.full)[i] == victim.value
                                         && FirstLightest(old(dev.zones), old(dev.full), i)
    ensures victim.Some? ==> victim.value < |old(dev.zones)| && old(dev.zones)[victim.value].weight < dev.c.cap
    ensures victim.Some? ==> emergency || old(dev.zones)[victim.value].weight <= dev.c.cap / 100
    ensures victim.None? ==> dev.View() == old(dev.View()) && trace == []
    ensures victim.Some? ==> trace != [] && trace[0] == LSelect(victim.value) && WalkOnly(trace[1..])
    ensures victim.Some? ==> dev.gc == Some(Scan(victim.value, dev.c.cap, false))
    ensures victim.Some? ==> forall o <- old(dev.zones)[victim.value].rmap ::
              Issued(dev.ios, victim.value, o, old(dev.zones)[victim.value].rmap[o])
    ensures dev.mapping == old(dev.mapping) && dev.sched == old(dev.sched)
    ensures forall t <- old(dev.ios) :: t in dev.ios && dev.ios[t] == old(dev.ios)[t]
  {
    hide Sound, WellFormed, Enabled, Apply, Run, Issued, FirstLightest, WalkOnly;
    ghost var s := dev.View();
    EmptyRun(dev.c, s);
    FullInRange(dev.c, s);
    trace := [];
    if (!regular && !emergency) || dev.gc.Some? {
      return None, trace;
    }
    victim := dev.FindVictim(emergency);
    if victim.Some? {
      ghost var chosen, walk := dev.View(), [];
      SelectStep(dev.c, s, victim.value);
      VictimShape(dev.c, s, victim.value);
      OneStep(dev.c, s, LSelect(victim.value));
      walk := dev.GcOneZone();
      RunConcat(dev.c, s, [LSelect(victim.value)], chosen, walk);
      trace := [LSelect(victim.value)] + walk;
      assert trace[1..] == walk;
    }
  }

  lemma FullInRange(c: Config, s: State)
    requires Sound(c, s)
    ensures forall i :: 0 <= i < |s.full| ==> s.full[i] < |s.zones|
  {
    hide Sound, WellFormed;
    SoundShape(c, s);
    ListsInRange(c, s);
  }

  lemma VictimShape(c: Config, s: State, z: nat)
    requires WellFormed(c, s) && IsVictim(c, s, z)
    ensures z < |s.zones| && |s.zones| == c.zones && s.zones[z].weight < c.cap
    ensures Select(c, s, z).zones[z].rmap == s.zones[z].rmap && Select(c, s, z).mapping == s.mapping
    ensures Select(c, s, z).ios == s.ios && Select(c, s, z).sched == s.sched
  {
  }
}
