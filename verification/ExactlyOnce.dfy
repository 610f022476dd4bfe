/** Every GC task ends exactly once, by its own callback and by nothing else. */
module ExactlyOnce {
  import opened Machine
  import opened Counting
  import opened Invariant
  import opened Frames
  import opened CollectorSteps
  import opened ZoneSteps
  import opened TreeSteps
  import opened MapSteps
  import opened Refinement
  import opened Runs

  predicate Live(ios: map<nat, Io>, t: nat) {
    t in ios && IsMove(ios[t])
  }

  ghost predicate SameLive(ios: map<nat, Io>, ios': map<nat, Io>) {
    forall t :: Live(ios', t) == Live(ios, t)
  }

  lemma ReleaseSameLive(ios: map<nat, Io>, h: nat, n: nat)
    requires h in ios && ios[h].Task? && ParkLinks(ios) && (ios[h].rc <= n ==> ios[h].st.Done?)
    ensures SameLive(ios, Release(ios, h, n))
  {
  }

  lemma InsertSameLive(c: Config, s: State, t: nat)
    requires Inv(c, s) && CanInsert(s, t)
    ensures SameLive(s.ios, Insert(c, s, t).ios)
  {
    hide Inv;
    if s.ios[t].blk in s.tree { MeetsUser(c, s, t); }
  }

  lemma ResolveSameLive(c: Config, s: State, t: nat)
    requires Inv(c, s) && CanResolve(s, t)
    ensures SameLive(s.ios, Resolve(c, s, t).ios)
  {
    hide Inv, WellFormed, RefsExact, TreeLinks, ConflictLinks, ParkLinks, Moves, Coverage, MapsInverse, LandedPages,
         LifeCycle, Counts, Totals, Reserve, TriedStreams, InRange, StatusOk, Release;
    PartsMakeInv(c, s);
    ConflictFacts(c, s, t);
    var h := s.ios[t].st.host;
    if s.ios[t].kind.User? {
      var io := s.ios[t].(st := Init);
      DropConflict(s.ios, t, io);
      UserLinks(s.ios, s.tree, t);
      LastRef(s.ios[t := io], h, 1);
      ReleaseSameLive(s.ios[t := io], h, 1);
    } else {
      ParkRefs(s.ios, t, h);
      ParkTasks(s.ios, s.tree, t, h);
      LastRef(Park(s.ios, t, h), h, 1);
      ReleaseSameLive(Park(s.ios, t, h), h, 1);
    }
  }

  lemma EndioSameLive(c: Config, s: State, t: nat)
    requires Inv(c, s) && CanEndio(s, t)
    ensures SameLive(s.ios, Endio(c, s, t).ios) && Endio(c, s, t).gcInflight == s.gcInflight
  {
    hide Inv, WellFormed, RefsExact, TreeLinks, ConflictLinks, ParkLinks, Moves, Coverage, MapsInverse, LandedPages,
         LifeCycle, Counts, Totals, Reserve, TriedStreams, InRange, StatusOk, Release;
    PartsMakeInv(c, s);
    UnmapSameIo(c, s, s.ios[t].blk);
    var ios' := s.ios[t := Leaving(s.ios[t])];
    if s.ios[t].kind.User? {
      BindRefs(s.ios, t);
      BindLinks(s.ios, s.tree, t);
      LastRef(ios', t, 2);
      ReleaseSameLive(ios', t, 2);
    }
  }

  lemma FinishEnds(c: Config, s: State, t: nat)
    requires Inv(c, s) && CanFinish(s, t)
    ensures forall u :: Live(Finish(c, s, t).ios, u) <==> Live(s.ios, u) && u != t
  {
    hide Inv, WellFormed, RefsExact, TreeLinks, ConflictLinks, ParkLinks, Moves, Coverage, MapsInverse, LandedPages,
         LifeCycle, Counts, Totals, Reserve, TriedStreams, InRange, StatusOk, Release;
    PartsMakeInv(c, s);
    var ios' := s.ios[t := s.ios[t].(st := Done)];
    FinishRefs(s.ios, t);
    FinishLinks(s.ios, s.tree, t);
    LastRef(ios', t, 1);
    ReleaseSameLive(ios', t, 1);
  }

  // The other steps on one operation.
  lemma ProgressSameLive(c: Config, s: State, t: nat)
    requires WellFormed(c, s) && t in s.ios
    ensures CanRequeue(s, t) ==> SameLive(s.ios, Requeue(s, t).ios)
    ensures CanAppend(s, t) ==> SameLive(s.ios, Append(c, s, t).ios)
    ensures CanMoveRead(s, t) ==> SameLive(s.ios, MoveRead(c, s, t).ios)
    ensures CanRecheck(s, t) ==> SameLive(s.ios, Recheck(s, t).ios)
    ensures CanReadMedia(s, t) ==> SameLive(s.ios, ReadMedia(c, s, t).ios)
    ensures CanReadEndio(s, t) ==> SameLive(s.ios, ReadEndio(c, s, t).ios)
    ensures CanReadEndio(s, t) ==> ReadEndio(c, s, t).gcInflight == s.gcInflight
  {
    hide WellFormed;
  }

  lemma ArrivalSameLive(c: Config, s: State, t: nat, b: nat, d: Page)
    requires WellFormed(c, s) && t !in s.ios
    ensures SameLive(s.ios, Submit(s, t, b, d).ios) && SameLive(s.ios, Lookup(c, s, t, b).ios)
    ensures Lookup(c, s, t, b).gcInflight == s.gcInflight
  {
    hide WellFormed;
  }

  lemma VisitLive(c: Config, s: State, t: nat)
    requires CanVisit(c, s) && t !in s.ios
    ensures var s' := Visit(c, s, t);
            && (forall u :: u != t ==> Live(s'.ios, u) == Live(s.ios, u)) && !Live(s.ios, t)
            && s'.gcInflight == s.gcInflight + Bit(Live(s'.ios, t))
  {
  }

  // What a step does to the GC tasks alive and to their counter.
  ghost predicate LiveStep(s: State, l: Label, s': State) {
    if l.LFinish? then
      (forall u :: Live(s'.ios, u) <==> Live(s.ios, u) && u != l.t) && s'.gcInflight == s.gcInflight - 1
    else if l.LVisit? then
      && (forall u :: u != l.t ==> Live(s'.ios, u) == Live(s.ios, u))
      && !Live(s.ios, l.t) && s'.gcInflight == s.gcInflight + Bit(Live(s'.ios, l.t))
    else SameLive(s.ios, s'.ios) && s'.gcInflight == s.gcInflight
  }

  // Steps of a task's own protocol.
  predicate Protocol(l: Label) {
    l.LInsert? || l.LResolve? || l.LEndio? || l.LTryAlloc? || l.LFinish? || l.LVisit?
  }

  lemma StepLive(c: Config, s: State, l: Label)
    requires Inv(c, s) && Enabled(c, s, l)
    ensures LiveStep(s, l, Apply(c, s, l))
  {
    hide Inv, WellFormed, Enabled, Effect, SameLive, Live, Queues;
    InvShape(c, s);
    if Protocol(l) { ProtocolLive(c, s, l); } else { OtherLive(c, s, l); }
  }

  lemma ProtocolLive(c: Config, s: State, l: Label)
    requires Inv(c, s) && Enabled(c, s, l) && Protocol(l)
    ensures LiveStep(s, l, Effect(c, s, l))
  {
    hide Inv, WellFormed, Insert, Resolve, Endio, Release, TryAlloc, Visit, SameLive, Live;
    InvShape(c, s);
    match l
    case LInsert(u) => InsertSameLive(c, s, u); InsertInflight(c, s, u);
    case LResolve(u) => ResolveSameLive(c, s, u); ResolveInflight(c, s, u);
    case LEndio(u) => EndioSameLive(c, s, u);
    case LTryAlloc(u, k) => AllocSameLive(c, s, u, k);
    case LFinish(u) => FinishEnds(c, s, u);
    case LVisit(u) => VisitLive(c, s, u);
  }

  lemma OtherLive(c: Config, s: State, l: Label)
    requires WellFormed(c, s) && Enabled(c, s, l) && !Protocol(l)
    ensures SameLive(s.ios, Effect(c, s, l).ios) && Effect(c, s, l).gcInflight == s.gcInflight
  {
    hide WellFormed, Lookup, SameLive, Live, ReadEndio;
    SameLiveRefl(s.ios);
    UnmapSameIo(c, s, if l.LDiscard? then l.b else 0);
    match l
    case LSubmit(u, b, d) => ArrivalSameLive(c, s, u, b, d);
    case LLookup(u, b) => ArrivalSameLive(c, s, u, b, 0);
    case LRequeue(u) => ProgressSameLive(c, s, u);
    case LAppend(u) => ProgressSameLive(c, s, u);
    case LMoveRead(u) => ProgressSameLive(c, s, u);
    case LRecheck(u) => ProgressSameLive(c, s, u);
    case LReadMedia(u) => ProgressSameLive(c, s, u);
    case LReadEndio(u) => ProgressSameLive(c, s, u);
    case _ =>
  }

  lemma SameLiveRefl(ios: map<nat, Io>)
    ensures SameLive(ios, ios)
  {
  }

  /** A GC task that is alive before a step is dead after it exactly if the step is its own
      callback, and one that is dead comes alive only by being created anew; the in-flight
      counter follows. */
  lemma MoveEndsOnce(c: Config, s: State, l: Label, t: nat)
    requires Inv(c, s) && Enabled(c, s, l)
    ensures Live(s.ios, t) ==> (Live(Apply(c, s, l).ios, t) <==> l != LFinish(t))
    ensures !Live(s.ios, t) && Live(Apply(c, s, l).ios, t) ==> l == LVisit(t)
    ensures Apply(c, s, l).gcInflight
            == s.gcInflight - Bit(l.LFinish?) + Bit(l.LVisit? && !Live(s.ios, l.t) && Live(Apply(c, s, l).ios, l.t))
  {
    hide Inv, WellFormed, Apply, Enabled, Live;
    InvShape(c, s);
    StepLive(c, s, l);
  }

  lemma AllocSameLive(c: Config, s: State, t: nat, stream: nat)
    requires WellFormed(c, s) && CanAlloc(s, t, stream)
    ensures SameLive(s.ios, TryAlloc(c, s, t, stream).ios) && TryAlloc(c, s, t, stream).gcInflight == s.gcInflight
  {
    hide WellFormed, TryAlloc;
    TryAllocShape(c, s, t, stream);
  }

  // How often a run issues a GC task under identity t, and how often t's callback runs.
  ghost function Births(c: Config, s: State, run: seq<Label>, t: nat): (n: nat)
    decreases |run|
  {
    if run == [] || !WellFormed(c, s) || !Enabled(c, s, run[0]) then 0
    else
      var s' := Apply(c, s, run[0]);
      Bit(!Live(s.ios, t) && Live(s'.ios, t)) + Births(c, s', run[1..], t)
  }

  function Callbacks(run: seq<Label>, t: nat): (n: nat) {
    if run == [] then 0 else Bit(run[0] == LFinish(t)) + Callbacks(run[1..], t)
  }

  lemma FinishNeedsLive(c: Config, s: State, t: nat)
    requires WellFormed(c, s) && Enabled(c, s, LFinish(t))
    ensures Live(s.ios, t)
  {
    hide WellFormed;
  }

  /** Over every run, each GC task that was issued has run its callback exactly once, or is
      still alive and has not run it. */
  lemma {:induction false} CallbackPerTask(c: Config, s: State, run: seq<Label>, t: nat)
    requires Inv(c, s) && Run(c, s, run).Some?
    ensures Bit(Live(s.ios, t)) + Births(c, s, run, t) == Callbacks(run, t) + Bit(Live(Run(c, s, run).value.ios, t))
    decreases |run|
  {
    hide Inv, WellFormed, Enabled, Apply, Live;
    if run != [] {
      if run[0] == LFinish(t) { FinishNeedsLive(c, s, t); }
      MoveEndsOnce(c, s, run[0], t);
      StepKeepsInv(c, s, run[0]);
      CallbackPerTask(c, Apply(c, s, run[0]), run[1..], t);
    }
  }

  /** The same from an empty device. */
  lemma DeviceCallbacks(c: Config, run: seq<Label>, s: State, t: nat)
    requires c.Valid() && Run(c, Initial(c), run) == Some(s)
    ensures Births(c, Initial(c), run, t) == Callbacks(run, t) + Bit(t in s.ios && IsMove(s.ios[t]))
  {
    hide Inv, Births, Run;
    InitialInv(c);
    CallbackPerTask(c, Initial(c), run, t);
  }

  lemma InsertInflight(c: Config, s: State, t: nat)
    requires Inv(c, s) && CanInsert(s, t)
    ensures Insert(c, s, t).gcInflight == s.gcInflight
  {
    hide Inv;
    if s.ios[t].blk in s.tree { MeetsUser(c, s, t); }
  }

  lemma ResolveInflight(c: Config, s: State, t: nat)
    requires WellFormed(c, s) && CanResolve(s, t)
    ensures Resolve(c, s, t).gcInflight == s.gcInflight
  {
  }
}
