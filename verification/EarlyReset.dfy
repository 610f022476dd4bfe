/**
 * What the collector and the worker must heed while a reset is between its two halves.  A victim
 * chosen then must hold no more valid blocks than can be allocated, and the credit must not come
 * while a GC-flagged task has tried some stream in vain; then none of them runs out of streams.
 */
module EarlyReset {
  import opened Machine
  import opened Counting
  import opened Invariant
  import opened Frames
  import opened CollectorSteps
  import opened ZoneSteps
  import opened Runs
  import opened Guarantees
  import opened ResetHalves
  import opened Owing
  import Tables

  // No task has tried a stream in vain.
  ghost predicate NoneTried(ios: map<nat, Io>) {
    forall t <- ios :: ios[t].Task? && ios[t].st.Alloc? ==> ios[t].st.tried == {}
  }

  // The victim holds no more valid blocks than can be allocated.
  predicate Affordable(s: State, v: nat) {
    v < |s.zones| && s.zones[v].weight <= s.allocable
  }

  /** What every state of a device that heeds both has: with the credit given and all attempts
      forgotten it has the machine's invariant, its GC tasks can have what they are owed from what
      is left without the credit, and the streams that they have tried have no room. */
  ghost predicate HalfInv(c: Config, h: Half) {
    match h.credit
    case None => Inv(c, h.s)
    case Some(z) =>
      && z < c.zones && Inv(c, Whole(c, h.s, z))
      && TriedStreams(h.s.ios, h.s.empty, h.s.active)
      && (h.s.gc.Some? ==> |Todo(h.s.ios)| + Unseen(h.s) <= h.s.allocable)
  }

  // The choice of a victim and the credit heed what they must.
  ghost predicate Heeds(h: Half, e: Step) {
    && (e.Do? && e.l.LSelect? && h.credit.Some? ==> Affordable(h.s, e.l.z))
    && (e.Credit? ==> NoneTried(h.s.ios))
  }

  // ------------------------------------------------------------------------- forgotten attempts

  lemma ForgiveNothing(ios: map<nat, Io>)
    requires NoneTried(ios)
    ensures ForgiveAll(ios) == ios
  {
  }

  lemma RoomTried(ios: map<nat, Io>, empty: seq<nat>, active: seq<Option<nat>>)
    requires TriedStreams(ios, empty, active) && empty != []
    ensures NoneTried(ios)
  {
    forall t | t in ios && ios[t].Task? && ios[t].st.Alloc?
      ensures ios[t].st.tried == {}
    {
      assert TriedOk(ios[t], empty, active);
    }
  }

  lemma NoneTriedStreams(ios: map<nat, Io>, empty: seq<nat>, active: seq<Option<nat>>)
    requires NoneTried(ios)
    ensures TriedStreams(ios, empty, active)
  {
  }

  lemma TodoForgiven(c: Config, s: State, z: nat)
    ensures Todo(Whole(c, s, z).ios) == Todo(s.ios) && Unseen(Whole(c, s, z)) == Unseen(s)
  {
  }

  // ------------------------------------------------------------------------------- the halves

  lemma UnflagInv(c: Config, s: State, z: nat)
    requires Inv(c, s) && CanReset(s, z)
    ensures HalfInv(c, Half(Unflagged(c, s, z), Some(z)))
  {
    hide Inv, Reset, Unflagged, TriedStreams;
    ResetInv(c, s, z);
    Halves(c, s, z);
    ZonesOf(c, s);
    ResetTried(c, s, z);
    UnflagShape(c, s, z);
    ForgiveNothing(s.ios);
    NoneTriedStreams(s.ios, s.empty, s.active);
  }

  lemma UnflagShape(c: Config, s: State, z: nat)
    requires CanReset(s, z)
    ensures var u := Unflagged(c, s, z);
            && z < |s.zones| && u.ios == s.ios && u.empty == s.empty && u.active == s.active && u.gc.None?
            && u.sched == s.sched && Whole(c, u, z) == Reset(c, s, z).(ios := ForgiveAll(s.ios))
            && Reset(c, s, z).ios == s.ios
  {
  }

  lemma ZonesOf(c: Config, s: State)
    requires Inv(c, s)
    ensures |s.zones| == c.zones && |s.active| == c.streams
  {
    hide Inv;
    InvShape(c, s);
    ActiveSize(c, s);
  }

  lemma ResetTried(c: Config, s: State, z: nat)
    requires CanReset(s, z) && Inv(c, Reset(c, s, z))
    ensures NoneTried(s.ios)
  {
    hide Inv, MapsInverse, LandedPages, LifeCycle, Counts, RefsExact, Tasks, Moves, Coverage, InRange, Totals, Reserve,
         WellFormed, TriedStreams;
    PartsMakeInv(c, Reset(c, s, z));
    RoomTried(s.ios, s.empty + [z], s.active);
  }

  // ------------------------------------------------------------------- a step in between

  // Any step but an attempt and the choice of a victim.
  lemma PlainHalf(c: Config, h: Half, l: Label)
    requires HalfInv(c, h) && h.credit.Some? && CanStep(c, h, Do(l)) && !l.LTryAlloc? && !l.LSelect?
    ensures HalfInv(c, After(c, h, Do(l)))
  {
    hide Inv, WellFormed, Enabled, Apply, Whole, TriedStreams, Todo, Unseen;
    var z, s := h.credit.value, h.s;
    StepAllowed(c, h, l);
    Commute(c, s, z, l);
    StepKeepsInv(c, Whole(c, s, z), l);
    ApplyTried(c, s, l);
    WholeOwed(c, s, z, l);
  }

  lemma StepAllowed(c: Config, h: Half, l: Label)
    requires CanStep(c, h, Do(l))
    ensures WellFormed(c, h.s) && Enabled(c, h.s, l) && !l.LReset? && (h.credit.Some? ==> !l.LClose?)
  {
  }

  lemma ApplyTried(c: Config, s: State, l: Label)
    requires WellFormed(c, s) && Enabled(c, s, l) && !l.LTryAlloc? && !l.LReset?
    requires TriedStreams(s.ios, s.empty, s.active)
    ensures var s' := Apply(c, s, l);
            TriedStreams(s'.ios, s'.empty, s'.active) && s'.allocable == s.allocable
  {
    hide WellFormed, Enabled, Effect, TriedStreams;
    StepTried(c, s, l);
    SameStreams(c, s, l);
  }

  lemma WholeOwed(c: Config, s: State, z: nat, l: Label)
    requires WellFormed(c, s) && Enabled(c, s, l) && !l.LTryAlloc? && !l.LSelect? && !l.LReset?
    requires Inv(c, Whole(c, s, z)) && Enabled(c, Whole(c, s, z), l)
    requires Apply(c, Whole(c, s, z), l) == Whole(c, Apply(c, s, l), z)
    ensures |Todo(Apply(c, s, l).ios)| + Unseen(Apply(c, s, l)) <= |Todo(s.ios)| + Unseen(s)
    ensures Apply(c, s, l).gc.Some? ==> s.gc.Some?
  {
    hide Inv, WellFormed, Enabled, Apply, Whole, Todo, Unseen;
    TodoForgiven(c, s, z);
    TodoForgiven(c, Apply(c, s, l), z);
    StepOwed(c, Whole(c, s, z), l);
    NoNewVictim(c, s, l);
  }

  lemma NoNewVictim(c: Config, s: State, l: Label)
    requires WellFormed(c, s) && Enabled(c, s, l) && !l.LSelect?
    ensures Apply(c, s, l).gc.Some? ==> s.gc.Some?
  {
    hide WellFormed, Release, TryAlloc;
    if l.LTryAlloc? { AttemptScan(c, s, l.t, l.stream); }
  }

  /** The choice of a victim that can be afforded. */
  lemma SelectHalf(c: Config, h: Half, v: nat)
    requires HalfInv(c, h) && h.credit.Some? && CanStep(c, h, Do(LSelect(v))) && Affordable(h.s, v)
    ensures HalfInv(c, After(c, h, Do(LSelect(v))))
  {
    hide Inv, WellFormed, Enabled, Apply, Whole, TriedStreams, Todo, Unseen;
    var z, s := h.credit.value, h.s;
    StepAllowed(c, h, LSelect(v));
    Commute(c, s, z, LSelect(v));
    StepKeepsInv(c, Whole(c, s, z), LSelect(v));
    ApplyTried(c, s, LSelect(v));
    SelectOwed(c, s, z, v);
  }

  // At the choice nothing is owed but the victim's own blocks.
  lemma SelectOwed(c: Config, s: State, z: nat, v: nat)
    requires WellFormed(c, s) && Enabled(c, s, LSelect(v)) && Inv(c, Whole(c, s, z))
    ensures v < |s.zones|
    ensures |Todo(Apply(c, s, LSelect(v)).ios)| + Unseen(Apply(c, s, LSelect(v))) == s.zones[v].weight < c.cap
    ensures Todo(s.ios) == {}
  {
    hide Inv, WellFormed, Whole, Unvisited;
    TodoForgiven(c, s, z);
    WholeFields(c, s, z);
    NoGcNoMoves(c, Whole(c, s, z));
    assert Todo(Whole(c, s, z).ios) == {};
    SelectShape(c, s, v);
    FullSettled(c, Whole(c, s, z), v);
    UnvisitedAll(s.zones[v].rmap);
  }

  lemma WholeFields(c: Config, s: State, z: nat)
    ensures var w := Whole(c, s, z);
            && w.zones == s.zones && w.full == s.full && w.active == s.active && w.gc == s.gc && w.sched == s.sched
            && w.mapping == s.mapping && w.tree == s.tree && w.empty == s.empty + [z] && w.ios == ForgiveAll(s.ios)
            && w.allocable == s.allocable + c.cap
  {
  }

  lemma SelectShape(c: Config, s: State, v: nat)
    requires WellFormed(c, s) && Enabled(c, s, LSelect(v))
    ensures var s' := Apply(c, s, LSelect(v));
            && v in s.full && v < |s.zones| && s.zones[v].weight < c.cap && s.gc.None?
            && s'.ios == s.ios && s'.gc == Some(Scan(v, 0, true)) && |s'.zones| == |s.zones|
            && s'.zones[v].rmap == s.zones[v].rmap && s'.allocable == s.allocable && s'.sched == s.sched
  {
    assert |s.zones| == c.zones;
    hide WellFormed;
  }

  /** An attempt, whether it succeeds or not. */
  lemma AttemptHalf(c: Config, h: Half, l: Label)
    requires HalfInv(c, h) && h.credit.Some? && CanStep(c, h, Do(l)) && l.LTryAlloc?
    ensures HalfInv(c, After(c, h, Do(l)))
  {
    hide Inv, WellFormed, TryAlloc, Whole, TriedStreams, Todo, Unseen;
    var z, s, t, k := h.credit.value, h.s, l.t, l.stream;
    var w, s' := Whole(c, s, z), TryAlloc(c, s, t, k);
    WholeShape(c, s, z);
    InvShape(c, w);
    CommuteAttempt(c, s, z, t, k);
    if !Refused(c, s, t) && HasRoom(s, k) {
      TryAllocKeepsInv(c, w, t, k);
    }
    WholeSched(c, s', z, Queues(c, s, l));
    QueuesApart(c, Whole(c, s', z), Queues(c, s, l));
    AttemptTried(c, s, t, k);
    AttemptScan(c, s, t, k);
    AttemptOwed(c, s, z, t, k);
    TodoForgiven(c, s', z);
    SchedUnseen(s', Queues(c, s, l));
  }

  lemma WholeSched(c: Config, s: State, z: nat, q: Sched)
    ensures Whole(c, s.(sched := q), z) == Whole(c, s, z).(sched := q)
  {
  }

  lemma SchedUnseen(s: State, q: Sched)
    ensures Unseen(s.(sched := q)) == Unseen(s)
  {
  }

  // What an attempt costs is what it is owed, or comes out of what is beyond the reserve.
  lemma AttemptOwed(c: Config, s: State, z: nat, t: nat, k: nat)
    requires WellFormed(c, s) && CanAlloc(s, t, k) && Inv(c, Whole(c, s, z))
    requires s.gc.Some? ==> |Todo(s.ios)| + Unseen(s) <= s.allocable
    ensures var s' := TryAlloc(c, s, t, k);
            s'.gc.Some? ==> |Todo(s'.ios)| + Unseen(s') <= s'.allocable
  {
    hide Inv, WellFormed, TryAlloc, Whole, Todo, Unseen;
    AttemptTodo(c, s, t, k);
    AttemptUnseen(c, s, t, k);
    AttemptScan(c, s, t, k);
    if s.gc.Some? { OwedBelowCap(c, s, z); }
  }

  lemma AttemptTodo(c: Config, s: State, t: nat, k: nat)
    requires WellFormed(c, s) && CanAlloc(s, t, k)
    ensures var s' := TryAlloc(c, s, t, k);
            && (if !Refused(c, s, t) && HasRoom(s, k)
                then s'.allocable == s.allocable - 1 && Todo(s'.ios) == Todo(s.ios) - {t}
                else s'.allocable == s.allocable && Todo(s'.ios) == Todo(s.ios))
    ensures t in Todo(s.ios) <==> UsesReserve(s.ios[t])
  {
    hide WellFormed, TryAlloc, Todo;
    TryAllocShape(c, s, t, k);
    TodoUpdate(s.ios, t, s.ios[t]);
    TodoUpdate(s.ios, t, TryAlloc(c, s, t, k).ios[t]);
    AttemptCost(c, s, t, k);
  }

  lemma AttemptCost(c: Config, s: State, t: nat, k: nat)
    requires WellFormed(c, s) && CanAlloc(s, t, k)
    ensures TryAlloc(c, s, t, k).allocable == s.allocable - Bit(!Refused(c, s, t) && HasRoom(s, k))
  {
    hide TakeZone;
  }

  lemma AttemptUnseen(c: Config, s: State, t: nat, k: nat)
    requires WellFormed(c, s) && CanAlloc(s, t, k)
    ensures Unseen(TryAlloc(c, s, t, k)) == Unseen(s)
  {
    hide WellFormed, TryAlloc, Unseen;
    AttemptScan(c, s, t, k);
    Tables.AllocTables(c, s, t, k);
    SameUnseen(s, TryAlloc(c, s, t, k));
  }

  lemma OwedBelowCap(c: Config, s: State, z: nat)
    requires Inv(c, Whole(c, s, z)) && s.gc.Some?
    ensures |Todo(s.ios)| + Unseen(s) < c.cap
  {
    hide Inv, MapsInverse, LandedPages, LifeCycle, Counts, RefsExact, Tasks, Moves, Coverage, TriedStreams, InRange,
         Totals, WellFormed, Todo, Unseen, Whole;
    var w := Whole(c, s, z);
    PartsMakeInv(c, w);
    WholeFields(c, s, z);
    TodoForgiven(c, s, z);
    OwedIs(w);
  }

  /** Every step of a device that heeds both keeps what it has. */
  lemma StepKeepsHalf(c: Config, h: Half, e: Step)
    requires HalfInv(c, h) && CanStep(c, h, e) && Heeds(h, e)
    ensures HalfInv(c, After(c, h, e))
  {
    hide Inv, WellFormed, Enabled, Apply, Whole, TriedStreams, Todo, Unseen, Unflagged;
    match e
    case Do(l) =>
      StepAllowed(c, h, l);
      if h.credit.None? {
        StepKeepsInv(c, h.s, l);
      } else if l.LTryAlloc? {
        AttemptHalf(c, h, l);
      } else if l.LSelect? {
        SelectHalf(c, h, l.z);
      } else {
        PlainHalf(c, h, l);
      }
    case Unflag(z) => UnflagInv(c, h.s, z);
    case Credit =>
      ForgiveNothing(h.s.ios);
      WholeCredited(c, h.s, h.credit.value);
  }

  lemma WholeCredited(c: Config, s: State, z: nat)
    requires ForgiveAll(s.ios) == s.ios
    ensures Whole(c, s, z) == Credited(c, s, z)
  {
  }

  // ---------------------------------------------------------------------- no stream is missing

  // The credited zone counts for a zone's worth of what the whole device could allocate.
  lemma RoomInBetween(c: Config, s: State, z: nat)
    requires z < c.zones && Inv(c, Whole(c, s, z)) && s.allocable > 0
    ensures s.empty != [] || exists k :: 0 <= k < |s.active| && s.active[k].Some?
  {
    hide Inv, MapsInverse, LandedPages, LifeCycle, Counts, RefsExact, Tasks, Moves, Coverage, TriedStreams, InRange,
         Reserve, WellFormed, Whole;
    var w := Whole(c, s, z);
    PartsMakeInv(c, w);
    WholeFields(c, s, z);
    ZonesOf(c, w);
    CreditedZone(c, w, z);
    var full := w.zones[z].(wp := c.cap);
    TotalUpdate(c.cap, w.zones, z, full);
    assert Measured(c.cap, Free, w.zones[z]) == c.cap && Measured(c.cap, Free, full) == 0;
    var i := SomeFree(c.cap, w.zones[z := full]);
    FreeZone(c, w, i);
    assert s.empty == [] ==> w.empty == [z];
  }

  lemma CreditedZone(c: Config, w: State, z: nat)
    requires Inv(c, w) && z in w.empty
    ensures z < |w.zones| && w.zones[z].wp == 0
  {
    hide Inv, MapsInverse, LandedPages, Counts, RefsExact, Tasks, Moves, Coverage, TriedStreams, InRange, Totals,
         Reserve, WellFormed;
    PartsMakeInv(c, w);
    ZoneFacts(c, w, z);
  }

  lemma FreeZone(c: Config, w: State, i: nat)
    requires Inv(c, w) && i < |w.zones| && w.zones[i].wp < c.cap
    ensures (w.zones[i].phase.Empty? && i in w.empty)
            || (w.zones[i].phase.Active? && w.zones[i].phase.stream < |w.active|
                && w.active[w.zones[i].phase.stream].Some?)
  {
    hide Inv;
    ZoneFacts(c, w, i);
  }

  /** Between the halves as well as outside them, a GC-flagged task has a stream with room that it
      has not tried. */
  lemma HalfRoom(c: Config, h: Half, t: nat) returns (k: nat)
    requires HalfInv(c, h) && t in h.s.ios && h.s.ios[t].Task? && h.s.ios[t].st.Alloc? && UsesReserve(h.s.ios[t])
    ensures CanAlloc(h.s, t, k) && HasRoom(h.s, k) && k < c.streams
  {
    hide Inv, Whole, WellFormed, Todo, Unseen;
    var s := h.s;
    if h.credit.None? {
      ZonesOf(c, s);
      k := ReserveIsEnough(c, s, t);
    } else {
      var z := h.credit.value;
      ZonesOf(c, Whole(c, s, z));
      WholeFields(c, s, z);
      TodoUpdate(s.ios, t, s.ios[t]);
      ReservedMeansGc(c, s, z, t);
      RoomInBetween(c, s, z);
      assert TriedOk(s.ios[t], s.empty, s.active);
      if s.empty != [] {
        assert 0 !in s.ios[t].st.tried;
        k := 0;
      } else {
        k :| 0 <= k < |s.active| && s.active[k].Some?;
      }
    }
  }

  lemma ReservedMeansGc(c: Config, s: State, z: nat, t: nat)
    requires Inv(c, Whole(c, s, z)) && t in Todo(s.ios)
    ensures s.gc.Some? && c.streams > 0
  {
    hide Inv, Whole, Todo;
    TodoForgiven(c, s, z);
    WholeFields(c, s, z);
    TodoMatch(Whole(c, s, z).ios, t);
    OwesMeansGc(c, Whole(c, s, z), t);
    InvShape(c, Whole(c, s, z));
  }

  lemma TodoMatch(ios: map<nat, Io>, t: nat)
    requires t in Todo(ios)
    ensures t in ios && Match(Owes, ios[t])
  {
  }

  // -------------------------------------------------------------------------------- every run

  // A GC-flagged task that has tried all streams in vain: what BUG_ON and its caller rely on never is.
  ghost predicate Starved(c: Config, s: State, t: nat) {
    && t in s.ios && s.ios[t].Task? && s.ios[t].st.Alloc? && UsesReserve(s.ios[t])
    && forall k: nat :: k < c.streams ==> k in s.ios[t].st.tried
  }

  ghost predicate Heedful(c: Config, h: Half, run: seq<Step>)
    decreases |run|
  {
    run == [] || (CanStep(c, h, run[0]) ==> Heeds(h, run[0]) && Heedful(c, After(c, h, run[0]), run[1..]))
  }

  lemma {:induction false} RunKeepsHalf(c: Config, h: Half, run: seq<Step>)
    requires HalfInv(c, h) && Heedful(c, h, run) && HalfRun(c, h, run).Some?
    ensures HalfInv(c, HalfRun(c, h, run).value)
    decreases |run|
  {
    hide HalfInv, CanStep, After, Heeds;
    if run != [] {
      StepKeepsHalf(c, h, run[0]);
      RunKeepsHalf(c, After(c, h, run[0]), run[1..]);
    }
  }

  /** In every run of the device with the reset in two halves, for any number of streams: if every
      victim chosen in between can be afforded and the credit never comes while a task has tried a
      stream in vain, then no GC-flagged task ever runs out of streams. */
  lemma HeedfulNeverStarves(c: Config, run: seq<Step>, h: Half, t: nat)
    requires c.Valid() && HalfRun(c, Half(Initial(c), None), run) == Some(h)
    requires Heedful(c, Half(Initial(c), None), run)
    ensures !Starved(c, h.s, t)
  {
    hide HalfInv, HalfRun, Heedful, Starved, Inv;
    InitialInv(c);
    InitialHalf(c);
    KeptNeverStarves(c, Half(Initial(c), None), run, t);
  }

  lemma KeptNeverStarves(c: Config, h: Half, run: seq<Step>, t: nat)
    requires HalfInv(c, h) && Heedful(c, h, run) && HalfRun(c, h, run).Some?
    ensures !Starved(c, HalfRun(c, h, run).value.s, t)
  {
    hide HalfInv, HalfRun, Heedful;
    RunKeepsHalf(c, h, run);
    var last := HalfRun(c, h, run).value;
    if Starved(c, last.s, t) {
      var k := HalfRoom(c, last, t);
      assert false;
    }
  }

  lemma InitialHalf(c: Config)
    requires Inv(c, Initial(c))
    ensures HalfInv(c, Half(Initial(c), None))
  {
  }

  // ------------------------------------------------------------------- when the credit may come

  /** The credit keeps what every state has exactly when it comes while no task has tried a stream
      in vain. */
  lemma CreditIff(c: Config, h: Half)
    requires HalfInv(c, h) && h.credit.Some?
    ensures HalfInv(c, After(c, h, Credit)) <==> NoneTried(h.s.ios)
    ensures var s' := After(c, h, Credit).s;
            TriedStreams(s'.ios, s'.empty, s'.active) <==> NoneTried(h.s.ios)
  {
    hide Inv, Whole, Todo, Unseen, TriedStreams, NoneTried;
    var s, z := h.s, h.credit.value;
    ListedTried(s.ios, s.empty + [z], s.active);
    if NoneTried(s.ios) {
      ForgiveNothing(s.ios);
      WholeCredited(c, s, z);
    }
    if Inv(c, Credited(c, s, z)) {
      CreditTried(c, s, z);
    }
  }

  lemma ListedTried(ios: map<nat, Io>, empty: seq<nat>, active: seq<Option<nat>>)
    requires empty != []
    ensures TriedStreams(ios, empty, active) <==> NoneTried(ios)
  {
    hide TriedStreams, NoneTried;
    if TriedStreams(ios, empty, active) { RoomTried(ios, empty, active); }
    if NoneTried(ios) { NoneTriedStreams(ios, empty, active); }
  }

  lemma CreditTried(c: Config, s: State, z: nat)
    requires Inv(c, Credited(c, s, z))
    ensures NoneTried(s.ios)
  {
    hide Inv, MapsInverse, LandedPages, LifeCycle, Counts, RefsExact, Tasks, Moves, Coverage, InRange, Totals, Reserve,
         WellFormed, TriedStreams;
    PartsMakeInv(c, Credited(c, s, z));
    RoomTried(s.ios, s.empty + [z], s.active);
  }

  // --------------------------------------------------------------------------------- one stream

  // The step is an attempt with the GC flag that fails, which no stream's build allows for.
  ghost predicate Fails(h: Half, e: Step) {
    && e.Do? && e.l.LTryAlloc? && e.l.t in h.s.ios && h.s.ios[e.l.t].Task? && UsesReserve(h.s.ios[e.l.t])
    && e.l.stream < |h.s.active| && !HasRoom(h.s, e.l.stream)
  }

  ghost predicate Smooth(c: Config, h: Half, run: seq<Step>)
    decreases |run|
  {
    run == [] || (CanStep(c, h, run[0]) ==> !Fails(h, run[0]) && Smooth(c, After(c, h, run[0]), run[1..]))
  }

  // Every victim chosen between the halves can be afforded.
  ghost predicate Sparing(c: Config, h: Half, run: seq<Step>)
    decreases |run|
  {
    run == [] || (CanStep(c, h, run[0]) ==> Spares(h, run[0]) && Sparing(c, After(c, h, run[0]), run[1..]))
  }

  predicate Spares(h: Half, e: Step) {
    e.Do? && e.l.LSelect? && h.credit.Some? ==> Affordable(h.s, e.l.z)
  }

  // With one stream, no attempt fails that could leave a stream tried in vain.
  lemma OneStreamStep(c: Config, h: Half, e: Step)
    requires c.streams == 1 && HalfInv(c, h) && NoneTried(h.s.ios) && CanStep(c, h, e) && Spares(h, e)
    ensures HalfInv(c, After(c, h, e)) && NoneTried(After(c, h, e).s.ios) && !Fails(h, e)
  {
    hide HalfInv, CanStep, After, NoneTried, Fails;
    StepKeepsHalf(c, h, e);
    if e.Do? && e.l.LTryAlloc? {
      OneStreamAttempt(c, h, e.l);
    } else {
      QuietTried(c, h, e);
    }
  }

  lemma OneStreamAttempt(c: Config, h: Half, l: Label)
    requires c.streams == 1 && HalfInv(c, h) && NoneTried(h.s.ios) && CanStep(c, h, Do(l)) && l.LTryAlloc?
    ensures NoneTried(After(c, h, Do(l)).s.ios) && !Fails(h, Do(l))
  {
    hide HalfInv, WellFormed, TryAlloc;
    var s, t := h.s, l.t;
    ActiveSize(c, s);
    TryAllocShape(c, s, t, l.stream);
    if UsesReserve(s.ios[t]) { var k := HalfRoom(c, h, t); }
  }

  lemma QuietTried(c: Config, h: Half, e: Step)
    requires NoneTried(h.s.ios) && CanStep(c, h, e) && !(e.Do? && e.l.LTryAlloc?)
    ensures NoneTried(After(c, h, e).s.ios) && !Fails(h, e)
  {
    hide WellFormed, Effect;
    if e.Do? {
      assert WellFormed(c, h.s);
      hide Enabled;
      StepTriedFrom(c, h.s, e.l);
      assert After(c, h, e).s.ios == Effect(c, h.s, e.l).ios;
    }
  }

  lemma {:induction false} SparingKeeps(c: Config, h: Half, run: seq<Step>)
    requires c.streams == 1 && HalfInv(c, h) && NoneTried(h.s.ios) && Sparing(c, h, run)
    ensures Smooth(c, h, run)
    ensures HalfRun(c, h, run).Some? ==>
              HalfInv(c, HalfRun(c, h, run).value) && NoneTried(HalfRun(c, h, run).value.s.ios)
    decreases |run|
  {
    hide HalfInv, CanStep, After, Spares, NoneTried, Fails;
    if run != [] && CanStep(c, h, run[0]) {
      OneStreamStep(c, h, run[0]);
      SparingKeeps(c, After(c, h, run[0]), run[1..]);
    }
  }

  /** With one stream there is nothing else to heed: in every run in which each victim chosen
      between the halves can be afforded, no GC-flagged attempt fails. */
  lemma SparingNeverFails(c: Config, run: seq<Step>)
    requires c.Valid() && c.streams == 1 && Sparing(c, Half(Initial(c), None), run)
    ensures Smooth(c, Half(Initial(c), None), run)
  {
    hide HalfInv, Smooth, Sparing, Inv;
    InitialInv(c);
    InitialHalf(c);
    SparingKeeps(c, Half(Initial(c), None), run);
  }

  // ------------------------------------------------------------------------ runs in two halves

  lemma {:induction false} HalfConcat(c: Config, h: Half, a: seq<Step>, h1: Half, b: seq<Step>)
    requires HalfRun(c, h, a) == Some(h1) && Sparing(c, h, a)
    ensures HalfRun(c, h, a + b) == HalfRun(c, h1, b)
    ensures Sparing(c, h1, b) ==> Sparing(c, h, a + b)
    ensures !Smooth(c, h1, b) ==> !Smooth(c, h, a + b)
    decreases |a|
  {
    hide CanStep, After, Spares, Fails;
    if a == [] {
      assert a + b == b;
    } else {
      assert (a + b)[1..] == a[1..] + b;
      HalfConcat(c, After(c, h, a[0]), a[1..], h1, b);
    }
  }

  /** Every run of the machine is one of the device in two halves, whose resets are made at once. */
  lemma {:induction false} EveryRunSplits(c: Config, s: State, run: seq<Label>) returns (steps: seq<Step>)
    requires Run(c, s, run).Some?
    ensures HalfRun(c, Half(s, None), steps) == Some(Half(Run(c, s, run).value, None))
    ensures Sparing(c, Half(s, None), steps)
    decreases |run|
  {
    hide WellFormed, Apply, Enabled, Unflagged, Reset;
    if run == [] {
      steps := [];
    } else {
      var h := Half(s, None);
      var rest := EveryRunSplits(c, Apply(c, s, run[0]), run[1..]);
      if run[0].LReset? {
        ResetApplied(c, s, run[0]);
        Halves(c, s, run[0].z);
        var first := [Unflag(run[0].z)] + [Credit];
        assert first[1..] == [Credit] && [Credit][1..] == [];
        HalfConcat(c, h, first, Half(Apply(c, s, run[0]), None), rest);
        steps := first + rest;
      } else {
        var first := [Do(run[0])];
        assert first[1..] == [];
        HalfConcat(c, h, first, Half(Apply(c, s, run[0]), None), rest);
        steps := first + rest;
      }
    }
  }

  lemma ResetApplied(c: Config, s: State, l: Label)
    requires WellFormed(c, s) && Enabled(c, s, l) && l.LReset?
    ensures CanReset(s, l.z) && Apply(c, s, l) == Reset(c, s, l.z)
  {
    hide WellFormed;
  }

  // Some run leads there whose choices between the halves could all be afforded.
  ghost predicate Reached(c: Config, h: Half) {
    c.Valid() && exists run ::
      HalfRun(c, Half(Initial(c), None), run) == Some(h) && Sparing(c, Half(Initial(c), None), run)
  }

  lemma ReachedWhole(c: Config, s: State)
    requires Reachable(c, s)
    ensures Reached(c, Half(s, None))
  {
    hide HalfRun, Sparing, Run;
    var run :| Run(c, Initial(c), run) == Some(s);
    var steps := EveryRunSplits(c, Initial(c), run);
  }

  lemma HalfStep(c: Config, h: Half, e: Step) returns (h': Half)
    requires Reached(c, h) && CanStep(c, h, e) && Spares(h, e)
    ensures h' == After(c, h, e) && Reached(c, h')
  {
    hide CanStep, After, Spares;
    h' := After(c, h, e);
    var run :| HalfRun(c, Half(Initial(c), None), run) == Some(h) && Sparing(c, Half(Initial(c), None), run);
    assert [e][1..] == [];
    HalfConcat(c, Half(Initial(c), None), run, h, [e]);
    assert Sparing(c, h, [e]);
    assert HalfRun(c, Half(Initial(c), None), run + [e]) == Some(h');
    assert Sparing(c, Half(Initial(c), None), run + [e]);
  }
}
