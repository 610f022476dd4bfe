/** Whole runs: every state that any interleaving of steps can reach from an empty
    device satisfies the invariant. */
module Runs {
  import opened Machine
  import opened Counting
  import opened Invariant
  import opened Frames
  import opened TaskSteps
  import opened TreeSteps
  import opened ReadSteps
  import opened CollectorSteps
  import opened ZoneSteps
  import opened MapSteps

  lemma RecheckInv(c: Config, s: State, t: nat)
    requires Inv(c, s) && CanRecheck(s, t)
    ensures Inv(c, Recheck(s, t))
  {
    hide Inv;
    if s.ios[t].blk in s.mapping && s.mapping[s.ios[t].blk] == s.ios[t].src {
      RecheckGoesOn(c, s, t);
    } else {
      RecheckStops(c, s, t);
    }
  }

  lemma TryAllocKeepsInv(c: Config, s: State, t: nat, stream: nat)
    requires Inv(c, s) && CanAlloc(s, t, stream)
    ensures Inv(c, TryAlloc(c, s, t, stream))
  {
    hide Inv;
    PartsMakeInv(c, s);
    if HasRoom(s, stream) {
      TryAllocInv(c, s, t, stream);
    } else if UsesReserve(s.ios[t]) {
      NoRoomInv(c, s, t, stream);
    }
  }

  lemma LookupKeepsInv(c: Config, s: State, r: nat, b: nat)
    requires Inv(c, s) && r !in s.ios
    ensures Inv(c, Lookup(c, s, r, b))
  {
    hide Inv;
    PartsMakeInv(c, s);
    if b in s.mapping { LookupInv(c, s, r, b); }
  }

  // The queues are no part of the invariant.
  lemma QueuesApart(c: Config, s: State, q: Sched)
    requires Inv(c, s)
    ensures Inv(c, s.(sched := q))
  {
    hide InRange, PlacesInRange, MapsInverse, LandedPages, LifeCycle, Counts, RefsExact, Tasks, Moves, Coverage,
         TriedStreams, Total, Owed;
    PartsMakeInv(c, s);
  }

  /** Every step keeps the invariant. */
  lemma StepKeepsInv(c: Config, s: State, l: Label)
    requires Inv(c, s) && Enabled(c, s, l)
    ensures Inv(c, Apply(c, s, l))
  {
    hide Inv, WellFormed, Enabled, Effect, Queues;
    InvShape(c, s);
    EffectKeepsInv(c, s, l);
    QueuesApart(c, Effect(c, s, l), Queues(c, s, l));
  }

  lemma EffectKeepsInv(c: Config, s: State, l: Label)
    requires Inv(c, s) && Enabled(c, s, l)
    ensures Inv(c, Effect(c, s, l))
  {
    hide Inv, WellFormed, Submit, Insert, Resolve, TryAlloc, Requeue, Append, Endio, Lookup, ReadMedia, ReadEndio,
         Select, Visit, EndScan, MoveRead, Recheck, Finish, Close, Reset, Unmap;
    InvShape(c, s);
    match l
    case LSubmit(t, b, d) => SubmitInv(c, s, t, b, d);
    case LInsert(t) => InsertInv(c, s, t);
    case LResolve(t) => ResolveInv(c, s, t);
    case LTryAlloc(t, i) =>
      TryAllocKeepsInv(c, s, t, i);
    case LRequeue(t) => if CanRequeue(s, t) { RequeueInv(c, s, t); }
    case LAppend(t) => AppendInv(c, s, t);
    case LEndio(t) => EndioInv(c, s, t);
    case LLookup(r, b) => LookupKeepsInv(c, s, r, b);
    case LReadMedia(r) => ReadMediaInv(c, s, r);
    case LReadEndio(r) => ReadEndioInv(c, s, r);
    case LSelect(z) => SelectInv(c, s, z);
    case LVisit(t) => VisitInv(c, s, t);
    case LEndScan => EndScanInv(c, s);
    case LMoveRead(t) => MoveReadInv(c, s, t);
    case LRecheck(t) => RecheckInv(c, s, t);
    case LFinish(t) => FinishInv(c, s, t);
    case LClose(z) => CloseInv(c, s, z);
    case LReset(z) => ResetInv(c, s, z);
    case LDiscard(b) => UnmapInv(c, s, b);
    case _ =>
  }

  // ------------------------------------------------------------------------------- start

  lemma {:induction false} TotalUniform(cap: nat, m: Measure, zones: seq<Zone>, z: Zone)
    requires forall i :: 0 <= i < |zones| ==> zones[i] == z
    ensures Total(cap, m, zones) == |zones| * Measured(cap, m, z)
  {
    if zones != [] { TotalUniform(cap, m, zones[1..], z); }
  }

  lemma InitialInv(c: Config)
    requires c.Valid()
    ensures Inv(c, Initial(c))
  {
    hide MapsInverse, LandedPages, LifeCycle, Counts, Totals, RefsExact, Tasks, Moves, Coverage, TriedStreams;
    InitialLife(c);
    InitialCounts(c);
    InitialLinks(c);
    PartsMakeInv(c, Initial(c));
  }

  lemma InitialLinks(c: Config)
    ensures var s := Initial(c);
            && MapsInverse(c, s.zones, s.mapping) && LandedPages(s.zones, s.ios) && RefsExact(s.ios, 0, 0)
            && Tasks(s.ios, s.tree) && Moves(s.zones, s.ios, s.gc, s.mapping) && Coverage(s.zones, s.ios, s.gc)
            && TriedStreams(s.ios, s.empty, s.active)
  {
  }

  lemma InitialLife(c: Config)
    ensures var s := Initial(c); LifeCycle(c, s.zones, s.empty, s.full, s.active, s.gc)
  {
    var s := Initial(c);
    forall i | 0 <= i < |s.zones|
      ensures ZoneLife(c, i, s.zones[i], s.empty, s.full, s.active, s.gc)
    {
      assert s.empty[i] == i;
    }
  }

  lemma InitialCounts(c: Config)
    ensures var s := Initial(c); Counts(s.zones, s.ios, s.gc) && Totals(c, s)
  {
    hide Total;
    var s := Initial(c);
    forall q ensures Count(s.ios, q) == 0 { assert Holders(s.ios, q) == {}; }
    InitialTotal(c, Free);
    InitialTotal(c, Weight);
    InitialTotal(c, Mapped);
  }

  lemma InitialTotal(c: Config, m: Measure)
    ensures Total(c.cap, m, Initial(c).zones) == if m.Free? then c.zones * c.cap else 0
  {
    hide Total;
    var z := Zone(Empty, CondEmpty, 0, 0, 0, 0, map[], []);
    TotalUniform(c.cap, m, Initial(c).zones, z);
    assert Measured(c.cap, m, z) == if m.Free? then c.cap else 0;
  }

  // -------------------------------------------------------------------------------- runs

  // The state after the steps of the run, or None if some step was not enabled.
  ghost function Run(c: Config, s: State, run: seq<Label>): Option<State>
    decreases |run|
  {
    if run == [] then Some(s)
    else if WellFormed(c, s) && Enabled(c, s, run[0]) then Run(c, Apply(c, s, run[0]), run[1..])
    else None
  }

  ghost predicate Reachable(c: Config, s: State) {
    c.Valid() && exists run :: Run(c, Initial(c), run) == Some(s)
  }

  lemma {:induction false} RunKeepsInv(c: Config, s: State, run: seq<Label>)
    requires Inv(c, s)
    ensures Run(c, s, run).Some? ==> Inv(c, Run(c, s, run).value)
    decreases |run|
  {
    hide Inv, WellFormed;
    if run != [] && WellFormed(c, s) && Enabled(c, s, run[0]) {
      StepKeepsInv(c, s, run[0]);
      RunKeepsInv(c, Apply(c, s, run[0]), run[1..]);
    }
  }

  /** The invariant holds in every reachable state. */
  lemma ReachableInv(c: Config, s: State)
    requires Reachable(c, s)
    ensures Inv(c, s)
  {
    hide Inv, WellFormed;
    InitialInv(c);
    var run :| Run(c, Initial(c), run) == Some(s);
    RunKeepsInv(c, Initial(c), run);
  }

  // ---------------------------------------------------------------------- putting runs together

  lemma EmptyRun(c: Config, s: State)
    ensures Run(c, s, []) == Some(s)
  {
  }

  lemma OneStep(c: Config, s: State, l: Label)
    requires WellFormed(c, s) && Enabled(c, s, l)
    ensures Run(c, s, [l]) == Some(Apply(c, s, l))
  {
    hide WellFormed, Enabled, Apply;
    assert [l][1..] == [];
  }

  lemma {:induction false} Snoc(c: Config, s: State, trace: seq<Label>, s': State, l: Label)
    requires Run(c, s, trace) == Some(s') && WellFormed(c, s') && Enabled(c, s', l)
    ensures Run(c, s, trace + [l]) == Some(Apply(c, s', l))
    decreases |trace|
  {
    hide WellFormed, Enabled, Apply;
    if trace == [] {
      assert trace + [l] == [l] && [l][1..] == [];
    } else {
      assert (trace + [l])[1..] == trace[1..] + [l];
      Snoc(c, Apply(c, s, trace[0]), trace[1..], s', l);
    }
  }

  lemma {:induction false} RunConcat(c: Config, s: State, a: seq<Label>, s': State, b: seq<Label>)
    requires Run(c, s, a) == Some(s')
    ensures Run(c, s, a + b) == Run(c, s', b)
    decreases |a|
  {
    hide WellFormed, Enabled, Apply;
    if a == [] {
      assert a + b == b;
    } else {
      assert (a + b)[1..] == a[1..] + b;
      RunConcat(c, Apply(c, s, a[0]), a[1..], s', b);
    }
  }

  // An empty zone, and queues with nothing in them.
  const FRESH := Zone(Empty, CondEmpty, 0, 0, 0, 0, map[], [])
  const IDLE := Sched([], [], Resting, [], None, map[])

  // One step further in the set of reachable states.
  lemma ReachStep(c: Config, s: State, l: Label) returns (s': State)
    requires Reachable(c, s) && WellFormed(c, s) && Enabled(c, s, l)
    ensures s' == Apply(c, s, l) && Reachable(c, s') && WellFormed(c, s')
  {
    hide Inv, WellFormed, Enabled, Apply;
    s' := Apply(c, s, l);
    var run :| Run(c, Initial(c), run) == Some(s);
    Snoc(c, Initial(c), run, s, l);
    assert Run(c, Initial(c), run + [l]) == Some(s');
    ReachableInv(c, s');
    PartsMakeInv(c, s');
  }
}
