/** Steps of the collector: choosing a victim, walking its reverse map, ending the walk,
    and the tail of a GC task's callback. */
module CollectorSteps {
  import opened Machine
  import opened Counting
  import opened Invariant
  import opened Frames

  // ---------------------------------------------------------------------------- finish

  lemma FinishInv(c: Config, s: State, t: nat)
    requires Inv(c, s) && CanFinish(s, t)
    ensures Inv(c, Finish(c, s, t))
  {
    hide Inv, MapsInverse, LandedPages, LifeCycle, Counts, RefsExact, Tasks, Moves, Coverage, TriedStreams, InRange,
         Totals, WellFormed;
    PartsMakeInv(c, s);
    FinishTasks(c, s, t);
    FinishZone(c, s, t);
    RefStep(c, s, Finish(c, s, t), s.ios[t].src.zone);
  }

  lemma FinishTasks(c: Config, s: State, t: nat)
    requires Inv(c, s) && CanFinish(s, t)
    ensures s.ios[t].src.zone < |s.zones|
    ensures TaskSide(c, s.(ios := Finish(c, s, t).ios))
  {
    hide Inv, MapsInverse, LandedPages, LifeCycle, Counts, RefsExact, Tasks, Moves, Coverage, TriedStreams, InRange,
         Totals, WellFormed, Reserve;
    PartsMakeInv(c, s);
    TaskFacts(c, s, t);
    var io := s.ios[t].(st := Done);
    var s1 := s.(ios := s.ios[t := io]);
    FinishRefs(s.ios, t);
    FinishLinks(s.ios, s.tree, t);
    FinishMoves(c, s, t);
    InRangeUpdate(c, s.zones, s.ios, t, io);
    LandedKeep(s.zones, s.ios, t, io);
    CoverageKeep(s.zones, s.ios, s1.ios, s.gc);
    TriedKeep(s, t, io);
    ReleaseKeeps(c, s1, t, 1);
  }

  lemma FinishRefs(ios: map<nat, Io>, t: nat)
    requires RefsExact(ios, 0, 0) && t in ios && IsMove(ios[t]) && ios[t].st.Finishing?
    ensures RefsExact(ios[t := ios[t].(st := Done)], t, 1)
  {
    CountUpdate(ios, t, ios[t].(st := Done));
  }

  lemma FinishLinks(ios: map<nat, Io>, tree: map<nat, nat>, t: nat)
    requires Tasks(ios, tree) && t in ios && IsMove(ios[t]) && ios[t].st.Finishing?
    ensures Tasks(ios[t := ios[t].(st := Done)], tree)
  {
    var ios' := ios[t := ios[t].(st := Done)];
    assert StatusOk(ios[t]);
    assert TreeLinks(ios', tree);
    assert ConflictLinks(ios');
    assert ParkLinks(ios');
  }

  lemma FinishMoves(c: Config, s: State, t: nat)
    requires Moves(s.zones, s.ios, s.gc, s.mapping) && Tasks(s.ios, s.tree)
    requires t in s.ios && IsMove(s.ios[t]) && s.ios[t].st.Finishing?
    ensures Moves(s.zones, s.ios[t := s.ios[t].(st := Done)], s.gc, s.mapping)
  {
    var ios' := s.ios[t := s.ios[t].(st := Done)];
    assert ConflictLinks(s.ios) && ParkLinks(s.ios);
    hide TreeLinks, StatusOk;
    forall u | u in ios' && IsMove(ios'[u])
      ensures MoveOk(s.zones, ios', s.gc, s.mapping, ios'[u])
    {
      assert MoveOk(s.zones, s.ios, s.gc, s.mapping, s.ios[u]);
    }
  }

  lemma FinishZone(c: Config, s: State, t: nat)
    requires Inv(c, s) && CanFinish(s, t) && s.ios[t].src.zone < |s.zones|
    ensures var s' := Finish(c, s, t);
            && LifeCycle(c, s'.zones, s.empty, s.full, s.active, s.gc)
            && Counts(s'.zones, s'.ios, s.gc)
            && Count(s'.ios, LiveUser) == Count(s.ios, LiveUser)
            && Count(s'.ios, LiveRead) == Count(s.ios, LiveRead)
            && Count(s'.ios, LiveMove) == Count(s.ios, LiveMove) - 1
            && Reserve(c, s')
  {
    hide Inv, MapsInverse, LandedPages, LifeCycle, Counts, RefsExact, Tasks, Moves, Coverage, TriedStreams, InRange,
         Totals, WellFormed;
    PartsMakeInv(c, s);
    var z := s.ios[t].src.zone;
    ZoneFacts(c, s, z);
    CountPositive(s.ios, t, MovesFrom(z));
    var s' := Finish(c, s, t);
    FinishCounts(c, s, t);
    LifeKeep(c, s, z, s'.zones[z]);
    CountsZone(s, s'.ios, s.gc, z, s'.zones[z]);
  }

  lemma FinishCounts(c: Config, s: State, t: nat)
    requires Inv(c, s) && CanFinish(s, t)
    ensures forall q: Query :: Count(Finish(c, s, t).ios, q)
                               == Count(s.ios, q) - Bit(q.LiveMove? || q == MovesFrom(s.ios[t].src.zone))
  {
    hide Inv, MapsInverse, LandedPages, LifeCycle, Counts, RefsExact, Moves, Coverage, TriedStreams, InRange, Totals,
         WellFormed, Reserve, TreeLinks, ConflictLinks, StatusOk;
    PartsMakeInv(c, s);
    var io := s.ios[t].(st := Done);
    FinishRefs(s.ios, t);
    FinishLinks(s.ios, s.tree, t);
    LastRef(s.ios[t := io], t, 1);
    ReleaseCounts(s.ios[t := io], t, 1);
    CountUpdate(s.ios, t, io);
  }

  // ------------------------------------------------------------------------ victim choice

  lemma {:induction false} WithoutMembers(s: seq<nat>, x: nat)
    requires Distinct(s)
    ensures forall y :: y in Without(s, x) <==> y in s && y != x
  {
    if s != [] {
      DistinctTail(s);
      assert s == [s[0]] + s[1..];
      if s[0] != x { WithoutMembers(s[1..], x); }
    }
  }

  lemma DistinctTail(s: seq<nat>)
    requires Distinct(s) && s != []
    ensures Distinct(s[1..]) && s[0] !in s[1..]
  {
    assert forall i :: 0 <= i < |s[1..]| ==> s[1..][i] == s[i + 1];
  }

  lemma {:induction false} WithoutKeeps(s: seq<nat>, x: nat)
    requires Distinct(s)
    ensures Distinct(Without(s, x)) && x !in Without(s, x)
    ensures forall y :: y in Without(s, x) <==> y in s && y != x
  {
    WithoutMembers(s, x);
    if s != [] {
      DistinctTail(s);
      if s[0] != x {
        WithoutKeeps(s[1..], x);
      }
    }
  }

  // With no victim there is no GC task, and nobody owes an allocation.
  lemma NoGcNoMoves(c: Config, s: State)
    requires Inv(c, s) && s.gc.None?
    ensures forall t :: t in s.ios ==> !IsMove(s.ios[t]) && !Match(Owes, s.ios[t])
  {
    hide MapsInverse, LandedPages, LifeCycle, Counts, RefsExact, Coverage, TriedStreams, Totals, Reserve, TreeLinks,
         ConflictLinks;
    PartsMakeInv(c, s);
    assert forall t :: t in s.ios ==> !IsMove(s.ios[t]);
    assert forall t :: t in s.ios && s.ios[t].Task? ==> s.ios[t].pendingGc.None?;
  }

  lemma SelectInv(c: Config, s: State, z: nat)
    requires Inv(c, s) && s.gc.None? && IsVictim(c, s, z)
    ensures Inv(c, Select(c, s, z))
  {
    hide Inv, MapsInverse, LandedPages, LifeCycle, Counts, RefsExact, Tasks, Moves, Coverage, TriedStreams, InRange,
         Totals, WellFormed;
    PartsMakeInv(c, s);
    assert |s.zones| == c.zones by { PartsSize(c, s); }
    var s' := Select(c, s, z);
    SelectLife(c, s, z);
    ZoneFacts(c, s, z);
    CountsZone(s, s.ios, s'.gc, z, s'.zones[z]);
    NoGcNoMoves(c, s);
    SelectMoves(c, s, z);
    assert Holders(s.ios, Owes) == {};
    UnvisitedAll(s.zones[z].rmap);
    RefStep(c, s, s', z);
  }

  lemma SelectMoves(c: Config, s: State, z: nat)
    requires forall t :: t in s.ios ==> !IsMove(s.ios[t])
    ensures Moves(s.zones, s.ios, Some(Scan(z, 0, true)), s.mapping)
    ensures Coverage(s.zones, s.ios, Some(Scan(z, 0, true)))
  {
  }

  lemma SelectLife(c: Config, s: State, z: nat)
    requires Inv(c, s) && s.gc.None? && z in s.full && z < |s.zones|
    ensures s.zones[z].phase.Full?
    ensures var s' := Select(c, s, z); LifeCycle(c, s'.zones, s.empty, s'.full, s.active, s'.gc)
  {
    hide Inv, MapsInverse, LandedPages, RefsExact, Tasks, Moves, Coverage, TriedStreams, InRange, Totals, WellFormed,
         Reserve;
    PartsMakeInv(c, s);
    assert ZoneCounts(z, s.zones[z], s.ios, s.gc);
    hide Counts;
    WithoutKeeps(s.full, z);
  }

  // ------------------------------------------------------------------------------ the walk

  // Nothing a GC task knows is lost when the cursor moves forward.
  lemma MovesAdvance(s: State, gc: Option<Scan>)
    requires Moves(s.zones, s.ios, s.gc, s.mapping)
    requires s.gc.Some? && gc.Some? && gc.value.zone == s.gc.value.zone && s.gc.value.pos <= gc.value.pos
    ensures Moves(s.zones, s.ios, gc, s.mapping)
  {
    forall u | u in s.ios && IsMove(s.ios[u])
      ensures MoveOk(s.zones, s.ios, gc, s.mapping, s.ios[u])
    {
      assert MoveOk(s.zones, s.ios, s.gc, s.mapping, s.ios[u]);
    }
  }

  lemma EndScanInv(c: Config, s: State)
    requires Inv(c, s) && CanEndScan(c, s)
    ensures Inv(c, EndScan(c, s))
  {
    hide Inv, MapsInverse, LandedPages, LifeCycle, Counts, RefsExact, Tasks, Moves, Coverage, TriedStreams, InRange,
         Totals, WellFormed;
    PartsMakeInv(c, s);
    var v := s.gc.value.zone;
    var s' := EndScan(c, s);
    ScanFacts(c, s);
    ZoneFacts(c, s, v);
    MovesAdvance(s, s'.gc);
    SameScanCoverage(s, s'.gc);
    LifeAdvance(c, s, s'.gc, s'.zones[v]);
    CountsZone(s, s.ios, s'.gc, v, s'.zones[v]);
    RefStep(c, s, s', v);
  }

  lemma ScanFacts(c: Config, s: State)
    requires Inv(c, s) && s.gc.Some?
    ensures s.gc.value.zone < |s.zones| && s.zones[s.gc.value.zone].phase.Gc? && s.gc.value.pos <= c.cap
  {
    hide MapsInverse, LandedPages, Counts, RefsExact, Tasks, Moves, Coverage, TriedStreams, Totals, WellFormed, Reserve;
    PartsMakeInv(c, s);
  }

  lemma SameScanCoverage(s: State, gc: Option<Scan>)
    requires Coverage(s.zones, s.ios, s.gc) && s.gc.Some? && gc.Some?
    requires gc.value.zone == s.gc.value.zone && gc.value.pos == s.gc.value.pos
    ensures Coverage(s.zones, s.ios, gc)
  {
  }

  lemma LifeAdvance(c: Config, s: State, gc: Option<Scan>, zone: Zone)
    requires LifeCycle(c, s.zones, s.empty, s.full, s.active, s.gc) && s.gc.Some? && gc.Some?
    requires gc.value.zone == s.gc.value.zone && gc.value.pos <= c.cap && (gc.value.base || gc.value.pos == c.cap)
    requires zone.phase.Gc? && ZoneLife(c, gc.value.zone, zone, s.empty, s.full, s.active, gc)
    ensures LifeCycle(c, s.zones[gc.value.zone := zone], s.empty, s.full, s.active, gc)
  {
  }

  lemma VisitSkips(c: Config, s: State, t: nat)
    requires Inv(c, s) && CanVisit(c, s) && s.gc.value.pos !in s.zones[s.gc.value.zone].rmap
    ensures Inv(c, Visit(c, s, t))
  {
    hide Inv, MapsInverse, LandedPages, LifeCycle, Counts, RefsExact, Tasks, Moves, Coverage, TriedStreams, InRange,
         Totals, WellFormed;
    PartsMakeInv(c, s);
    var v := s.gc.value.zone;
    var s' := Visit(c, s, t);
    ScanFacts(c, s);
    ZoneFacts(c, s, v);
    MovesAdvance(s, s'.gc);
    VisitCoverage(c, s, s'.ios);
    LifeAdvance(c, s, s'.gc, s.zones[v]);
    CountsZone(s, s.ios, s'.gc, v, s.zones[v]);
    UnvisitedStep(s.zones[v].rmap, s.gc.value.pos);
    assert s.zones == s.zones[v := s.zones[v]];
    RefStep(c, s, s', v);
  }

  // After the visit every entry up to and including the visited one is covered.
  lemma VisitCoverage(c: Config, s: State, ios: map<nat, Io>)
    requires Coverage(s.zones, s.ios, s.gc) && s.gc.Some? && s.gc.value.zone < |s.zones|
    requires forall t, v, o :: Covers(s.ios, t, v, o) ==> Covers(ios, t, v, o)
    requires s.gc.value.pos in s.zones[s.gc.value.zone].rmap ==> Covered(ios, s.gc.value.zone, s.gc.value.pos)
    ensures Coverage(s.zones, ios, Some(s.gc.value.(pos := s.gc.value.pos + 1)))
  {
    CoverageKeep(s.zones, s.ios, ios, s.gc);
  }

  lemma VisitMoves(c: Config, s: State, t: nat)
    requires Inv(c, s) && t !in s.ios && CanVisit(c, s) && s.gc.value.pos in s.zones[s.gc.value.zone].rmap
    ensures var s' := Visit(c, s, t); TaskSide(c, s'.(zones := s.zones))
  {
    hide Inv, LandedPages, LifeCycle, Counts, RefsExact, Tasks, Coverage, TriedStreams, Totals, WellFormed, Reserve;
    PartsMakeInv(c, s);
    ScanFacts(c, s);
    var s' := Visit(c, s, t);
    var v, o := s.gc.value.zone, s.gc.value.pos;
    var io := s'.ios[t];
    hide MapsInverse, InRange;
    MovesAdvance(s, s'.gc);
    hide Moves;
    InRangeUpdate(c, s.zones, s.ios, t, io);
    NewTask(s.ios, s.tree, t, io);
    LandedKeep(s.zones, s.ios, t, io);
    TriedKeep(s, t, io);
    MovesNew(s.zones, s.ios, s'.gc, s.mapping, t, io);
    assert Covers(s'.ios, t, v, o);
    VisitCoverage(c, s, s'.ios);
  }

  lemma VisitSpawns(c: Config, s: State, t: nat)
    requires Inv(c, s) && t !in s.ios && CanVisit(c, s) && s.gc.value.pos in s.zones[s.gc.value.zone].rmap
    ensures Inv(c, Visit(c, s, t))
  {
    hide Inv, MapsInverse, LandedPages, LifeCycle, Counts, RefsExact, Tasks, Moves, Coverage, TriedStreams, InRange,
         Totals, WellFormed, TaskSide;
    PartsMakeInv(c, s);
    var v := s.gc.value.zone;
    var s' := Visit(c, s, t);
    ScanFacts(c, s);
    ZoneFacts(c, s, v);
    VisitMoves(c, s, t);
    LifeAdvance(c, s, s'.gc, s'.zones[v]);
    CountUpdate(s.ios, t, s'.ios[t]);
    CountsZone(s, s'.ios, s'.gc, v, s'.zones[v]);
    UnvisitedStep(s.zones[v].rmap, s.gc.value.pos);
    RefStep(c, s, s', v);
  }

  lemma VisitInv(c: Config, s: State, t: nat)
    requires Inv(c, s) && t !in s.ios && CanVisit(c, s)
    ensures Inv(c, Visit(c, s, t))
  {
    hide Inv;
    if s.gc.value.pos in s.zones[s.gc.value.zone].rmap { VisitSpawns(c, s, t); } else { VisitSkips(c, s, t); }
  }
}
