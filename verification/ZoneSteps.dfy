/** The allocator, the device append and the zone worker. */
module ZoneSteps {
  import opened Machine
  import opened Counting
  import opened Invariant
  import opened Frames
  import opened CollectorSteps

  // ----------------------------------------------------------------------------- allocator

  lemma OpenInv(c: Config, s: State, stream: nat)
    requires Inv(c, s) && stream < |s.active| && s.active[stream].None? && s.empty != []
    ensures Inv(c, Open(c, s, stream))
  {
    hide Inv, MapsInverse, LandedPages, LifeCycle, Counts, RefsExact, Tasks, Moves, Coverage, TriedStreams, InRange,
         Totals;
    PartsMakeInv(c, s);
    PartsSize(c, s);
    var z := s.empty[0];
    var s' := Open(c, s, stream);
    OpenLife(c, s, stream);
    ZoneFacts(c, s, z);
    CountsZone(s, s.ios, s.gc, z, s'.zones[z]);
    OpenTried(s, s'.empty, s'.active);
    RefStep(c, s, s', z);
  }

  lemma OpenLife(c: Config, s: State, stream: nat)
    requires c.Valid() && |s.zones| == c.zones && WellFormed(c, s)
    requires LifeCycle(c, s.zones, s.empty, s.full, s.active, s.gc)
    requires stream < |s.active| && s.active[stream].None? && s.empty != []
    ensures s.zones[s.empty[0]].phase.Empty?
    ensures var s' := Open(c, s, stream); LifeCycle(c, s'.zones, s'.empty, s.full, s'.active, s.gc)
  {
    var s' := Open(c, s, stream);
    assert s.empty[0] in s.empty;
    assert s.empty == [s.empty[0]] + s'.empty;
    hide WellFormed;
    assert forall y :: y in s'.empty <==> y in s.empty && y != s.empty[0];
    assert forall i :: 0 <= i < |s.zones| && i != s.empty[0] ==>
        ZoneLife(c, i, s'.zones[i], s'.empty, s.full, s'.active, s.gc) by {
      assert forall i :: 0 <= i < |s.zones| ==> ZoneLife(c, i, s.zones[i], s.empty, s.full, s.active, s.gc);
    }
  }

  lemma OpenTried(s: State, empty: seq<nat>, active: seq<Option<nat>>)
    requires TriedStreams(s.ios, s.empty, s.active) && s.empty != []
    ensures TriedStreams(s.ios, empty, active)
  {
    forall t | t in s.ios
      ensures TriedOk(s.ios[t], empty, active)
    {
      assert TriedOk(s.ios[t], s.empty, s.active);
    }
  }

  lemma TakeInv(c: Config, s: State, t: nat, stream: nat)
    requires Inv(c, s) && CanAlloc(s, t, stream) && s.active[stream].Some? && !Refused(c, s, t)
    ensures s.active[stream].value < |s.zones| == c.zones
    ensures Inv(c, Take(c, s, t, stream))
  {
    hide Inv, MapsInverse, LandedPages, LifeCycle, Counts, RefsExact, Tasks, Moves, Coverage, TriedStreams, InRange,
         Totals;
    PartsMakeInv(c, s);
    PartsSize(c, s);
    TakeZoneSide(c, s, t, stream);
    TakeTaskSide(c, s, t, stream);
    TakeReserve(c, s, t, stream);
    RefStep(c, s, Take(c, s, t, stream), s.active[stream].value);
  }

  lemma TakeTaskSide(c: Config, s: State, t: nat, stream: nat)
    requires Inv(c, s) && CanAlloc(s, t, stream) && s.active[stream].Some?
             && s.active[stream].value < |s.zones| == c.zones
    ensures TaskSide(c, Take(c, s, t, stream).(zones := s.zones))
  {
    hide Inv, MapsInverse, LandedPages, LifeCycle, Counts, RefsExact, Tasks, Moves, Coverage, InRange, Totals,
         WellFormed, Reserve;
    PartsMakeInv(c, s);
    TaskFacts(c, s, t);
    var s' := Take(c, s, t, stream);
    var io := s'.ios[t];
    InRangeUpdate(c, s.zones, s.ios, t, io);
    LinksKeep(s.ios, s.tree, t, io);
    LandedKeep(s.zones, s.ios, t, io);
    MovesKeep(s.zones, s.ios, s.gc, s.mapping, t, io);
    CoverageKeep(s.zones, s.ios, s'.ios, s.gc);
    forall u | u in s'.ios
      ensures TriedOk(s'.ios[u], s.empty, s'.active)
    {
      assert TriedOk(s.ios[u], s.empty, s.active);
    }
  }

  lemma TakeZoneSide(c: Config, s: State, t: nat, stream: nat)
    requires Inv(c, s) && CanAlloc(s, t, stream) && s.active[stream].Some? && |s.zones| == c.zones
    ensures s.active[stream].value < |s.zones|
    ensures var s' := Take(c, s, t, stream);
            && LifeCycle(c, s'.zones, s.empty, s.full, s'.active, s.gc)
            && Counts(s'.zones, s'.ios, s.gc)
  {
    hide Inv, MapsInverse, LandedPages, Counts, RefsExact, Tasks, Moves, Coverage, TriedStreams, InRange, Totals,
         WellFormed, Reserve;
    PartsMakeInv(c, s);
    var z := s.active[stream].value;
    assert s.zones[z].phase == Active(stream);
    hide LifeCycle;
    ZoneFacts(c, s, z);
    TakeLife(c, s, t, stream);
    var s' := Take(c, s, t, stream);
    CountUpdate(s.ios, t, s'.ios[t]);
    CountsZone(s, s'.ios, s.gc, z, s'.zones[z]);
  }

  lemma TakeLife(c: Config, s: State, t: nat, stream: nat)
    requires CanAlloc(s, t, stream) && s.active[stream].Some? && s.active[stream].value < |s.zones| == c.zones
    requires LifeCycle(c, s.zones, s.empty, s.full, s.active, s.gc)
    requires ZoneCounts(s.active[stream].value, s.zones[s.active[stream].value], s.ios, s.gc)
    ensures var s' := Take(c, s, t, stream); LifeCycle(c, s'.zones, s.empty, s.full, s'.active, s.gc)
  {
    var z := s.active[stream].value;
    var s' := Take(c, s, t, stream);
    assert forall i :: 0 <= i < |s.zones| ==> ZoneLife(c, i, s.zones[i], s.empty, s.full, s.active, s.gc);
    assert forall i :: 0 <= i < |s.zones| && i != z ==> ZoneLife(c, i, s'.zones[i], s.empty, s.full, s'.active, s.gc);
  }

  // Whoever owes an allocation does so for a victim under collection.
  lemma OwesMeansGc(c: Config, s: State, t: nat)
    requires Inv(c, s) && t in s.ios && Match(Owes, s.ios[t])
    ensures s.gc.Some?
  {
    hide Inv;
    if s.gc.None? { NoGcNoMoves(c, s); }
  }

  lemma TakeReserve(c: Config, s: State, t: nat, stream: nat)
    requires Inv(c, s) && CanAlloc(s, t, stream) && s.active[stream].Some?
             && s.active[stream].value < |s.zones| == c.zones
    requires !Refused(c, s, t)
    ensures var s' := Take(c, s, t, stream);
            && Count(s'.ios, LiveUser) == Count(s.ios, LiveUser)
            && Count(s'.ios, LiveRead) == Count(s.ios, LiveRead)
            && Count(s'.ios, LiveMove) == Count(s.ios, LiveMove)
            && Reserve(c, s')
            && s'.zones[s.active[stream].value].wp == s.zones[s.active[stream].value].wp + 1
  {
    hide Inv, MapsInverse, LandedPages, LifeCycle, Counts, RefsExact, Tasks, Moves, Coverage, TriedStreams, InRange,
         Totals, WellFormed;
    PartsMakeInv(c, s);
    var s' := Take(c, s, t, stream);
    CountUpdate(s.ios, t, s'.ios[t]);
    if UsesReserve(s.ios[t]) { OwesMeansGc(c, s, t); }
  }

  lemma TryAllocInv(c: Config, s: State, t: nat, stream: nat)
    requires Inv(c, s) && CanAlloc(s, t, stream) && HasRoom(s, stream)
    ensures Inv(c, TryAlloc(c, s, t, stream))
  {
    hide Inv;
    PartsMakeInv(c, s);
    if !Refused(c, s, t) {
      if s.active[stream].Some? {
        TakeInv(c, s, t, stream);
      } else {
        OpenInv(c, s, stream);
        TakeInv(c, Open(c, s, stream), t, stream);
      }
    }
  }

  // --------------------------------------------------------------------------- the device

  lemma AppendInv(c: Config, s: State, t: nat)
    requires Inv(c, s) && CanAppend(s, t)
    ensures Inv(c, Append(c, s, t))
  {
    hide Inv, MapsInverse, LandedPages, LifeCycle, Counts, RefsExact, Tasks, Moves, Coverage, TriedStreams, InRange,
         Totals, Reserve, WellFormed;
    PartsMakeInv(c, s);
    TaskFacts(c, s, t);
    var z := s.ios[t].st.zone;
    var s' := Append(c, s, t);
    var io := s'.ios[t];
    var s1 := s.(zones := s'.zones);
    ZoneFacts(c, s, z);
    AppendMedia(c, s, z, io.data);
    InRangeUpdate(c, s'.zones, s.ios, t, io);
    LinksKeep(s.ios, s.tree, t, io);
    AppendLanded(c, s, t);
    AppendMoves(c, s, t);
    CoverageKeep(s'.zones, s.ios, s'.ios, s.gc);
    TriedKeep(s, t, io);
    LifeKeep(c, s, z, s'.zones[z]);
    AppendCounts(c, s, t);
    PartsMakeInv(c, s');
  }

  lemma AppendMedia(c: Config, s: State, z: nat, d: Page)
    requires z < |s.zones| && MapsInverse(c, s.zones, s.mapping) && Coverage(s.zones, s.ios, s.gc)
             && InRange(c, s.zones, s.ios)
    ensures var zs := s.zones[z := s.zones[z].(data := s.zones[z].data + [d])];
            MapsInverse(c, zs, s.mapping) && Coverage(zs, s.ios, s.gc) && InRange(c, zs, s.ios)
  {
  }

  lemma AppendLanded(c: Config, s: State, t: nat)
    requires WellFormed(c, s) && CanAppend(s, t) && LandedPages(s.zones, s.ios) && MapsInverse(c, s.zones, s.mapping)
    ensures LandedPages(Append(c, s, t).zones, Append(c, s, t).ios)
  {
    var z := s.ios[t].st.zone;
    var s' := Append(c, s, t);
    assert |s.zones[z].data| !in s.zones[z].rmap;
    hide MapsInverse, WellFormed;
  }

  lemma AppendMoves(c: Config, s: State, t: nat)
    requires WellFormed(c, s) && CanAppend(s, t) && Moves(s.zones, s.ios, s.gc, s.mapping)
    ensures Moves(Append(c, s, t).zones, Append(c, s, t).ios, s.gc, s.mapping)
  {
    var s' := Append(c, s, t);
    forall u | u in s'.ios && IsMove(s'.ios[u])
      ensures MoveOk(s'.zones, s'.ios, s.gc, s.mapping, s'.ios[u])
    {
      assert MoveOk(s.zones, s.ios, s.gc, s.mapping, s.ios[u]);
    }
  }

  lemma AppendCounts(c: Config, s: State, t: nat)
    requires WellFormed(c, s) && CanAppend(s, t) && Counts(s.zones, s.ios, s.gc) && Totals(c, s) && Reserve(c, s)
    ensures var s' := Append(c, s, t); Counts(s'.zones, s'.ios, s'.gc) && Totals(c, s') && Reserve(c, s')
  {
    var z := s.ios[t].st.zone;
    var s' := Append(c, s, t);
    assert ZoneCounts(z, s.zones[z], s.ios, s.gc);
    hide Counts, Totals, WellFormed, InRange, Reserve;
    CountUpdate(s.ios, t, s'.ios[t]);
    CountsZone(s, s'.ios, s.gc, z, s'.zones[z]);
    AppendTotals(c, s, t);
  }

  lemma AppendTotals(c: Config, s: State, t: nat)
    requires WellFormed(c, s) && CanAppend(s, t) && Totals(c, s) && Reserve(c, s)
    ensures Totals(c, Append(c, s, t)) && Reserve(c, Append(c, s, t))
  {
    assert |s.zones| == c.zones && s.ios[t].st.zone < c.zones;
    hide Totals, WellFormed, InRange;
    var s' := Append(c, s, t);
    CountUpdate(s.ios, t, s'.ios[t]);
    TotalsStep(c, s, s', s.ios[t].st.zone);
  }

  // ----------------------------------------------------------------------------- the worker

  lemma CloseInv(c: Config, s: State, z: nat)
    requires Inv(c, s) && CanClose(s, z)
    ensures Inv(c, Close(s, z))
  {
    hide Inv, MapsInverse, LandedPages, LifeCycle, Counts, RefsExact, Tasks, Moves, Coverage, TriedStreams, InRange,
         Totals, WellFormed;
    PartsMakeInv(c, s);
    var s' := Close(s, z);
    CloseLife(c, s, z);
    ZoneFacts(c, s, z);
    CountsZone(s, s.ios, s.gc, z, s'.zones[z]);
    RefStep(c, s, s', z);
  }

  lemma CloseLife(c: Config, s: State, z: nat)
    requires LifeCycle(c, s.zones, s.empty, s.full, s.active, s.gc) && CanClose(s, z)
    ensures var s' := Close(s, z); LifeCycle(c, s'.zones, s.empty, s'.full, s.active, s.gc)
  {
    var s' := Close(s, z);
    assert z !in s.full;
    assert forall i :: 0 <= i < |s.zones| && i != z ==>
             ZoneLife(c, i, s'.zones[i], s.empty, s'.full, s.active, s.gc) by {
      assert forall i :: 0 <= i < |s.zones| ==> ZoneLife(c, i, s.zones[i], s.empty, s.full, s.active, s.gc);
    }
    assert ZoneLife(c, z, s.zones[z], s.empty, s.full, s.active, s.gc);
    assert z in s'.full;
  }

  /** A zone under collection without references is dead: no operation refers to it, no
      block is mapped into it, and its weight is zero. */
  lemma UnreferencedIsDead(c: Config, s: State, z: nat)
    requires Inv(c, s) && z < |s.zones| && s.zones[z].phase.Gc? && s.zones[z].refs == 0
    ensures s.zones[z].rmap == map[] && s.zones[z].weight == 0
    ensures forall b <- s.mapping :: s.mapping[b].zone != z
    ensures forall t <- s.ios :: !Match(WritesTo(z), s.ios[t]) && !Match(ReadsFrom(z), s.ios[t]) && !IsMove(s.ios[t])
  {
    hide Inv, LandedPages, LifeCycle, Counts, RefsExact, Tasks, Moves, TriedStreams, InRange, Totals, WellFormed,
         Reserve;
    PartsMakeInv(c, s);
    ZoneFacts(c, s, z);
    DoneScan(c, s);
    CountZero(s.ios, WritesTo(z));
    CountZero(s.ios, ReadsFrom(z));
    CountZero(s.ios, MovesFrom(z));
    MovesFromVictim(c, s);
    assert forall o :: o in s.zones[z].rmap ==> o < c.cap && Covered(s.ios, z, o);
    assert s.zones[z].rmap == map[];
  }

  lemma DoneScan(c: Config, s: State)
    requires Inv(c, s) && s.gc.Some?
    ensures s.gc.value.base || s.gc.value.pos == c.cap
  {
    hide MapsInverse, LandedPages, Counts, RefsExact, Tasks, Moves, Coverage, TriedStreams, Totals, WellFormed, Reserve;
    PartsMakeInv(c, s);
  }

  lemma MovesFromVictim(c: Config, s: State)
    requires Moves(s.zones, s.ios, s.gc, s.mapping)
    ensures forall t :: t in s.ios && IsMove(s.ios[t]) ==> s.gc.Some? && Match(MovesFrom(s.gc.value.zone), s.ios[t])
  {
    forall t | t in s.ios && IsMove(s.ios[t])
      ensures s.gc.Some? && Match(MovesFrom(s.gc.value.zone), s.ios[t])
    {
      assert MoveOk(s.zones, s.ios, s.gc, s.mapping, s.ios[t]);
    }
  }

  lemma ResetInv(c: Config, s: State, z: nat)
    requires Inv(c, s) && CanReset(s, z)
    ensures Inv(c, Reset(c, s, z))
  {
    hide Inv, MapsInverse, LandedPages, LifeCycle, Counts, RefsExact, Tasks, Moves, Coverage, TriedStreams, InRange,
         Totals, WellFormed;
    PartsMakeInv(c, s);
    var s' := Reset(c, s, z);
    UnreferencedIsDead(c, s, z);
    ZoneFacts(c, s, z);
    ResetLife(c, s, z);
    ResetMedia(c, s, z);
    ResetTried(c, s);
    ResetCounts(s, z);
    CountsZone(s, s.ios, None, z, s'.zones[z]);
    TotalsStep(c, s, s', z);
    PartsMakeInv(c, s');
  }

  lemma ResetCounts(s: State, z: nat)
    requires z < |s.zones| && s.zones[z].refs == 0 && ZoneCounts(z, s.zones[z], s.ios, s.gc) && s.gc.Some?
             && s.gc.value.zone == z
    ensures Count(s.ios, Unlanded(z)) == 0
    ensures forall i: nat :: BaseRef(s.gc, i) == 0
  {
    assert Holders(s.ios, Unlanded(z)) <= Holders(s.ios, WritesTo(z));
  }

  lemma ResetLife(c: Config, s: State, z: nat)
    requires LifeCycle(c, s.zones, s.empty, s.full, s.active, s.gc) && CanReset(s, z)
    ensures var s' := Reset(c, s, z); LifeCycle(c, s'.zones, s'.empty, s.full, s.active, None)
  {
    var s' := Reset(c, s, z);
    assert z !in s.empty;
    assert forall i :: 0 <= i < |s.zones| ==> ZoneLife(c, i, s.zones[i], s.empty, s.full, s.active, s.gc);
    assert forall i :: 0 <= i < |s.zones| && i != z ==> ZoneLife(c, i, s'.zones[i], s'.empty, s.full, s.active, None);
    assert z in s'.empty;
  }

  lemma ResetMedia(c: Config, s: State, z: nat)
    requires MapsInverse(c, s.zones, s.mapping) && LandedPages(s.zones, s.ios) && InRange(c, s.zones, s.ios)
    requires CanReset(s, z) && s.zones[z].rmap == map[]
    requires forall t <- s.ios :: !Match(WritesTo(z), s.ios[t]) && !Match(ReadsFrom(z), s.ios[t]) && !IsMove(s.ios[t])
    ensures var s' := Reset(c, s, z);
            && MapsInverse(c, s'.zones, s.mapping) && LandedPages(s'.zones, s.ios) && InRange(c, s'.zones, s.ios)
            && Moves(s'.zones, s.ios, None, s.mapping) && Coverage(s'.zones, s.ios, None)
  {
    assert forall t <- s.ios :: !Match(WritesTo(z), s.ios[t]);
  }

  lemma ResetTried(c: Config, s: State)
    requires Tasks(s.ios, s.tree) && TriedStreams(s.ios, s.empty, s.active)
    requires forall t <- s.ios :: !IsMove(s.ios[t])
    ensures forall empty :: TriedStreams(s.ios, empty, s.active)
  {
    forall t | t in s.ios && s.ios[t].Task? && s.ios[t].st.Alloc?
      ensures s.ios[t].st.tried == {}
    {
      assert StatusOk(s.ios[t]);
    }
  }

  // ---------------------------------------------------------------------- what an attempt changes

  // The status of a task after an attempt on one stream.
  predicate Tried(io: Io, stream: nat, ok: bool, st: Status)
    requires io.Task? && io.st.Alloc?
  {
    if ok then st.Writing?
    else st == Alloc(if UsesReserve(io) then io.st.tried + {stream} else io.st.tried)
  }

  /** An attempt changes one task's status, the zones and the allocator, and nothing else. */
  lemma TryAllocShape(c: Config, s: State, t: nat, stream: nat)
    requires WellFormed(c, s) && CanAlloc(s, t, stream)
    ensures var s' := TryAlloc(c, s, t, stream);
            && t in s'.ios && s'.ios[t].Task? && s'.ios == s.ios[t := s.ios[t].(st := s'.ios[t].st)]
            && Tried(s.ios[t], stream, !Refused(c, s, t) && HasRoom(s, stream), s'.ios[t].st)
            && s'.mapping == s.mapping && s'.tree == s.tree && s'.gc == s.gc && s'.full == s.full && s'.sched == s.sched
            && s'.gcInflight == s.gcInflight && s'.userInflight == s.userInflight && |s'.active| == |s.active|
  {
    assert s.active[stream].Some? ==> s.active[stream].value < c.zones;
    assert s.empty != [] ==> s.empty[0] < c.zones;
    assert |s.zones| == c.zones;
    hide WellFormed, TakeZone;
    if !Refused(c, s, t) && HasRoom(s, stream) {
      var s1 := if s.active[stream].Some? then s else Open(c, s, stream);
      assert TryAlloc(c, s, t, stream) == Take(c, s1, t, stream);
    }
  }
}
