/** Reads, and the steps that only take or drop a zone reference. */
module ReadSteps {
  import opened Machine
  import opened Counting
  import opened Invariant
  import opened Frames
  import opened TaskSteps

  /** A zone under collection with a live block in it is still referenced. */
  lemma MappedIsHeld(c: Config, s: State, z: nat, o: nat)
    requires Inv(c, s) && z < |s.zones| && o in s.zones[z].rmap && s.zones[z].phase.Gc?
    ensures s.zones[z].refs > 0
  {
    hide LandedPages, RefsExact, Tasks, Moves, Totals, Reserve, TriedStreams, WellFormed;
    PartsMakeInv(c, s);
    assert ZoneLife(c, z, s.zones[z], s.empty, s.full, s.active, s.gc);
    assert ZoneCounts(z, s.zones[z], s.ios, s.gc);
    if o < s.gc.value.pos {
      assert Covered(s.ios, z, o);
      var t :| Covers(s.ios, t, z, o);
      CountPositive(s.ios, t, MovesFrom(z));
    }
  }

  lemma LookupInv(c: Config, s: State, r: nat, b: nat)
    requires Inv(c, s) && r !in s.ios && b in s.mapping
    ensures Inv(c, Lookup(c, s, r, b))
  {
    hide Inv, MapsInverse, LandedPages, LifeCycle, Counts, RefsExact, Tasks, Moves, Coverage, TriedStreams, InRange,
         Totals, WellFormed;
    PartsMakeInv(c, s);
    MappedPlace(c, s, b);
    NewIo(c, s, r, Read(s.mapping[b], None));
    LookupZone(c, s, r, b);
    RefStep(c, s, Lookup(c, s, r, b), s.mapping[b].zone);
  }

  // The reserve knows nothing of reads.
  lemma ReserveKeep(c: Config, s: State, s': State)
    requires Reserve(c, s) && s'.gc == s.gc && s'.allocable == s.allocable && |s'.zones| == |s.zones|
    requires s.gc.Some? && s.gc.value.zone < |s.zones| ==>
               s'.zones[s.gc.value.zone].rmap == s.zones[s.gc.value.zone].rmap
    requires Count(s'.ios, Owes) == Count(s.ios, Owes)
    ensures Reserve(c, s')
  {
  }

  lemma LookupZone(c: Config, s: State, r: nat, b: nat)
    requires Inv(c, s) && r !in s.ios && b in s.mapping
    ensures var s' := Lookup(c, s, r, b);
            && LifeCycle(c, s'.zones, s.empty, s.full, s.active, s.gc)
            && Counts(s'.zones, s'.ios, s.gc)
            && Count(s'.ios, LiveUser) == Count(s.ios, LiveUser)
            && Count(s'.ios, LiveRead) == Count(s.ios, LiveRead) + 1
            && Count(s'.ios, LiveMove) == Count(s.ios, LiveMove)
            && Reserve(c, s')
  {
    hide Inv, MapsInverse, LandedPages, LifeCycle, Counts, RefsExact, Tasks, Moves, Coverage, TriedStreams, InRange,
         Totals, Reserve, WellFormed, Owed;
    PartsMakeInv(c, s);
    MappedPlace(c, s, b);
    var p := s.mapping[b];
    ZoneFacts(c, s, p.zone);
    if s.zones[p.zone].phase.Gc? { MappedIsHeld(c, s, p.zone, p.off); }
    var s' := Lookup(c, s, r, b);
    LifeKeep(c, s, p.zone, s'.zones[p.zone]);
    CountUpdate(s.ios, r, Read(p, None));
    CountsZone(s, s'.ios, s.gc, p.zone, s'.zones[p.zone]);
    ReserveKeep(c, s, s');
  }

  // A mapped block lies on a written block of an existing, non-empty zone.
  lemma MappedPlace(c: Config, s: State, b: nat)
    requires Inv(c, s) && b in s.mapping
    ensures var p := s.mapping[b];
            && b < c.blocks && |s.zones| == c.zones && p.zone < |s.zones|
            && p.off in s.zones[p.zone].rmap && p.off < |s.zones[p.zone].data| && s.zones[p.zone].rmap[p.off] == b
  {
    hide LandedPages, RefsExact, Tasks, Moves, Totals, Reserve, TriedStreams, LifeCycle, Counts, Coverage;
    PartsMakeInv(c, s);
  }

  lemma ReadMediaInv(c: Config, s: State, r: nat)
    requires Inv(c, s) && CanReadMedia(s, r)
    ensures Inv(c, ReadMedia(c, s, r))
  {
    hide Inv, MapsInverse, LandedPages, LifeCycle, Counts, RefsExact, Tasks, Moves, Coverage, TriedStreams, Totals,
         Reserve, WellFormed;
    PartsMakeInv(c, s);
    var s' := ReadMedia(c, s, r);
    var io := s'.ios[r];
    InRangeUpdate(c, s.zones, s.ios, r, io);
    ReadLinks(s.ios, s.tree, r, io);
    LandedKeep(s.zones, s.ios, r, io);
    MovesKeep(s.zones, s.ios, s.gc, s.mapping, r, io);
    CoverageKeep(s.zones, s.ios, s'.ios, s.gc);
    CountSame(s.ios, r, io);
    CountsKeep(s.zones, s.ios, s'.ios, s.gc);
    LedgerKeep(c, s, s');
    TriedKeep(s, r, io);
    PartsMakeInv(c, s');
  }

  lemma ReadLinks(ios: map<nat, Io>, tree: map<nat, nat>, r: nat, io: Io)
    requires r in ios && ios[r].Read? && io.Read? && RefsExact(ios, 0, 0) && Tasks(ios, tree)
    ensures RefsExact(ios[r := io], 0, 0) && Tasks(ios[r := io], tree)
  {
    CountUpdate(ios, r, io);
    assert RefsExact(ios[r := io], 0, 0);
    ReadTasks(ios, tree, r, io);
  }

  lemma ReadTasks(ios: map<nat, Io>, tree: map<nat, nat>, r: nat, io: Io)
    requires r in ios && ios[r].Read? && io.Read? && Tasks(ios, tree)
    ensures Tasks(ios[r := io], tree)
  {
    var ios' := ios[r := io];
    assert TreeLinks(ios', tree);
    assert ConflictLinks(ios');
    assert ParkLinks(ios');
  }

  lemma ReadEndioInv(c: Config, s: State, r: nat)
    requires Inv(c, s) && CanReadEndio(s, r)
    ensures Inv(c, ReadEndio(c, s, r))
  {
    hide Inv, MapsInverse, LandedPages, LifeCycle, Counts, RefsExact, Tasks, Moves, Coverage, TriedStreams, Totals,
         WellFormed;
    PartsMakeInv(c, s);
    ReadGone(c, s, r);
    ReadEndioZone(c, s, r);
    RefStep(c, s, ReadEndio(c, s, r), s.ios[r].from.zone);
  }

  lemma ReadEndioZone(c: Config, s: State, r: nat)
    requires Inv(c, s) && CanReadEndio(s, r)
    ensures var s' := ReadEndio(c, s, r);
            && LifeCycle(c, s'.zones, s.empty, s.full, s.active, s.gc)
            && Counts(s'.zones, s'.ios, s.gc)
            && Count(s'.ios, LiveUser) == Count(s.ios, LiveUser)
            && Count(s'.ios, LiveRead) == Count(s.ios, LiveRead) - 1
            && Count(s'.ios, LiveMove) == Count(s.ios, LiveMove)
            && Reserve(c, s')
  {
    hide Inv, MapsInverse, LandedPages, LifeCycle, Counts, RefsExact, Tasks, Moves, Coverage, TriedStreams, InRange,
         Totals, Reserve, WellFormed;
    PartsMakeInv(c, s);
    ReadPlace(c, s, r);
    var z := s.ios[r].from.zone;
    ZoneFacts(c, s, z);
    CountPositive(s.ios, r, ReadsFrom(z));
    var s' := ReadEndio(c, s, r);
    CountRemove(s.ios, r);
    LifeKeep(c, s, z, s'.zones[z]);
    CountsZone(s, s'.ios, s.gc, z, s'.zones[z]);
    ReserveKeep(c, s, s');
  }

  lemma ReadPlace(c: Config, s: State, r: nat)
    requires WellFormed(c, s) && r in s.ios && s.ios[r].Read?
    ensures s.ios[r].from.zone < |s.zones|
  {
  }

  lemma ReadGone(c: Config, s: State, r: nat)
    requires r in s.ios && s.ios[r].Read?
    requires InRange(c, s.zones, s.ios) && LandedPages(s.zones, s.ios) && RefsExact(s.ios, 0, 0) && Tasks(s.ios, s.tree)
    requires Moves(s.zones, s.ios, s.gc, s.mapping) && Coverage(s.zones, s.ios, s.gc)
    requires TriedStreams(s.ios, s.empty, s.active)
    ensures TaskSide(c, s.(ios := s.ios - {r}))
  {
    ReadGoneLinks(s.ios, s.tree, r);
    ReadGoneRefs(s.ios, r);
    hide RefsExact, Tasks;
    var ios' := s.ios - {r};
    CoverageKeep(s.zones, s.ios, ios', s.gc);
    ReadGoneMoves(s, r);
    hide Moves, Coverage, MoveOk;
  }

  lemma ReadGoneMoves(s: State, r: nat)
    requires r in s.ios && s.ios[r].Read? && Moves(s.zones, s.ios, s.gc, s.mapping)
    ensures Moves(s.zones, s.ios - {r}, s.gc, s.mapping)
  {
    var ios' := s.ios - {r};
    forall u | u in ios' && IsMove(ios'[u])
      ensures MoveOk(s.zones, ios', s.gc, s.mapping, ios'[u])
    {
      assert MoveOk(s.zones, s.ios, s.gc, s.mapping, s.ios[u]);
    }
  }

  lemma ReadGoneRefs(ios: map<nat, Io>, r: nat)
    requires r in ios && ios[r].Read? && RefsExact(ios, 0, 0)
    ensures RefsExact(ios - {r}, 0, 0)
  {
    CountRemove(ios, r);
  }

  lemma ReadGoneLinks(ios: map<nat, Io>, tree: map<nat, nat>, r: nat)
    requires r in ios && ios[r].Read? && Tasks(ios, tree)
    ensures Tasks(ios - {r}, tree)
  {
    var ios' := ios - {r};
    assert TreeLinks(ios', tree);
    assert ConflictLinks(ios');
    assert ParkLinks(ios');
  }
}
