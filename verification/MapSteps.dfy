/** The steps that change the mapping: unmapping a block and completing a write. */
module MapSteps {
  import opened Machine
  import opened Counting
  import opened Invariant
  import opened Frames
  import opened TreeSteps

  // ------------------------------------------------------------------------------- unmap

  lemma UnmapInv(c: Config, s: State, b: nat)
    requires Inv(c, s)
    ensures Inv(c, Unmap(c, s, b))
  {
    hide Inv, MapsInverse, LandedPages, LifeCycle, Counts, RefsExact, Tasks, Moves, Coverage, TriedStreams, InRange,
         Totals, WellFormed;
    PartsMakeInv(c, s);
    if b in s.mapping {
      UnmapMaps(c, s, b);
      var p := s.mapping[b];
      var s' := Unmap(c, s, b);
      ZoneFacts(c, s, p.zone);
      UnmapTasks(c, s, b);
      LifeKeep(c, s, p.zone, s'.zones[p.zone]);
      SizeRemove(s.zones[p.zone].rmap, p.off);
      SizeRemove(s.mapping, b);
      CountsZone(s, s.ios, s.gc, p.zone, s'.zones[p.zone]);
      TotalsStep(c, s, s', p.zone);
      UnmapReserve(c, s, b);
      PartsMakeInv(c, s');
    }
  }

  lemma UnmapMaps(c: Config, s: State, b: nat)
    requires WellFormed(c, s) && MapsInverse(c, s.zones, s.mapping) && b in s.mapping
    ensures s.mapping[b].zone < |s.zones| && s.mapping[b].off in s.zones[s.mapping[b].zone].rmap
    ensures MapsInverse(c, Unmap(c, s, b).zones, Unmap(c, s, b).mapping)
  {
    hide WellFormed;
    var p, s' := s.mapping[b], Unmap(c, s, b);
    assert s'.zones[p.zone].rmap == s.zones[p.zone].rmap - {p.off};
    assert forall z :: 0 <= z < |s.zones| && z != p.zone ==> s'.zones[z] == s.zones[z];
    assert s'.zones[p.zone].data == s.zones[p.zone].data && |s'.zones| == |s.zones| && s'.mapping == s.mapping - {b};
    hide Unmap;
    MapsRemove(c, s.zones, s.mapping, b, s'.zones);
  }

  lemma MapsRemove(c: Config, zones: seq<Zone>, mapping: map<nat, Pbid>, b: nat, zs: seq<Zone>)
    requires MapsInverse(c, zones, mapping) && b in mapping && |zs| == |zones|
    requires forall z :: 0 <= z < |zones| && z != mapping[b].zone ==> zs[z] == zones[z]
    requires zs[mapping[b].zone].rmap == zones[mapping[b].zone].rmap - {mapping[b].off}
    requires zs[mapping[b].zone].data == zones[mapping[b].zone].data
    ensures MapsInverse(c, zs, mapping - {b})
  {
    var p, m := mapping[b], mapping - {b};
    forall d | d in m
      ensures m[d].off in zs[m[d].zone].rmap && zs[m[d].zone].rmap[m[d].off] == d
    {
      assert zones[m[d].zone].rmap[m[d].off] == d;
      assert m[d] != p;
    }
    forall z, o | 0 <= z < |zs| && o in zs[z].rmap
      ensures o < |zs[z].data| && zs[z].rmap[o] in m && m[zs[z].rmap[o]] == Pbid(z, o)
    {
      assert zs[z].rmap[o] == zones[z].rmap[o];
      assert Pbid(z, o) != p;
    }
  }

  lemma UnmapTasks(c: Config, s: State, b: nat)
    requires WellFormed(c, s) && b in s.mapping
    requires LandedPages(s.zones, s.ios) && Moves(s.zones, s.ios, s.gc, s.mapping) && Coverage(s.zones, s.ios, s.gc)
    ensures var s' := Unmap(c, s, b);
            && LandedPages(s'.zones, s.ios) && Moves(s'.zones, s.ios, s.gc, s'.mapping)
               && Coverage(s'.zones, s.ios, s.gc)
            && InRange(c, s'.zones, s.ios)
  {
    var s' := Unmap(c, s, b);
    forall u | u in s.ios && IsMove(s.ios[u])
      ensures MoveOk(s'.zones, s.ios, s.gc, s'.mapping, s.ios[u])
    {
      assert MoveOk(s.zones, s.ios, s.gc, s.mapping, s.ios[u]);
    }
  }

  lemma UnmapReserve(c: Config, s: State, b: nat)
    requires WellFormed(c, s) && Reserve(c, s) && b in s.mapping
    ensures Reserve(c, Unmap(c, s, b))
  {
    var p := s.mapping[b];
    if s.gc.Some? && s.gc.value.zone == p.zone {
      UnvisitedRemove(s.zones[p.zone].rmap, s.gc.value.pos, p.off);
    }
  }

  // ------------------------------------------------------------------------------ commit

  // What is known of a landed write just before it is bound.
  lemma LandedFacts(c: Config, s: State, t: nat)
    requires Inv(c, s) && CanEndio(s, t)
    ensures var p := s.ios[t].st.at;
            && p.zone < |s.zones| && p.off < |s.zones[p.zone].data| && p.off !in s.zones[p.zone].rmap
            && s.zones[p.zone].data[p.off] == s.ios[t].data
            && s.zones[p.zone].pending > 0
            && (s.zones[p.zone].phase.Active? || s.zones[p.zone].phase.ToFull?)
            && (s.gc.Some? ==> s.gc.value.zone != p.zone)
  {
    hide Inv, MapsInverse, Counts, RefsExact, Tasks, Moves, Coverage, TriedStreams, InRange, Totals, WellFormed,
         Reserve;
    PartsMakeInv(c, s);
    var z := s.ios[t].st.at.zone;
    ZoneFacts(c, s, z);
    CountPositive(s.ios, t, WritesTo(z));
  }

  // The device side of the commit: the mapping and the landing zone.
  function Bind(c: Config, s: State, t: nat): State
    requires WellFormed(c, s) && CanEndio(s, t)
  {
    var io := s.ios[t];
    var p := io.st.at;
    s.(mapping := s.mapping[io.blk := p],
       zones := s.zones[p.zone := LandZone(s.zones[p.zone], p.off, io.blk)],
       tree := s.tree - {io.blk})
  }

  lemma BindMaps(c: Config, s: State, t: nat)
    requires Inv(c, s) && CanEndio(s, t) && s.ios[t].blk !in s.mapping
    ensures MapsInverse(c, Bind(c, s, t).zones, Bind(c, s, t).mapping)
  {
    hide Inv, MapsInverse, LandedPages, LifeCycle, Counts, RefsExact, Tasks, Moves, Coverage, TriedStreams, InRange,
         Totals, WellFormed, Reserve;
    PartsMakeInv(c, s);
    TaskFacts(c, s, t);
    LandedFacts(c, s, t);
    MapsBound(c, s.zones, s.mapping, s.ios[t].blk, s.ios[t].st.at, Bind(c, s, t).zones[s.ios[t].st.at.zone]);
  }

  lemma MapsBound(c: Config, zones: seq<Zone>, mapping: map<nat, Pbid>, b: nat, p: Pbid, zone: Zone)
    requires MapsInverse(c, zones, mapping) && b !in mapping && b < c.blocks
    requires p.zone < |zones| && p.off < |zones[p.zone].data| && p.off !in zones[p.zone].rmap
    requires zone.rmap == zones[p.zone].rmap[p.off := b] && zone.data == zones[p.zone].data
    ensures MapsInverse(c, zones[p.zone := zone], mapping[b := p])
  {
  }

  // The task after it has left the tree.
  function Leaving(io: Io): Io
    requires io.Task?
  {
    if io.kind.User? then io.(st := Done) else io.(st := Finishing, rc := io.rc - 1)
  }

  /** What the GC tasks know survives the binding of a block that was unmapped. */
  lemma BindMoves(c: Config, s: State, t: nat)
    requires Inv(c, s) && CanEndio(s, t) && s.ios[t].blk !in s.mapping
    ensures var s1 := Bind(c, s, t);
            Moves(s1.zones, s.ios[t := Leaving(s.ios[t])], s.gc, s1.mapping)
  {
    hide Inv, LandedPages, LifeCycle, Counts, RefsExact, Tasks, Coverage, TriedStreams, InRange, Totals, WellFormed,
         Reserve;
    PartsMakeInv(c, s);
    LandedFacts(c, s, t);
    TaskFacts(c, s, t);
    var s1 := Bind(c, s, t);
    var ios' := s.ios[t := Leaving(s.ios[t])];
    assert |s1.zones| == |s.zones|;
    forall u | u in ios' && IsMove(ios'[u])
      ensures MoveOk(s1.zones, ios', s.gc, s1.mapping, ios'[u])
    {
      BindMove(c, s, t, u, s1, ios');
    }
    hide MapsInverse;
    assert Moves(s.zones, s.ios, s.gc, s.mapping);
  }

  lemma BindMove(c: Config, s: State, t: nat, u: nat, s1: State, ios': map<nat, Io>)
    requires Inv(c, s) && WellFormed(c, s) && CanEndio(s, t) && s.ios[t].blk !in s.mapping
    requires s1 == Bind(c, s, t) && ios' == s.ios[t := Leaving(s.ios[t])]
    requires u in s.ios && IsMove(s.ios[u])
    ensures u in ios' && IsMove(ios'[u]) && MoveOk(s1.zones, ios', s.gc, s1.mapping, ios'[u])
  {
    hide Inv, LandedPages, LifeCycle, Counts, RefsExact, Moves, Coverage, TriedStreams, InRange, Totals, WellFormed,
         Reserve;
    PartsMakeInv(c, s);
    LandedFacts(c, s, t);
    TaskFacts(c, s, u);
    SourceGone(c, s, u);
    HostBlock(s.ios, s.tree, t, u);
  }

  // A GC task that met or parked on t, or that owns t's tree slot, is about t's block.
  lemma HostBlock(ios: map<nat, Io>, tree: map<nat, nat>, t: nat, u: nat)
    requires Tasks(ios, tree) && t in ios && ios[t].Task? && InTree(ios[t].st) && u in ios && IsMove(ios[u])
    ensures ios[u].st == Conflict(t) || ios[u].st == Parked(t) ==> ios[u].blk == ios[t].blk && ios[t].kind.User?
    ensures InTree(ios[u].st) && ios[u].blk == ios[t].blk ==> u == t
    ensures StatusOk(ios[t])
  {
  }

  lemma BindLanded(c: Config, s: State, t: nat)
    requires Inv(c, s) && CanEndio(s, t)
    ensures LandedPages(Bind(c, s, t).zones, s.ios[t := Leaving(s.ios[t])])
    ensures InRange(c, Bind(c, s, t).zones, s.ios[t := Leaving(s.ios[t])])
  {
    hide Inv, MapsInverse, LifeCycle, Counts, RefsExact, Moves, Tasks, Coverage, TriedStreams, Totals, WellFormed,
         Reserve;
    PartsMakeInv(c, s);
    TaskFacts(c, s, t);
  }

  lemma BindCoverage(c: Config, s: State, t: nat)
    requires Inv(c, s) && CanEndio(s, t) && s.ios[t].blk !in s.mapping
    ensures Coverage(Bind(c, s, t).zones, s.ios[t := Leaving(s.ios[t])], s.gc)
  {
    hide Inv, MapsInverse, LifeCycle, LandedPages, InRange, Counts, RefsExact, Moves, Tasks, Coverage, TriedStreams,
         Totals, WellFormed, Reserve;
    PartsMakeInv(c, s);
    TaskFacts(c, s, t);
    LandedFacts(c, s, t);
    var ios' := s.ios[t := Leaving(s.ios[t])];
    if s.ios[t].kind.Mover? {
      SourceGone(c, s, t);
      CoverageDrop(s.zones, s.ios, s.gc, t, ios'[t]);
    } else {
      CoverageKeep(s.zones, s.ios, ios', s.gc);
    }
    OtherZoneCoverage(s.zones, ios', s.gc, s.ios[t].st.at.zone, Bind(c, s, t).zones[s.ios[t].st.at.zone]);
  }

  lemma OtherZoneCoverage(zones: seq<Zone>, ios: map<nat, Io>, gc: Option<Scan>, z: nat, zone: Zone)
    requires Coverage(zones, ios, gc) && z < |zones| && (gc.Some? ==> gc.value.zone != z)
    ensures Coverage(zones[z := zone], ios, gc)
  {
  }

  lemma BindLinks(ios: map<nat, Io>, tree: map<nat, nat>, t: nat)
    requires Tasks(ios, tree) && t in ios && IsUser(ios[t]) && ios[t].st.Landed?
    ensures Tasks(ios[t := Leaving(ios[t])], tree - {ios[t].blk})
  {
    var ios' := ios[t := Leaving(ios[t])];
    assert StatusOk(ios[t]);
    assert TreeLinks(ios', tree - {ios[t].blk});
    assert ConflictLinks(ios');
    assert ParkLinks(ios');
  }

  lemma BindRefs(ios: map<nat, Io>, t: nat)
    requires RefsExact(ios, 0, 0) && t in ios && IsUser(ios[t]) && ios[t].st.Landed?
    ensures RefsExact(ios[t := Leaving(ios[t])], t, 2)
  {
    CountUpdate(ios, t, Leaving(ios[t]));
  }

  // Every task-side part of the invariant holds after the commit.
  lemma CommitTasks(c: Config, s: State, t: nat)
    requires Inv(c, s) && CanEndio(s, t) && s.ios[t].blk !in s.mapping
    ensures TaskSide(c, Commit(c, s, t))
  {
    hide Inv, MapsInverse, LifeCycle, LandedPages, InRange, Counts, RefsExact, Moves, Tasks, Coverage, TriedStreams,
         Totals, WellFormed, Reserve;
    PartsMakeInv(c, s);
    TaskFacts(c, s, t);
    BindLanded(c, s, t);
    BindMoves(c, s, t);
    BindCoverage(c, s, t);
    var s1 := Bind(c, s, t).(ios := s.ios[t := Leaving(s.ios[t])]);
    TriedKeep(s, t, s1.ios[t]);
    if s.ios[t].kind.User? {
      BindLinks(s.ios, s.tree, t);
      BindRefs(s.ios, t);
      ReleaseKeeps(c, s1, t, 2);
    } else {
      StopTasks(s.ios, s.tree, t);
    }
  }

  // Counts after the commit: one write fewer on its zone, one live write fewer.
  lemma CommitCounts(c: Config, s: State, t: nat)
    requires Inv(c, s) && CanEndio(s, t)
    ensures forall q: Query :: Count(Commit(c, s, t).ios, q)
                               == Count(s.ios, q) - Bit(q == WritesTo(s.ios[t].st.at.zone)
                                   || (q.LiveUser? && s.ios[t].kind.User?))
  {
    hide Inv, MapsInverse, LifeCycle, LandedPages, InRange, Counts, RefsExact, Moves, Coverage, TriedStreams, Totals,
         WellFormed, Reserve, TreeLinks, ConflictLinks;
    PartsMakeInv(c, s);
    assert StatusOk(s.ios[t]);
    hide StatusOk;
    CountUpdate(s.ios, t, Leaving(s.ios[t]));
    if s.ios[t].kind.User? {
      var ios' := s.ios[t := Leaving(s.ios[t])];
      BindLinks(s.ios, s.tree, t);
      BindRefs(s.ios, t);
      LastRef(ios', t, 2);
      ReleaseCounts(ios', t, 2);
    }
  }

  // The landing zone is in order again once the write is bound and accounted for.
  lemma LandZoneOk(c: Config, s: State, z: nat, off: nat, b: nat, ios: map<nat, Io>)
    requires z < |s.zones| && ZoneLife(c, z, s.zones[z], s.empty, s.full, s.active, s.gc)
    requires ZoneCounts(z, s.zones[z], s.ios, s.gc)
    requires off !in s.zones[z].rmap && s.zones[z].pending > 0 && (s.zones[z].phase.Active? || s.zones[z].phase.ToFull?)
    requires forall q: Query :: OnZone(q) ==> Count(ios, q) == Count(s.ios, q) - Bit(q == WritesTo(z))
    ensures LandZone(s.zones[z], off, b).phase == s.zones[z].phase
    ensures ZoneLife(c, z, LandZone(s.zones[z], off, b), s.empty, s.full, s.active, s.gc)
    ensures ZoneCounts(z, LandZone(s.zones[z], off, b), ios, s.gc)
  {
  }

  lemma CommitShape(c: Config, s: State, t: nat)
    requires WellFormed(c, s) && CanEndio(s, t) && s.ios[t].st.at.zone < |s.zones|
    ensures var s', p, b := Commit(c, s, t), s.ios[t].st.at, s.ios[t].blk;
            && s'.zones == s.zones[p.zone := LandZone(s.zones[p.zone], p.off, b)]
            && s'.mapping == s.mapping[b := p]
            && s'.allocable == s.allocable && s'.valid == s.valid && s'.readInflight == s.readInflight
            && s'.gcInflight == s.gcInflight && s'.gc == s.gc
            && s'.userInflight == s.userInflight - Bit(s.ios[t].kind.User?)
  {
    hide WellFormed, Release;
  }

  lemma CommitZone(c: Config, s: State, t: nat)
    requires Inv(c, s) && CanEndio(s, t) && s.ios[t].blk !in s.mapping
    ensures var s' := Commit(c, s, t);
            LifeCycle(c, s'.zones, s.empty, s.full, s.active, s.gc) && Counts(s'.zones, s'.ios, s.gc)
  {
    hide Inv, MapsInverse, LandedPages, LifeCycle, Counts, RefsExact, Tasks, Moves, Coverage, TriedStreams, InRange,
         Totals, WellFormed, Release, Reserve, Commit, LandZone, ZoneLife, ZoneCounts;
    PartsMakeInv(c, s);
    LandedFacts(c, s, t);
    var p := s.ios[t].st.at;
    ZoneFacts(c, s, p.zone);
    var s' := Commit(c, s, t);
    CommitShape(c, s, t);
    CommitCounts(c, s, t);
    LandZoneOk(c, s, p.zone, p.off, s.ios[t].blk, s'.ios);
    LifeKeep(c, s, p.zone, s'.zones[p.zone]);
    CountsZone(s, s'.ios, s.gc, p.zone, s'.zones[p.zone]);
  }

  lemma CommitTotals(c: Config, s: State, t: nat)
    requires Inv(c, s) && CanEndio(s, t) && s.ios[t].blk !in s.mapping
    ensures Totals(c, Commit(c, s, t)) && Reserve(c, Commit(c, s, t))
  {
    hide Inv, MapsInverse, LandedPages, LifeCycle, Counts, RefsExact, Tasks, Moves, Coverage, TriedStreams, InRange,
         Totals, WellFormed, Release, Commit, Reserve;
    PartsMakeInv(c, s);
    LandedFacts(c, s, t);
    CommitShape(c, s, t);
    CommitCounts(c, s, t);
    var s', p := Commit(c, s, t), s.ios[t].st.at;
    assert s'.zones[p.zone].rmap == s.zones[p.zone].rmap[p.off := s.ios[t].blk];
    TotalsStep(c, s, s', p.zone);
    SameOwed(c, s, s', p.zone);
  }

  // What is owed to the collector does not depend on zones other than its victim.
  lemma SameOwed(c: Config, s: State, s': State, z: nat)
    requires Reserve(c, s) && z < |s.zones| && |s'.zones| == |s.zones| && s'.zones == s.zones[z := s'.zones[z]]
    requires s'.gc == s.gc && (s.gc.Some? ==> s.gc.value.zone != z) && s'.allocable == s.allocable
    requires Count(s'.ios, Owes) == Count(s.ios, Owes)
    ensures Reserve(c, s')
  {
  }

  lemma CommitInv(c: Config, s: State, t: nat)
    requires Inv(c, s) && CanEndio(s, t) && s.ios[t].blk !in s.mapping
    ensures Inv(c, Commit(c, s, t))
  {
    hide Inv, MapsInverse, LifeCycle, LandedPages, InRange, Counts, RefsExact, Moves, Tasks, Coverage, TriedStreams,
         Totals, WellFormed, Reserve;
    PartsMakeInv(c, s);
    CommitTasks(c, s, t);
    CommitZone(c, s, t);
    CommitTotals(c, s, t);
    BindMaps(c, s, t);
    PartsMakeInv(c, Commit(c, s, t));
  }

  lemma EndioInv(c: Config, s: State, t: nat)
    requires Inv(c, s) && CanEndio(s, t)
    ensures Inv(c, Endio(c, s, t))
  {
    hide Inv;
    PartsMakeInv(c, s);
    UnmapInv(c, s, s.ios[t].blk);
    CommitInv(c, Unmap(c, s, s.ios[t].blk), t);
  }
}
