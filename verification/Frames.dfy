/** How the parts of the invariant react to a change of one operation or one zone. */
module Frames {
  import opened Machine
  import opened Counting
  import opened Invariant

  /** The parts of the invariant, without the range facts that follow from the others. */
  ghost predicate Parts(c: Config, s: State) {
    && c.Valid()
    && |s.active| == c.streams
    && InRange(c, s.zones, s.ios)
    && MapsInverse(c, s.zones, s.mapping)
    && LandedPages(s.zones, s.ios)
    && LifeCycle(c, s.zones, s.empty, s.full, s.active, s.gc)
    && Counts(s.zones, s.ios, s.gc)
    && Totals(c, s)
    && RefsExact(s.ios, 0, 0)
    && Tasks(s.ios, s.tree)
    && Moves(s.zones, s.ios, s.gc, s.mapping)
    && Coverage(s.zones, s.ios, s.gc)
    && Reserve(c, s)
    && TriedStreams(s.ios, s.empty, s.active)
  }

  lemma PartsOfInv(c: Config, s: State)
    requires Inv(c, s)
    ensures Parts(c, s)
  {
    hide MapsInverse, LandedPages, LifeCycle, Counts, Totals, RefsExact, Tasks, Moves, Coverage, Reserve, TriedStreams;
    assert Holds(MapsPart, c, s) && Holds(LandedPart, c, s) && Holds(LifePart, c, s) && Holds(CountsPart, c, s);
    assert Holds(TotalsPart, c, s) && Holds(RefsPart, c, s) && Holds(TasksPart, c, s) && Holds(MovesPart, c, s);
    assert Holds(CoveragePart, c, s) && Holds(ReservePart, c, s) && Holds(TriedPart, c, s);
  }

  lemma PartsMakeInv(c: Config, s: State)
    ensures Parts(c, s) <==> Inv(c, s)
    ensures Inv(c, s) ==> WellFormed(c, s)
  {
    hide LandedPages, Counts, Totals, RefsExact, Moves, Coverage, Reserve, TriedStreams, ConflictLinks, ParkLinks,
         InRange;
    if Inv(c, s) {
      PartsOfInv(c, s);
    } else if Parts(c, s) {
      forall part: Part
        ensures Holds(part, c, s)
      {
      }
      PartsSize(c, s);
      assert forall i :: 0 <= i < |s.empty| ==> s.empty[i] in s.empty;
      assert forall i :: 0 <= i < |s.full| ==> s.full[i] in s.full;
    }
  }

  lemma InvShape(c: Config, s: State)
    requires Inv(c, s)
    ensures WellFormed(c, s) && c.Valid()
  {
    hide Inv, WellFormed;
    PartsMakeInv(c, s);
  }

  lemma PartsSize(c: Config, s: State)
    requires InRange(c, s.zones, s.ios)
    ensures |s.zones| == c.zones
  {
  }

  // What the invariant says about one task.
  lemma TaskFacts(c: Config, s: State, t: nat)
    requires Inv(c, s) && t in s.ios && s.ios[t].Task?
    ensures |s.zones| == c.zones && IoInRange(c, s.zones, s.ios, s.ios[t])
    ensures StatusOk(s.ios[t]) && TriedOk(s.ios[t], s.empty, s.active)
    ensures IsMove(s.ios[t]) ==> MoveOk(s.zones, s.ios, s.gc, s.mapping, s.ios[t])
    ensures s.ios[t].rc == OwnRefs(s.ios[t].st) + Count(s.ios, ConflictsOn(t)) && s.ios[t].rc > 0
  {
    hide MapsInverse, LandedPages, LifeCycle, Counts, Totals, Coverage, Reserve, TreeLinks, ConflictLinks, ParkLinks;
    PartsMakeInv(c, s);
  }

  // ------------------------------------------------- one operation changes, links stay

  // b is a with its progress changed but every link to other tasks kept.
  ghost predicate SameLinks(a: Io, b: Io) {
    && a.Task? && b.Task?
    && a.kind == b.kind && a.blk == b.blk && a.src == b.src && a.pendingGc == b.pendingGc
    && InTree(a.st) == InTree(b.st)
    && (a.st == b.st || (NoLink(a.st) && NoLink(b.st)))
  }

  predicate NoLink(st: Status) {
    !st.Conflict? && !st.Parked? && !st.Done? && !st.Finishing?
  }

  lemma InRangeUpdate(c: Config, zones: seq<Zone>, ios: map<nat, Io>, t: nat, io: Io)
    requires InRange(c, zones, ios)
    requires t in ios && ios[t].Task? ==> io.Task?
    requires IoInRange(c, zones, ios[t := io], io)
    ensures InRange(c, zones, ios[t := io])
  {
  }

  lemma LinksKeep(ios: map<nat, Io>, tree: map<nat, nat>, t: nat, io: Io)
    requires RefsExact(ios, 0, 0) && Tasks(ios, tree)
    requires t in ios && SameLinks(ios[t], io) && io.rc == ios[t].rc && StatusOk(io)
    ensures RefsExact(ios[t := io], 0, 0) && Tasks(ios[t := io], tree)
  {
    RefsKeep(ios, t, io);
    TasksKeep(ios, tree, t, io);
  }

  lemma RefsKeep(ios: map<nat, Io>, t: nat, io: Io)
    requires RefsExact(ios, 0, 0)
    requires t in ios && SameLinks(ios[t], io) && io.rc == ios[t].rc
    ensures RefsExact(ios[t := io], 0, 0)
  {
    CountUpdate(ios, t, io);
  }

  lemma TasksKeep(ios: map<nat, Io>, tree: map<nat, nat>, t: nat, io: Io)
    requires Tasks(ios, tree)
    requires t in ios && SameLinks(ios[t], io) && StatusOk(io)
    ensures Tasks(ios[t := io], tree)
  {
    var ios' := ios[t := io];
    assert TreeLinks(ios', tree);
    assert ConflictLinks(ios');
    assert ParkLinks(ios');
  }

  lemma MovesKeep(zones: seq<Zone>, ios: map<nat, Io>, gc: Option<Scan>, mapping: map<nat, Pbid>, t: nat, io: Io)
    requires Moves(zones, ios, gc, mapping)
    requires t in ios && (io.Task? && io.st.Done? ==> ios[t].Task? && ios[t].st.Done?)
    requires IsMove(io) ==> IsMove(ios[t]) && ios[t].blk == io.blk && MoveOk(zones, ios[t := io], gc, mapping, io)
    ensures Moves(zones, ios[t := io], gc, mapping)
  {
    var ios' := ios[t := io];
    forall u | u in ios' && IsMove(ios'[u])
      ensures MoveOk(zones, ios', gc, mapping, ios'[u])
    {
      if u != t { assert MoveOk(zones, ios, gc, mapping, ios[u]); }
    }
  }

  lemma CoverageKeep(zones: seq<Zone>, ios: map<nat, Io>, ios': map<nat, Io>, gc: Option<Scan>)
    requires Coverage(zones, ios, gc)
    requires forall t, v, o :: Covers(ios, t, v, o) ==> Covers(ios', t, v, o)
    ensures Coverage(zones, ios', gc)
  {
    if gc.Some? && gc.value.zone < |zones| {
      var v := gc.value.zone;
      forall o | o in zones[v].rmap && o < gc.value.pos
        ensures Covered(ios', v, o)
      {
        assert Covered(ios, v, o);
        var t :| Covers(ios, t, v, o);
        assert Covers(ios', t, v, o);
      }
    }
  }

  lemma LandedKeep(zones: seq<Zone>, ios: map<nat, Io>, t: nat, io: Io)
    requires LandedPages(zones, ios)
    requires io.Task? ==> !io.st.Landed?
    ensures LandedPages(zones, ios[t := io])
  {
  }

  // ------------------------------------------------------------- a new operation appears

  lemma NewTask(ios: map<nat, Io>, tree: map<nat, nat>, t: nat, io: Io)
    requires RefsExact(ios, 0, 0) && Tasks(ios, tree)
    requires t !in ios
    requires io.Read? || (io.rc == 1 && (io.st.Init? || io.st.Reading?) && io.pendingGc.None? && StatusOk(io))
    ensures RefsExact(ios[t := io], 0, 0) && Tasks(ios[t := io], tree)
  {
    var ios' := ios[t := io];
    CountUpdate(ios, t, io);
    assert RefsExact(ios', 0, 0);
    NewTaskLinks(ios, tree, t, io);
  }

  lemma NewTaskLinks(ios: map<nat, Io>, tree: map<nat, nat>, t: nat, io: Io)
    requires Tasks(ios, tree)
    requires t !in ios
    requires io.Read? || ((io.st.Init? || io.st.Reading?) && io.pendingGc.None? && StatusOk(io))
    ensures Tasks(ios[t := io], tree)
  {
    var ios' := ios[t := io];
    assert TreeLinks(ios', tree);
    assert ConflictLinks(ios');
    assert ParkLinks(ios');
  }

  lemma MovesNew(zones: seq<Zone>, ios: map<nat, Io>, gc: Option<Scan>, mapping: map<nat, Pbid>, t: nat, io: Io)
    requires Moves(zones, ios, gc, mapping)
    requires t !in ios
    requires io.Task? ==> !io.st.Done?
    requires IsMove(io) ==> MoveOk(zones, ios[t := io], gc, mapping, io)
    requires IsMove(io) ==> forall u :: u in ios && IsMove(ios[u]) ==> ios[u].blk != io.blk
    ensures Moves(zones, ios[t := io], gc, mapping)
  {
    var ios' := ios[t := io];
    forall u | u in ios' && IsMove(ios'[u])
      ensures MoveOk(zones, ios', gc, mapping, ios'[u])
    {
      if u != t { assert MoveOk(zones, ios, gc, mapping, ios[u]); }
    }
  }

  // ------------------------------------------------------ a zone changes, its media stays

  predicate SameMedia(a: Zone, b: Zone) {
    a.rmap == b.rmap && a.data == b.data
  }

  lemma MediaKeep(c: Config, s: State, z: nat, zone: Zone)
    requires z < |s.zones| && SameMedia(s.zones[z], zone)
    ensures var zs := s.zones[z := zone];
            && (MapsInverse(c, s.zones, s.mapping) ==> MapsInverse(c, zs, s.mapping))
            && (LandedPages(s.zones, s.ios) ==> LandedPages(zs, s.ios))
            && (Coverage(s.zones, s.ios, s.gc) ==> Coverage(zs, s.ios, s.gc))
            && (InRange(c, s.zones, s.ios) ==> InRange(c, zs, s.ios))
            && (Moves(s.zones, s.ios, s.gc, s.mapping) ==> Moves(zs, s.ios, s.gc, s.mapping))
  {
    hide MapsInverse, LandedPages, Coverage, InRange, Moves;
    var zs := s.zones[z := zone];
    if MapsInverse(c, s.zones, s.mapping) { MediaMaps(c, s.zones, zs, s.mapping); }
    MediaIos(c, s.zones, zs, s.ios, s.gc);
    if Moves(s.zones, s.ios, s.gc, s.mapping) { MediaMoves(s.zones, zs, s.ios, s.gc, s.mapping); }
  }

  ghost predicate AllSameMedia(a: seq<Zone>, b: seq<Zone>) {
    |a| == |b| && forall i :: 0 <= i < |a| ==> SameMedia(a[i], b[i])
  }

  lemma MediaMaps(c: Config, zones: seq<Zone>, zs: seq<Zone>, mapping: map<nat, Pbid>)
    requires AllSameMedia(zones, zs) && MapsInverse(c, zones, mapping)
    ensures MapsInverse(c, zs, mapping)
  {
  }

  lemma MediaIos(c: Config, zones: seq<Zone>, zs: seq<Zone>, ios: map<nat, Io>, gc: Option<Scan>)
    requires AllSameMedia(zones, zs)
    ensures LandedPages(zones, ios) ==> LandedPages(zs, ios)
    ensures Coverage(zones, ios, gc) ==> Coverage(zs, ios, gc)
    ensures InRange(c, zones, ios) ==> InRange(c, zs, ios)
  {
  }

  lemma MediaMoves(zones: seq<Zone>, zs: seq<Zone>, ios: map<nat, Io>, gc: Option<Scan>, mapping: map<nat, Pbid>)
    requires AllSameMedia(zones, zs) && Moves(zones, ios, gc, mapping)
    ensures Moves(zs, ios, gc, mapping)
  {
    forall u | u in ios && IsMove(ios[u])
      ensures MoveOk(zs, ios, gc, mapping, ios[u])
    {
      assert MoveOk(zones, ios, gc, mapping, ios[u]);
    }
  }

  // ------------------------------------------------------------------- counts stay the same

  ghost predicate SameCounts(ios: map<nat, Io>, ios': map<nat, Io>) {
    forall q :: Count(ios', q) == Count(ios, q)
  }

  lemma CountSame(ios: map<nat, Io>, t: nat, io: Io)
    requires t in ios && forall q :: Match(q, io) == Match(q, ios[t])
    ensures SameCounts(ios, ios[t := io])
  {
    CountUpdate(ios, t, io);
  }

  predicate OnZone(q: Query) {
    q.WritesTo? || q.Unlanded? || q.ReadsFrom? || q.MovesFrom?
  }

  lemma CountsKeep(zones: seq<Zone>, ios: map<nat, Io>, ios': map<nat, Io>, gc: Option<Scan>)
    requires Counts(zones, ios, gc) && forall q :: OnZone(q) ==> Count(ios', q) == Count(ios, q)
    ensures Counts(zones, ios', gc)
  {
    forall i | 0 <= i < |zones|
      ensures ZoneCounts(i, zones[i], ios', gc)
    {
      assert ZoneCounts(i, zones[i], ios, gc);
    }
  }

  /** Global counters and the reserve, when only operations changed and none of them
      came, went or started to owe an allocation. */
  lemma LedgerKeep(c: Config, s: State, s': State)
    requires Totals(c, s) && Reserve(c, s)
    requires s' == s.(ios := s'.ios, tree := s'.tree)
    requires Count(s'.ios, LiveUser) == Count(s.ios, LiveUser)
    requires Count(s'.ios, LiveMove) == Count(s.ios, LiveMove)
    requires Count(s'.ios, LiveRead) == Count(s.ios, LiveRead)
    requires Count(s'.ios, Owes) <= Count(s.ios, Owes)
    ensures Totals(c, s') && Reserve(c, s')
  {
  }

  // A task gains or loses references and changes in no other way.
  lemma RcKeeps(c: Config, s: State, h: nat, host: Io)
    requires h in s.ios && s.ios[h].Task? && host.Task? && host == s.ios[h].(rc := host.rc)
    requires Tasks(s.ios, s.tree) && Moves(s.zones, s.ios, s.gc, s.mapping) && Coverage(s.zones, s.ios, s.gc)
    requires InRange(c, s.zones, s.ios) && LandedPages(s.zones, s.ios) && TriedStreams(s.ios, s.empty, s.active)
    ensures var ios := s.ios[h := host];
            && Tasks(ios, s.tree) && Moves(s.zones, ios, s.gc, s.mapping) && Coverage(s.zones, ios, s.gc)
            && InRange(c, s.zones, ios) && LandedPages(s.zones, ios) && TriedStreams(ios, s.empty, s.active)
            && SameCounts(s.ios, ios)
  {
    hide Tasks, Coverage, LandedPages, SameCounts;
    CountSame(s.ios, h, host);
    RcTasks(s.ios, s.tree, h, host);
    assert IsMove(host) ==> MoveOk(s.zones, s.ios, s.gc, s.mapping, s.ios[h]);
    MovesKeep(s.zones, s.ios, s.gc, s.mapping, h, host);
    CoverageKeep(s.zones, s.ios, s.ios[h := host], s.gc);
    LandedSame(s.zones, s.ios, h, host);
  }

  lemma RcTasks(ios: map<nat, Io>, tree: map<nat, nat>, h: nat, host: Io)
    requires h in ios && ios[h].Task? && host.Task? && host == ios[h].(rc := host.rc) && Tasks(ios, tree)
    ensures Tasks(ios[h := host], tree)
  {
    hide TreeLinks, ConflictLinks, ParkLinks;
    TasksKeep(ios, tree, h, host);
  }

  lemma LandedSame(zones: seq<Zone>, ios: map<nat, Io>, t: nat, io: Io)
    requires LandedPages(zones, ios)
    requires t in ios && ios[t].Task? && io.Task? && io.st == ios[t].st && io.data == ios[t].data
    ensures LandedPages(zones, ios[t := io])
  {
  }

  lemma TriedKeep(s: State, t: nat, io: Io)
    requires TriedStreams(s.ios, s.empty, s.active) && TriedOk(io, s.empty, s.active)
    ensures TriedStreams(s.ios[t := io], s.empty, s.active)
  {
  }

  // ------------------------------------------------------------ a task reference is dropped

  lemma LifeKeep(c: Config, s: State, z: nat, zone: Zone)
    requires LifeCycle(c, s.zones, s.empty, s.full, s.active, s.gc)
    requires z < |s.zones| && zone.phase == s.zones[z].phase
    requires ZoneLife(c, z, zone, s.empty, s.full, s.active, s.gc)
    ensures LifeCycle(c, s.zones[z := zone], s.empty, s.full, s.active, s.gc)
  {
  }

  // Only a task that is done and that nobody refers to loses its last reference.
  lemma LastRef(ios: map<nat, Io>, h: nat, n: nat)
    requires h in ios && ios[h].Task? && RefsExact(ios, h, n)
    ensures ios[h].rc <= n ==> ios[h].st.Done? && Count(ios, ConflictsOn(h)) == 0
  {
  }

  lemma ReleaseCounts(ios: map<nat, Io>, h: nat, n: nat)
    requires h in ios && ios[h].Task? && ParkLinks(ios)
    requires ios[h].rc <= n ==> ios[h].st.Done?
    ensures SameCounts(ios, Release(ios, h, n))
  {
    var t := ios[h].(rc := ios[h].rc - n);
    if t.rc > 0 {
      CountUpdate(ios, h, t);
    } else {
      CountRemove(ios, h);
      if t.kind.User? && t.pendingGc.Some? {
        var g := t.pendingGc.value;
        CountUpdate(ios - {h}, g, ios[g].(st := Finishing));
      }
    }
  }

  lemma ReleaseRefs(ios: map<nat, Io>, h: nat, n: nat)
    requires n > 0 && h in ios && ios[h].Task? && RefsExact(ios, h, n) && ParkLinks(ios)
    ensures RefsExact(Release(ios, h, n), 0, 0)
  {
    LastRef(ios, h, n);
    ReleaseCounts(ios, h, n);
  }

  lemma ReleaseTasks(ios: map<nat, Io>, tree: map<nat, nat>, h: nat, n: nat)
    requires n > 0 && h in ios && ios[h].Task? && Tasks(ios, tree)
    requires ios[h].rc <= n ==> ios[h].st.Done? && Count(ios, ConflictsOn(h)) == 0
    ensures Tasks(Release(ios, h, n), tree)
  {
    assert StatusOk(ios[h]);
    if ios[h].rc <= n {
      CountZero(ios, ConflictsOn(h));
      hide Count;
      DestroyTasks(ios, tree, h, n);
    } else {
      hide Count;
      TasksKeep(ios, tree, h, ios[h].(rc := ios[h].rc - n));
    }
  }

  // The last reference on h goes: h is destroyed and its parked GC task is handed over.
  lemma DestroyTasks(ios: map<nat, Io>, tree: map<nat, nat>, h: nat, n: nat)
    requires h in ios && ios[h].Task? && Tasks(ios, tree) && ios[h].rc <= n && ios[h].st.Done?
    requires forall t :: t in ios ==> !Match(ConflictsOn(h), ios[t])
    ensures Tasks(Release(ios, h, n), tree)
  {
    var ios' := Release(ios, h, n);
    assert TreeLinks(ios', tree);
    assert ConflictLinks(ios');
    assert ParkLinks(ios');
  }

  lemma ReleaseMoves(zones: seq<Zone>, ios: map<nat, Io>, gc: Option<Scan>, mapping: map<nat, Pbid>, h: nat, n: nat)
    requires h in ios && ios[h].Task? && ParkLinks(ios) && Moves(zones, ios, gc, mapping) && Coverage(zones, ios, gc)
    requires ios[h].rc <= n ==> ios[h].st.Done?
    ensures Moves(zones, Release(ios, h, n), gc, mapping) && Coverage(zones, Release(ios, h, n), gc)
  {
    var ios' := Release(ios, h, n);
    forall u | u in ios' && IsMove(ios'[u])
      ensures MoveOk(zones, ios', gc, mapping, ios'[u])
    {
      assert MoveOk(zones, ios, gc, mapping, ios[u]);
    }
    if gc.Some? && gc.value.zone < |zones| {
      var v := gc.value.zone;
      forall o | o in zones[v].rmap && o < gc.value.pos
        ensures Covered(ios', v, o)
      {
        assert Covered(ios, v, o);
        var u :| Covers(ios, u, v, o);
        assert MoveOk(zones, ios, gc, mapping, ios[u]);
        assert Covers(ios', u, v, o);
      }
    }
  }

  lemma ReleaseInRange(c: Config, zones: seq<Zone>, ios: map<nat, Io>, h: nat, n: nat)
    requires h in ios && ios[h].Task? && ParkLinks(ios) && InRange(c, zones, ios)
    requires ios[h].rc <= n ==> ios[h].st.Done? && Count(ios, ConflictsOn(h)) == 0
    ensures InRange(c, zones, Release(ios, h, n))
  {
    var ios' := Release(ios, h, n);
    if ios[h].rc <= n { CountZero(ios, ConflictsOn(h)); }
    forall u | u in ios'
      ensures IoInRange(c, zones, ios', ios'[u])
    {
      assert IoInRange(c, zones, ios, ios[u]);
    }
  }

  lemma ReleaseLanded(s: State, ios: map<nat, Io>, h: nat, n: nat)
    requires h in ios && ios[h].Task? && ParkLinks(ios)
    requires LandedPages(s.zones, ios) && TriedStreams(ios, s.empty, s.active)
    ensures LandedPages(s.zones, Release(ios, h, n))
    ensures TriedStreams(Release(ios, h, n), s.empty, s.active)
  {
    var ios' := Release(ios, h, n);
    forall u | u in ios'
      ensures TriedOk(ios'[u], s.empty, s.active)
    {
      assert TriedOk(ios[u], s.empty, s.active);
    }
    assert forall u :: u in ios' && ios'[u].Task? && ios'[u].st.Landed? ==>
        u in ios && ios[u].Task? && ios[u].st == ios'[u].st && ios[u].data == ios'[u].data;
  }

  /** Dropping the surplus reference restores every task-side part of the invariant. */
  lemma ReleaseKeeps(c: Config, s: State, h: nat, n: nat)
    requires n > 0 && h in s.ios && s.ios[h].Task? && RefsExact(s.ios, h, n) && Tasks(s.ios, s.tree)
    requires Moves(s.zones, s.ios, s.gc, s.mapping) && Coverage(s.zones, s.ios, s.gc)
    requires InRange(c, s.zones, s.ios) && LandedPages(s.zones, s.ios) && TriedStreams(s.ios, s.empty, s.active)
    ensures var ios := Release(s.ios, h, n);
            && RefsExact(ios, 0, 0) && Tasks(ios, s.tree)
            && Moves(s.zones, ios, s.gc, s.mapping) && Coverage(s.zones, ios, s.gc)
            && InRange(c, s.zones, ios) && LandedPages(s.zones, ios) && TriedStreams(ios, s.empty, s.active)
            && SameCounts(s.ios, ios)
  {
    hide RefsExact, Moves, Coverage, LandedPages, TriedStreams, ConflictLinks, TreeLinks, SameCounts;
    LastRef(s.ios, h, n);
    ReleaseCounts(s.ios, h, n);
    ReleaseRefs(s.ios, h, n);
    ReleaseTasks(s.ios, s.tree, h, n);
    ReleaseMoves(s.zones, s.ios, s.gc, s.mapping, h, n);
    ReleaseInRange(c, s.zones, s.ios, h, n);
    ReleaseLanded(s, s.ios, h, n);
  }

  // ------------------------------------------------------------------------ a zone changes

  // What the invariant says about one zone.
  lemma ZoneFacts(c: Config, s: State, z: nat)
    requires Inv(c, s) && z < |s.zones|
    ensures ZoneLife(c, z, s.zones[z], s.empty, s.full, s.active, s.gc)
    ensures ZoneCounts(z, s.zones[z], s.ios, s.gc)
  {
    hide MapsInverse, LandedPages, RefsExact, Tasks, Moves, Totals, Coverage, Reserve, TriedStreams, WellFormed;
    PartsMakeInv(c, s);
  }

  lemma CountsZone(s: State, ios: map<nat, Io>, gc: Option<Scan>, z: nat, zone: Zone)
    requires Counts(s.zones, s.ios, s.gc) && z < |s.zones|
    requires ZoneCounts(z, zone, ios, gc)
    requires forall q: Query :: OnZone(q) && q.zone != z ==> Count(ios, q) == Count(s.ios, q)
    requires forall i: nat :: i != z ==> BaseRef(gc, i) == BaseRef(s.gc, i)
    ensures Counts(s.zones[z := zone], ios, gc)
  {
    forall i | 0 <= i < |s.zones| && i != z
      ensures ZoneCounts(i, s.zones[i], ios, gc)
    {
      assert ZoneCounts(i, s.zones[i], s.ios, s.gc);
    }
  }

  // Every global counter moved by as much as its one changed zone and operation.
  lemma TotalsStep(c: Config, s: State, s': State, z: nat)
    requires Totals(c, s) && z < |s.zones| && |s'.zones| == |s.zones| && s'.zones == s.zones[z := s'.zones[z]]
    requires s'.allocable - s.allocable == s.zones[z].wp - s'.zones[z].wp
    requires s'.valid - s.valid == s'.zones[z].weight - s.zones[z].weight
    requires |s'.mapping| - |s.mapping| == |s'.zones[z].rmap| - |s.zones[z].rmap|
    requires s'.userInflight - s.userInflight == Count(s'.ios, LiveUser) - Count(s.ios, LiveUser)
    requires s'.readInflight - s.readInflight == Count(s'.ios, LiveRead) - Count(s.ios, LiveRead)
    requires s'.gcInflight - s.gcInflight == Count(s'.ios, LiveMove) - Count(s.ios, LiveMove)
    ensures Totals(c, s')
  {
    TotalUpdate(c.cap, s.zones, z, s'.zones[z]);
  }

  // The parts of the invariant that speak about operations and the media they refer to.
  ghost predicate TaskSide(c: Config, s: State) {
    && InRange(c, s.zones, s.ios)
    && LandedPages(s.zones, s.ios)
    && RefsExact(s.ios, 0, 0)
    && Tasks(s.ios, s.tree)
    && Moves(s.zones, s.ios, s.gc, s.mapping)
    && Coverage(s.zones, s.ios, s.gc)
    && TriedStreams(s.ios, s.empty, s.active)
  }

  /** A step that changes operations and, in one zone z, anything but the media. */
  lemma RefStep(c: Config, s: State, s': State, z: nat)
    requires Inv(c, s) && z < |s.zones| && z < |s'.zones| && |s'.active| == |s.active|
    requires s'.zones == s.zones[z := s'.zones[z]] && s'.mapping == s.mapping
    requires SameMedia(s.zones[z], s'.zones[z])
    requires TaskSide(c, s'.(zones := s.zones))
    requires LifeCycle(c, s'.zones, s'.empty, s'.full, s'.active, s'.gc)
    requires Counts(s'.zones, s'.ios, s'.gc)
    requires s'.allocable - s.allocable == s.zones[z].wp - s'.zones[z].wp
    requires s'.valid - s.valid == s'.zones[z].weight - s.zones[z].weight
    requires s'.userInflight - s.userInflight == Count(s'.ios, LiveUser) - Count(s.ios, LiveUser)
    requires s'.readInflight - s.readInflight == Count(s'.ios, LiveRead) - Count(s.ios, LiveRead)
    requires s'.gcInflight - s.gcInflight == Count(s'.ios, LiveMove) - Count(s.ios, LiveMove)
    requires Reserve(c, s')
    ensures Inv(c, s')
  {
    hide Inv, MapsInverse, LandedPages, LifeCycle, Counts, RefsExact, Tasks, Moves, Coverage, TriedStreams, InRange,
         Totals, Reserve, WellFormed;
    PartsMakeInv(c, s);
    MediaKeep(c, s'.(zones := s.zones), z, s'.zones[z]);
    TotalsStep(c, s, s', z);
    PartsMakeInv(c, s');
  }
}
