/** Steps on the task tree: insertion, conflicts, parking, the collector's re-check and
    the end of a GC task. */
module TreeSteps {
  import opened Machine
  import opened Counting
  import opened Invariant
  import opened Frames

  // ------------------------------------------------------------------------- insertion

  lemma InsertOwns(c: Config, s: State, t: nat)
    requires Inv(c, s) && CanInsert(s, t) && s.ios[t].blk !in s.tree
    ensures Inv(c, Insert(c, s, t))
  {
    hide Inv, MapsInverse, LandedPages, LifeCycle, Counts, RefsExact, Tasks, Moves, Coverage, TriedStreams, InRange,
         Totals, Reserve;
    TaskFacts(c, s, t);
    PartsMakeInv(c, s);
    var s' := Insert(c, s, t);
    var io := s'.ios[t];
    InRangeUpdate(c, s.zones, s.ios, t, io);
    InsertOwnsTasks(c, s, t);
    LandedKeep(s.zones, s.ios, t, io);
    MovesTouch(c, s, t, io);
    CoverageKeep(s.zones, s.ios, s'.ios, s.gc);
    CountUpdate(s.ios, t, io);
    CountsKeep(s.zones, s.ios, s'.ios, s.gc);
    LedgerKeep(c, s, s');
    TriedKeep(s, t, io);
    PartsMakeInv(c, s');
  }

  // A GC task keeps what it knows when its status moves to one that demands no more.
  lemma MovesTouch(c: Config, s: State, t: nat, io: Io)
    requires Moves(s.zones, s.ios, s.gc, s.mapping) && t in s.ios && s.ios[t].Task?
    requires io.Task? && !io.st.Done? && io.kind == s.ios[t].kind && io.blk == s.ios[t].blk && io.src == s.ios[t].src
    requires io.data == s.ios[t].data
    requires s.ios[t].kind.Mover? ==> !s.ios[t].st.Reading? && !s.ios[t].st.Done?
    requires io.st.Inserted? || io.st.Finishing? || (io.kind.User?)
             || (io.st.Conflict? && !HostDone(s.ios, io.st.host) && io.st.host != t)
    ensures Moves(s.zones, s.ios[t := io], s.gc, s.mapping)
  {
    assert IsMove(io) ==> MoveOk(s.zones, s.ios, s.gc, s.mapping, s.ios[t]);
    MovesKeep(s.zones, s.ios, s.gc, s.mapping, t, io);
  }

  predicate HostDone(ios: map<nat, Io>, h: nat) {
    h in ios && ios[h].Task? && ios[h].st.Done?
  }

  lemma InsertOwnsTasks(c: Config, s: State, t: nat)
    requires CanInsert(s, t) && s.ios[t].blk !in s.tree
    requires RefsExact(s.ios, 0, 0) && Tasks(s.ios, s.tree)
    ensures RefsExact(Insert(c, s, t).ios, 0, 0) && Tasks(Insert(c, s, t).ios, Insert(c, s, t).tree)
  {
    hide RefsExact, Tasks, Insert;
    InsertOwnsRefs(c, s, t);
    InsertOwnsLinks(c, s, t);
  }

  lemma InsertOwnsRefs(c: Config, s: State, t: nat)
    requires CanInsert(s, t) && s.ios[t].blk !in s.tree && RefsExact(s.ios, 0, 0)
    ensures RefsExact(Insert(c, s, t).ios, 0, 0)
  {
    hide Match, Count;
    ConflictUpdate(s.ios, t, Insert(c, s, t).ios[t]);
  }

  lemma InsertOwnsLinks(c: Config, s: State, t: nat)
    requires CanInsert(s, t) && s.ios[t].blk !in s.tree && Tasks(s.ios, s.tree)
    ensures Tasks(Insert(c, s, t).ios, Insert(c, s, t).tree)
  {
    var s' := Insert(c, s, t);
    assert StatusOk(s.ios[t]);
    assert TreeLinks(s'.ios, s'.tree);
    assert ConflictLinks(s'.ios);
    assert ParkLinks(s'.ios);
  }

  // ------------------------------------------------------------------------- conflicts

  // The task that a GC task finds in the tree is always a user write.
  lemma MeetsUser(c: Config, s: State, t: nat)
    requires Inv(c, s) && CanInsert(s, t) && s.ios[t].blk in s.tree
    ensures var h := s.tree[s.ios[t].blk];
            && h in s.ios && h != t && s.ios[h].Task? && s.ios[h].blk == s.ios[t].blk && InTree(s.ios[h].st)
            && (s.ios[t].kind.Mover? ==> s.ios[h].kind.User?)
  {
    hide MapsInverse, LandedPages, LifeCycle, Counts, Totals, RefsExact, Coverage, Reserve, ConflictLinks, ParkLinks;
    PartsMakeInv(c, s);
    var h := s.tree[s.ios[t].blk];
    assert TreeLinks(s.ios, s.tree);
    if s.ios[t].kind.Mover? && s.ios[h].kind.Mover? {
      assert false;
    }
  }

  lemma InsertMeets(c: Config, s: State, t: nat)
    requires Inv(c, s) && CanInsert(s, t) && s.ios[t].blk in s.tree
    ensures Inv(c, Insert(c, s, t))
  {
    hide Inv, MapsInverse, LandedPages, LifeCycle, Counts, RefsExact, Tasks, Moves, Coverage, TriedStreams, InRange,
         Totals, Reserve, WellFormed;
    PartsMakeInv(c, s);
    MeetsUser(c, s, t);
    var h := s.tree[s.ios[t].blk];
    TaskFacts(c, s, t);
    TaskFacts(c, s, h);
    var host := s.ios[h].(rc := s.ios[h].rc + 1);
    var s1 := s.(ios := s.ios[h := host]);
    var s' := Insert(c, s, t);
    RcKeeps(c, s, h, host);
    HostLedger(c, s, h, host);
    hide SameCounts;
    InRangeUpdate(c, s.zones, s1.ios, t, s'.ios[t]);
    InsertMeetsRefs(c, s, t);
    MeetLinks(s1.ios, s.tree, h, t);
    LandedKeep(s.zones, s1.ios, t, s'.ios[t]);
    MovesTouch(c, s1, t, s'.ios[t]);
    CoverageKeep(s.zones, s1.ios, s'.ios, s.gc);
    LedgerUpdate(c, s1, t, s'.ios[t], s.tree);
    TriedKeep(s1, t, s'.ios[t]);
    PartsMakeInv(c, s');
  }

  lemma HostLedger(c: Config, s: State, h: nat, host: Io)
    requires Counts(s.zones, s.ios, s.gc) && Totals(c, s) && Reserve(c, s) && SameCounts(s.ios, s.ios[h := host])
    ensures var s1 := s.(ios := s.ios[h := host]);
            Counts(s1.zones, s1.ios, s1.gc) && Totals(c, s1) && Reserve(c, s1)
  {
    hide Counts, Totals, Reserve;
    CountsKeep(s.zones, s.ios, s.ios[h := host], s.gc);
    LedgerKeep(c, s, s.(ios := s.ios[h := host]));
  }

  lemma MeetLinks(ios: map<nat, Io>, tree: map<nat, nat>, h: nat, t: nat)
    requires Tasks(ios, tree) && t in ios && h in ios && h != t && ios[h].Task? && ios[t].Task?
    requires if ios[t].kind.User? then ios[t].st.Init? else ios[t].st.ReadDone?
    requires ios[h].blk == ios[t].blk && InTree(ios[h].st) && (ios[t].kind.Mover? ==> ios[h].kind.User?)
    ensures Tasks(ios[t := ios[t].(st := Conflict(h))], tree)
  {
    var ios' := ios[t := ios[t].(st := Conflict(h))];
    assert StatusOk(ios[t]);
    assert TreeLinks(ios', tree);
    assert ConflictLinks(ios');
    assert ParkLinks(ios');
  }

  lemma InsertMeetsRefs(c: Config, s: State, t: nat)
    requires CanInsert(s, t) && s.ios[t].blk in s.tree && RefsExact(s.ios, 0, 0)
    requires var h := s.tree[s.ios[t].blk]; h in s.ios && h != t && s.ios[h].Task?
    ensures RefsExact(Insert(c, s, t).ios, 0, 0)
  {
    var h := s.tree[s.ios[t].blk];
    var host := s.ios[h].(rc := s.ios[h].rc + 1);
    var met := s.ios[t].(st := Conflict(h));
    assert Insert(c, s, t).ios == s.ios[h := host][t := met];
    hide Insert;
    MeetRefs(s.ios, h, host, t, met);
  }

  lemma MeetRefs(ios: map<nat, Io>, h: nat, host: Io, t: nat, met: Io)
    requires RefsExact(ios, 0, 0) && h in ios && t in ios && h != t && ios[h].Task? && ios[t].Task?
    requires host == ios[h].(rc := ios[h].rc + 1) && met == ios[t].(st := Conflict(h)) && !ios[t].st.Conflict?
    requires OwnRefs(ios[t].st) == 1
    ensures RefsExact(ios[h := host][t := met], 0, 0)
  {
    hide Match, Count;
    var ios' := ios[h := host][t := met];
    ConflictUpdate(ios, h, host);
    ConflictUpdate(ios[h := host], t, met);
    forall u | u in ios' && ios'[u].Task?
      ensures ios'[u].rc == OwnRefs(ios'[u].st) + Count(ios', ConflictsOn(u)) && ios'[u].rc > 0
    {
      assert ios[u].Task? && ios[u].rc == OwnRefs(ios[u].st) + Count(ios, ConflictsOn(u));
    }
  }

  lemma InsertInv(c: Config, s: State, t: nat)
    requires Inv(c, s) && CanInsert(s, t)
    ensures Inv(c, Insert(c, s, t))
  {
    if s.ios[t].blk in s.tree { InsertMeets(c, s, t); } else { InsertOwns(c, s, t); }
  }

  // The transient reference on h is no longer accounted for by t.
  lemma DropConflict(ios: map<nat, Io>, t: nat, io: Io)
    requires RefsExact(ios, 0, 0) && t in ios && ios[t].Task? && ios[t].st.Conflict?
    requires io.Task? && io.rc == ios[t].rc && (io.st.Init? || io.st.Parked?)
    ensures RefsExact(ios[t := io], ios[t].st.host, 1)
  {
    CountUpdate(ios, t, io);
  }

  lemma ConflictFacts(c: Config, s: State, t: nat)
    requires Inv(c, s) && CanResolve(s, t)
    ensures var h := s.ios[t].st.host;
            && h in s.ios && h != t && s.ios[h].Task? && s.ios[h].blk == s.ios[t].blk
            && (s.ios[t].kind.Mover? ==>
                  s.ios[h].kind.User? && s.ios[h].pendingGc.None? && (InTree(s.ios[h].st) || s.ios[h].st.Done?))
  {
    hide MapsInverse, LandedPages, LifeCycle, Counts, Totals, RefsExact, Coverage, Reserve, TreeLinks, TriedStreams;
    PartsMakeInv(c, s);
    var h := s.ios[t].st.host;
    assert ConflictLinks(s.ios) && ParkLinks(s.ios);
    assert StatusOk(s.ios[h]);
    if s.ios[t].kind.Mover? && s.ios[h].pendingGc.Some? {
      assert false;
    }
  }

  lemma ResolveUser(c: Config, s: State, t: nat)
    requires Inv(c, s) && CanResolve(s, t) && s.ios[t].kind.User?
    ensures Inv(c, Resolve(c, s, t))
  {
    hide Inv, MapsInverse, LandedPages, LifeCycle, Counts, RefsExact, Tasks, Moves, Coverage, TriedStreams, InRange,
         Totals, Reserve;
    PartsMakeInv(c, s);
    ConflictFacts(c, s, t);
    TaskFacts(c, s, t);
    var h := s.ios[t].st.host;
    var io := s.ios[t].(st := Init);
    var s1 := s.(ios := s.ios[t := io]);
    var s' := Resolve(c, s, t);
    InRangeUpdate(c, s.zones, s.ios, t, io);
    DropConflict(s.ios, t, io);
    UserLinks(s.ios, s.tree, t);
    LandedKeep(s.zones, s.ios, t, io);
    MovesKeep(s.zones, s.ios, s.gc, s.mapping, t, io);
    CoverageKeep(s.zones, s.ios, s1.ios, s.gc);
    TriedKeep(s, t, io);
    ReleaseKeeps(c, s1, h, 1);
    CountUpdate(s.ios, t, io);
    CountsKeep(s.zones, s.ios, s'.ios, s.gc);
    LedgerKeep(c, s, s');
    PartsMakeInv(c, s');
  }

  lemma UserLinks(ios: map<nat, Io>, tree: map<nat, nat>, t: nat)
    requires Tasks(ios, tree) && t in ios && IsUser(ios[t]) && ios[t].st.Conflict?
    ensures Tasks(ios[t := ios[t].(st := Init)], tree)
  {
    var ios' := ios[t := ios[t].(st := Init)];
    assert StatusOk(ios[t]);
    assert TreeLinks(ios', tree);
    assert ConflictLinks(ios');
    assert ParkLinks(ios');
  }

  // --------------------------------------------------------------------------- parking

  // The GC task after it has hung itself on host h.
  function Park(ios: map<nat, Io>, t: nat, h: nat): map<nat, Io>
    requires t in ios && h in ios && ios[t].Task? && ios[h].Task?
  {
    var parked := ios[t := ios[t].(st := Parked(h))];
    parked[h := parked[h].(pendingGc := Some(t))]
  }

  ghost predicate CanPark(ios: map<nat, Io>, t: nat, h: nat) {
    && t in ios && h in ios && h != t && ios[t].Task? && ios[h].Task? && ios[h].blk == ios[t].blk
    && ios[t].kind.Mover? && ios[t].st == Conflict(h)
    && ios[h].kind.User? && ios[h].pendingGc.None? && (InTree(ios[h].st) || ios[h].st.Done?)
  }

  lemma ParkTasks(ios: map<nat, Io>, tree: map<nat, nat>, t: nat, h: nat)
    requires Tasks(ios, tree) && CanPark(ios, t, h)
    ensures Tasks(Park(ios, t, h), tree)
  {
    var ios' := Park(ios, t, h);
    assert StatusOk(ios[t]) && StatusOk(ios[h]);
    assert forall u :: u in ios' && ios'[u].Task? ==> StatusOk(ios'[u]);
    hide StatusOk;
    ParkOldLinks(ios, tree, t, h);
    ParkNewLink(ios, t, h);
  }

  lemma ParkOldLinks(ios: map<nat, Io>, tree: map<nat, nat>, t: nat, h: nat)
    requires TreeLinks(ios, tree) && ConflictLinks(ios) && CanPark(ios, t, h)
    ensures TreeLinks(Park(ios, t, h), tree) && ConflictLinks(Park(ios, t, h))
  {
  }

  lemma ParkNewLink(ios: map<nat, Io>, t: nat, h: nat)
    requires ParkLinks(ios) && CanPark(ios, t, h)
    ensures ParkLinks(Park(ios, t, h))
  {
  }

  lemma ParkRefs(ios: map<nat, Io>, t: nat, h: nat)
    requires RefsExact(ios, 0, 0) && CanPark(ios, t, h)
    ensures RefsExact(Park(ios, t, h), h, 1)
  {
    hide Count;
    var parked := ios[t := ios[t].(st := Parked(h))];
    DropConflict(ios, t, ios[t].(st := Parked(h)));
    CountUpdate(parked, h, parked[h].(pendingGc := Some(t)));
  }

  lemma ParkCounts(ios: map<nat, Io>, t: nat, h: nat)
    requires CanPark(ios, t, h)
    ensures forall q: Query :: !q.Owes? && !q.ConflictsOn? ==> Count(Park(ios, t, h), q) == Count(ios, q)
    ensures Count(Park(ios, t, h), Owes) <= Count(ios, Owes)
  {
    var parked := ios[t := ios[t].(st := Parked(h))];
    CountUpdate(ios, t, parked[t]);
    CountUpdate(parked, h, parked[h].(pendingGc := Some(t)));
  }

  lemma ParkMoves(c: Config, s: State, t: nat, h: nat)
    requires CanPark(s.ios, t, h) && Moves(s.zones, s.ios, s.gc, s.mapping) && Coverage(s.zones, s.ios, s.gc)
    requires InRange(c, s.zones, s.ios)
    ensures var ios := Park(s.ios, t, h);
            Moves(s.zones, ios, s.gc, s.mapping) && Coverage(s.zones, ios, s.gc) && InRange(c, s.zones, ios)
  {
    var io := s.ios[t].(st := Parked(h));
    var parked := s.ios[t := io];
    assert MoveOk(s.zones, s.ios, s.gc, s.mapping, s.ios[t]);
    MovesKeep(s.zones, s.ios, s.gc, s.mapping, t, io);
    MovesKeep(s.zones, parked, s.gc, s.mapping, h, parked[h].(pendingGc := Some(t)));
    CoverageKeep(s.zones, s.ios, Park(s.ios, t, h), s.gc);
    assert IoInRange(c, s.zones, s.ios, s.ios[t]) && IoInRange(c, s.zones, s.ios, s.ios[h]);
    InRangeUpdate(c, s.zones, s.ios, t, io);
    InRangeUpdate(c, s.zones, parked, h, parked[h].(pendingGc := Some(t)));
  }

  lemma ParkLanded(s: State, t: nat, h: nat)
    requires CanPark(s.ios, t, h) && LandedPages(s.zones, s.ios) && TriedStreams(s.ios, s.empty, s.active)
    ensures LandedPages(s.zones, Park(s.ios, t, h)) && TriedStreams(Park(s.ios, t, h), s.empty, s.active)
  {
    var io := s.ios[t].(st := Parked(h));
    var parked := s.ios[t := io];
    var host := parked[h].(pendingGc := Some(t));
    LandedKeep(s.zones, s.ios, t, io);
    LandedSame(s.zones, parked, h, host);
    assert TriedOk(s.ios[h], s.empty, s.active);
  }

  lemma ResolveMover(c: Config, s: State, t: nat)
    requires Inv(c, s) && CanResolve(s, t) && s.ios[t].kind.Mover?
    ensures Inv(c, Resolve(c, s, t))
  {
    hide Inv, MapsInverse, LandedPages, LifeCycle, Counts, RefsExact, Tasks, Moves, Coverage, TriedStreams, InRange,
         Totals, Reserve, WellFormed;
    PartsMakeInv(c, s);
    ConflictFacts(c, s, t);
    var h := s.ios[t].st.host;
    var s1 := s.(ios := Park(s.ios, t, h));
    var s' := Resolve(c, s, t);
    ParkRefs(s.ios, t, h);
    ParkTasks(s.ios, s.tree, t, h);
    ParkMoves(c, s, t, h);
    ParkLanded(s, t, h);
    ParkCounts(s.ios, t, h);
    ReleaseKeeps(c, s1, h, 1);
    CountsKeep(s.zones, s.ios, s'.ios, s.gc);
    LedgerKeep(c, s, s');
    PartsMakeInv(c, s');
  }

  lemma ResolveInv(c: Config, s: State, t: nat)
    requires Inv(c, s) && CanResolve(s, t)
    ensures Inv(c, Resolve(c, s, t))
  {
    hide Inv;
    PartsMakeInv(c, s);
    if s.ios[t].kind.User? { ResolveUser(c, s, t); } else { ResolveMover(c, s, t); }
  }

  // ------------------------------------------------------------- re-check finds it stale

  lemma RecheckStops(c: Config, s: State, t: nat)
    requires Inv(c, s) && CanRecheck(s, t) && !(s.ios[t].blk in s.mapping && s.mapping[s.ios[t].blk] == s.ios[t].src)
    ensures Inv(c, Recheck(s, t))
  {
    hide Inv, MapsInverse, LandedPages, LifeCycle, Counts, RefsExact, Tasks, Moves, Coverage, TriedStreams, InRange,
         Totals, Reserve, WellFormed;
    PartsMakeInv(c, s);
    TaskFacts(c, s, t);
    SourceGone(c, s, t);
    var s' := Recheck(s, t);
    var io := s'.ios[t];
    InRangeUpdate(c, s.zones, s.ios, t, io);
    StopTasks(s.ios, s.tree, t);
    LandedKeep(s.zones, s.ios, t, io);
    MovesTouch(c, s, t, io);
    CoverageDrop(s.zones, s.ios, s.gc, t, io);
    LedgerUpdate(c, s, t, io, s'.tree);
    TriedKeep(s, t, io);
    PartsMakeInv(c, s');
  }

  // The counters that a task keeps as it was.
  predicate Ledgered(q: Query) {
    OnZone(q) || q.LiveUser? || q.LiveMove? || q.LiveRead?
  }

  lemma LedgerUpdate(c: Config, s: State, t: nat, io: Io, tree': map<nat, nat>)
    requires Counts(s.zones, s.ios, s.gc) && Totals(c, s) && Reserve(c, s) && t in s.ios
    requires forall q: Query :: Ledgered(q) ==> Match(q, io) == Match(q, s.ios[t])
    requires Match(Owes, io) ==> Match(Owes, s.ios[t])
    ensures var s' := s.(ios := s.ios[t := io], tree := tree');
            Counts(s'.zones, s'.ios, s'.gc) && Totals(c, s') && Reserve(c, s')
  {
    hide Counts, Totals, Reserve, Match;
    var s' := s.(ios := s.ios[t := io], tree := tree');
    CountUpdate(s.ios, t, io);
    forall q: Query | Ledgered(q)
      ensures Count(s'.ios, q) == Count(s.ios, q)
    {
      assert Match(q, io) == Match(q, s.ios[t]);
    }
    CountsKeep(s.zones, s.ios, s'.ios, s.gc);
    LedgerKeep(c, s, s');
  }

  // If the block is not mapped to the source, the source has no reverse entry.
  lemma SourceGone(c: Config, s: State, t: nat)
    requires MapsInverse(c, s.zones, s.mapping) && t in s.ios && IsMove(s.ios[t])
    requires MoveOk(s.zones, s.ios, s.gc, s.mapping, s.ios[t])
    ensures s.ios[t].src.off in s.zones[s.ios[t].src.zone].rmap
            ==> s.ios[t].blk in s.mapping && s.mapping[s.ios[t].blk] == s.ios[t].src
  {
  }

  // A GC task may stop covering an entry that is gone.
  lemma CoverageDrop(zones: seq<Zone>, ios: map<nat, Io>, gc: Option<Scan>, t: nat, io: Io)
    requires Coverage(zones, ios, gc) && t in ios && IsMove(ios[t]) && ios[t].src.zone < |zones|
    requires ios[t].src.off !in zones[ios[t].src.zone].rmap
    ensures Coverage(zones, ios[t := io], gc)
  {
    var ios' := ios[t := io];
    if gc.Some? && gc.value.zone < |zones| {
      var v := gc.value.zone;
      forall o | o in zones[v].rmap && o < gc.value.pos
        ensures Covered(ios', v, o)
      {
        assert Covered(ios, v, o);
        var u :| Covers(ios, u, v, o);
        assert Covers(ios', u, v, o);
      }
    }
  }

  // A GC task leaves the tree with its callback still to run.
  lemma StopTasks(ios: map<nat, Io>, tree: map<nat, nat>, t: nat)
    requires RefsExact(ios, 0, 0) && Tasks(ios, tree)
    requires t in ios && IsMove(ios[t]) && InTree(ios[t].st)
    ensures var ios' := ios[t := ios[t].(st := Finishing, rc := ios[t].rc - 1)];
            RefsExact(ios', 0, 0) && Tasks(ios', tree - {ios[t].blk})
  {
    hide Tasks;
    StopRefs(ios, t);
    StopLinks(ios, tree, t);
  }

  lemma StopRefs(ios: map<nat, Io>, t: nat)
    requires RefsExact(ios, 0, 0) && t in ios && IsMove(ios[t]) && InTree(ios[t].st)
    ensures RefsExact(ios[t := ios[t].(st := Finishing, rc := ios[t].rc - 1)], 0, 0)
  {
    CountUpdate(ios, t, ios[t].(st := Finishing, rc := ios[t].rc - 1));
  }

  lemma StopLinks(ios: map<nat, Io>, tree: map<nat, nat>, t: nat)
    requires Tasks(ios, tree) && t in ios && IsMove(ios[t]) && InTree(ios[t].st)
    ensures Tasks(ios[t := ios[t].(st := Finishing, rc := ios[t].rc - 1)], tree - {ios[t].blk})
  {
    var ios' := ios[t := ios[t].(st := Finishing, rc := ios[t].rc - 1)];
    assert StatusOk(ios[t]);
    assert TreeLinks(ios', tree - {ios[t].blk});
    assert ConflictLinks(ios');
    assert ParkLinks(ios');
  }
}
