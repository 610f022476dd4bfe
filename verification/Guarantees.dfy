/** What the code checks with BUG_ON and panic, and what it relies on without checking,
    for every reachable state. */
module Guarantees {
  import opened Machine
  import opened Counting
  import opened Invariant
  import opened Frames
  import opened CollectorSteps
  import opened ZoneSteps
  import opened TreeSteps
  import opened Runs

  // -------------------------------------------------------------------------------- space

  lemma {:induction false} SomeFree(cap: nat, zones: seq<Zone>) returns (i: nat)
    requires Total(cap, Free, zones) > 0
    ensures i < |zones| && zones[i].wp < cap
  {
    if zones[0].wp < cap {
      i := 0;
    } else {
      var j := SomeFree(cap, zones[1..]);
      i := j + 1;
    }
  }

  // Free space is in an empty zone or in the active zone of some stream.
  lemma SpaceIsSomewhere(c: Config, s: State)
    requires Inv(c, s) && s.allocable > 0
    ensures s.empty != [] || exists k :: 0 <= k < |s.active| && s.active[k].Some?
  {
    hide Inv, MapsInverse, LandedPages, LifeCycle, Counts, RefsExact, Tasks, Moves, Coverage, TriedStreams, InRange,
         Reserve, WellFormed;
    PartsMakeInv(c, s);
    var i := SomeFree(c.cap, s.zones);
    ZoneFacts(c, s, i);
  }

  /** A GC-flagged allocation, by a GC task or by a user write that carries one, always
      finds a stream with room that it has not tried yet. */
  lemma ReserveIsEnough(c: Config, s: State, t: nat) returns (k: nat)
    requires Inv(c, s) && t in s.ios && s.ios[t].Task? && s.ios[t].st.Alloc? && UsesReserve(s.ios[t])
    ensures CanAlloc(s, t, k) && HasRoom(s, k)
  {
    hide Inv, MapsInverse, LandedPages, LifeCycle, Counts, RefsExact, Tasks, Moves, Coverage, TriedStreams, InRange,
         Totals, WellFormed;
    PartsMakeInv(c, s);
    TaskFacts(c, s, t);
    assert Match(Owes, s.ios[t]);
    OwesMeansGc(c, s, t);
    CountPositive(s.ios, t, Owes);
    SpaceIsSomewhere(c, s);
    if s.empty != [] {
      assert 0 !in s.ios[t].st.tried;
      k := 0;
    } else {
      k :| 0 <= k < |s.active| && s.active[k].Some?;
    }
  }

  /** So BUG_ON(ret == -EAGAIN) never fires: a GC-flagged task has never tried all
      streams in vain, and once only one stream is left untried the attempt succeeds. */
  lemma GcNeverStarves(c: Config, s: State, t: nat)
    requires Reachable(c, s) && t in s.ios && s.ios[t].Task? && s.ios[t].st.Alloc? && UsesReserve(s.ios[t])
    ensures WellFormed(c, s)
    ensures exists k :: 0 <= k < c.streams && k !in s.ios[t].st.tried
    ensures forall k :: CanAlloc(s, t, k) && (forall j :: 0 <= j < c.streams && j != k ==> j in s.ios[t].st.tried) ==>
              TryAlloc(c, s, t, k).ios[t].st.Writing?
  {
    hide Inv, WellFormed, Reachable, TryAlloc, HasRoom;
    ReachableInv(c, s);
    InvShape(c, s);
    var k := ReserveIsEnough(c, s, t);
    ActiveSize(c, s);
    RoomSuffices(c, s, t, k);
  }

  lemma RoomSuffices(c: Config, s: State, t: nat, k: nat)
    requires WellFormed(c, s) && CanAlloc(s, t, k) && UsesReserve(s.ios[t]) && HasRoom(s, k)
    ensures TryAlloc(c, s, t, k).ios[t].st.Writing?
  {
    hide WellFormed, TryAlloc;
    TryAllocShape(c, s, t, k);
  }

  lemma ActiveSize(c: Config, s: State)
    requires WellFormed(c, s)
    ensures |s.active| == c.streams && |s.zones| == c.zones
  {
  }

  // --------------------------------------------------------------------------- reset safety

  /** When the worker resets a zone, no block is mapped into it, no operation in flight
      reads it, writes to it or moves pages out of it, and its weight is zero. */
  lemma ResetIsSafe(c: Config, s: State, z: nat)
    requires Reachable(c, s) && CanReset(s, z)
    ensures s.zones[z].weight == 0 && s.zones[z].rmap == map[]
    ensures forall b <- s.mapping :: s.mapping[b].zone != z
    ensures forall t <- s.ios ::
              !Match(WritesTo(z), s.ios[t]) && !Match(ReadsFrom(z), s.ios[t]) && !Match(MovesFrom(z), s.ios[t])
  {
    hide Inv, WellFormed, Reachable;
    ReachableInv(c, s);
    UnreferencedIsDead(c, s, z);
  }

  // ------------------------------------------------------------------------------ relocation

  /** From its re-check on, a GC task's block is mapped to the source or discarded, the
      source lies in the zone under collection and still holds the page that was copied;
      so BUG_ON(old_pbid != LBZ_INVALID_PBID) never fires. */
  lemma RelocationIsExact(c: Config, s: State, t: nat)
    requires Reachable(c, s) && t in s.ios && IsMove(s.ios[t])
    requires s.ios[t].st.Alloc? || s.ios[t].st.Writing? || s.ios[t].st.Landed?
    ensures var io := s.ios[t];
            && (io.blk in s.mapping ==> s.mapping[io.blk] == io.src)
            && io.src.zone < |s.zones| && io.src.off < |s.zones[io.src.zone].data|
            && s.zones[io.src.zone].phase.Gc? && s.zones[io.src.zone].refs > 0
            && io.data == s.zones[io.src.zone].data[io.src.off]
  {
    hide Inv, WellFormed, Reachable;
    ReachableInv(c, s);
    TaskFacts(c, s, t);
    ScanFacts(c, s);
    ZoneFacts(c, s, s.gc.value.zone);
    CountPositive(s.ios, t, MovesFrom(s.gc.value.zone));
  }

  // ---------------------------------------------------------------------------------- ledger

  /** Block b is mapped to p exactly when p's reverse entry is b. */
  lemma MapsAreInverse(c: Config, s: State, b: nat, p: Pbid)
    requires Reachable(c, s)
    ensures (b in s.mapping && s.mapping[b] == p)
            <==> (p.zone < |s.zones| && p.off in s.zones[p.zone].rmap && s.zones[p.zone].rmap[p.off] == b)
  {
    hide Inv, WellFormed, Reachable;
    ReachableInv(c, s);
    PartsMakeInv(c, s);
    hide LandedPages, LifeCycle, Counts, RefsExact, Tasks, Moves, Coverage, TriedStreams, InRange, Totals, Reserve;
  }

  /** A zone's references are exactly its active slot, the writes to it, the reads from
      it, the GC tasks moving pages out of it and the collector's own reference; its write
      pointer counts what the device has stored and what is still under way. */
  lemma ZoneLedger(c: Config, s: State, z: nat)
    requires Reachable(c, s) && z < |s.zones|
    ensures var zone := s.zones[z];
            && zone.refs == Bit(zone.phase.Active?) + Count(s.ios, WritesTo(z)) + Count(s.ios, ReadsFrom(z))
                            + Count(s.ios, MovesFrom(z)) + BaseRef(s.gc, z)
            && zone.pending == Count(s.ios, WritesTo(z))
            && zone.weight == |zone.rmap| + zone.pending
            && zone.wp == |zone.data| + Count(s.ios, Unlanded(z)) && zone.wp <= c.cap
  {
    hide Inv, WellFormed, Reachable;
    ReachableInv(c, s);
    ZoneFacts(c, s, z);
    InvShape(c, s);
  }

  lemma {:induction false} WeightSplits(cap: nat, zones: seq<Zone>)
    requires forall i :: 0 <= i < |zones| ==>
               zones[i].weight == |zones[i].rmap| + zones[i].pending && zones[i].pending >= 0
    ensures Total(cap, Weight, zones) == Total(cap, Mapped, zones) + Total(cap, Pending, zones)
    ensures Total(cap, Pending, zones) >= 0
  {
    if zones != [] { WeightSplits(cap, zones[1..]); }
  }

  /** Blocks are conserved: the allocable blocks are those no zone has handed out, the
      valid blocks are the mapped ones plus the writes under way, and the in-flight
      counters count the operations in flight. */
  lemma GlobalLedger(c: Config, s: State)
    requires Reachable(c, s)
    ensures s.allocable == Total(c.cap, Free, s.zones) && s.allocable >= 0
    ensures s.valid == |s.mapping| + Total(c.cap, Pending, s.zones) && s.valid >= 0
    ensures s.userInflight == Count(s.ios, LiveUser)
    ensures s.readInflight == Count(s.ios, LiveRead)
    ensures s.gcInflight == Count(s.ios, LiveMove)
  {
    hide Inv, WellFormed, Reachable, MapsInverse, LandedPages, LifeCycle, Counts, RefsExact, Tasks, Moves, Coverage,
         TriedStreams, InRange;
    ReachableInv(c, s);
    PartsMakeInv(c, s);
    forall i | 0 <= i < |s.zones|
      ensures s.zones[i].weight == |s.zones[i].rmap| + s.zones[i].pending && s.zones[i].pending >= 0
    {
      ZoneFacts(c, s, i);
    }
    WeightSplits(c.cap, s.zones);
  }

  // ------------------------------------------------------------------------------ life cycle

  /** Each zone is in exactly one place: the empty list, one active slot, the limbo before
      closing, the full list, or under collection. */
  lemma LifeCycleIsPartition(c: Config, s: State, z: nat)
    requires Reachable(c, s) && z < |s.zones|
    ensures z in s.empty <==> s.zones[z].phase.Empty?
    ensures z in s.full <==> s.zones[z].phase.Full?
    ensures forall k :: 0 <= k < |s.active| ==> (s.active[k] == Some(z) <==> s.zones[z].phase == Active(k))
    ensures s.gc.Some? && s.gc.value.zone == z <==> s.zones[z].phase.Gc?
    ensures Distinct(s.empty) && Distinct(s.full)
    ensures s.zones[z].phase.Active? ==> s.zones[z].wp < c.cap
    ensures s.zones[z].phase.Full? ==> s.zones[z].wp == c.cap == |s.zones[z].data| && s.zones[z].pending == 0
  {
    hide Inv, WellFormed, Reachable, MapsInverse, LandedPages, Counts, RefsExact, Tasks, Moves, Coverage, TriedStreams,
         InRange, Totals, Reserve;
    ReachableInv(c, s);
    PartsMakeInv(c, s);
    ZoneFacts(c, s, z);
    assert Holders(s.ios, Unlanded(z)) <= Holders(s.ios, WritesTo(z));
  }

  // ---------------------------------------------------------------------------- the choice of a victim

  lemma FullSettled(c: Config, w: State, v: nat)
    requires Inv(c, w) && v in w.full && v < |w.zones|
    ensures w.zones[v].weight == |w.zones[v].rmap|
  {
    hide Inv, MapsInverse, LandedPages, Counts, RefsExact, Tasks, Moves, Coverage, TriedStreams, InRange, Totals,
         Reserve, WellFormed;
    PartsMakeInv(c, w);
    ZoneFacts(c, w, v);
  }

  /** Whatever victim is chosen, it is a full zone with something to win, and no other full zone has
      fewer blocks to move: no collection would give back more. */
  lemma VictimIsBest(c: Config, s: State, z: nat)
    requires Reachable(c, s) && WellFormed(c, s) && Enabled(c, s, LSelect(z))
    ensures z in s.full && z < |s.zones| && |s.zones[z].rmap| == s.zones[z].weight < c.cap
    ensures forall y <- s.full :: y < |s.zones| && s.zones[z].weight <= s.zones[y].weight
                                  && c.cap - |s.zones[y].rmap| <= c.cap - |s.zones[z].rmap|
  {
    hide Inv, Reachable;
    ReachableInv(c, s);
    FullSettled(c, s, z);
    forall y | y in s.full
      ensures y < |s.zones| && s.zones[z].weight <= s.zones[y].weight
      ensures c.cap - |s.zones[y].rmap| <= c.cap - |s.zones[z].rmap|
    {
      var i :| 0 <= i < |s.full| && s.full[i] == y;
      FullSettled(c, s, y);
    }
  }

  // -------------------------------------------------------------------- single victim, parking

  /** One victim at a time, one GC task per block, and whoever a GC task meets in the tree
      is a user write that carries no other GC task. */
  lemma OneVictimOneMove(c: Config, s: State)
    requires Reachable(c, s)
    ensures forall y, z :: 0 <= y < |s.zones| && 0 <= z < |s.zones| ==>
              s.zones[y].phase.Gc? && s.zones[z].phase.Gc? ==> y == z
    ensures forall t, u :: t in s.ios && u in s.ios && IsMove(s.ios[t]) && IsMove(s.ios[u]) ==>
              s.ios[t].blk == s.ios[u].blk ==> t == u
    ensures forall t :: CanResolve(s, t) && s.ios[t].kind.Mover? ==>
              s.ios[t].st.host in s.ios && IsUser(s.ios[s.ios[t].st.host]) && s.ios[s.ios[t].st.host].pendingGc.None?
  {
    hide Inv, WellFormed, Reachable, MapsInverse, LandedPages, Counts, RefsExact, Tasks, Coverage, TriedStreams,
         InRange, Totals, Reserve;
    ReachableInv(c, s);
    PartsMakeInv(c, s);
    forall y | 0 <= y < |s.zones|
      ensures s.zones[y].phase.Gc? ==> s.gc.Some? && s.gc.value.zone == y
    {
      ZoneFacts(c, s, y);
    }
    hide LifeCycle;
    forall t | CanResolve(s, t)
      ensures s.ios[t].kind.Mover? ==>
                s.ios[t].st.host in s.ios && IsUser(s.ios[s.ios[t].st.host]) && s.ios[s.ios[t].st.host].pendingGc.None?
    {
      ConflictFacts(c, s, t);
    }
  }

  /** A parked GC task is never lost: its host is alive and carries exactly it. */
  lemma ParkedIsCarried(c: Config, s: State, t: nat)
    requires Reachable(c, s) && t in s.ios && s.ios[t].Task? && s.ios[t].st.Parked?
    ensures var h := s.ios[t].st.parkedOn;
            && h in s.ios && IsUser(s.ios[h]) && s.ios[h].pendingGc == Some(t) && s.ios[h].rc > 0
            && (s.ios[h].st.Done? ==> exists u :: u in s.ios && Match(ConflictsOn(h), s.ios[u]))
  {
    hide Inv, WellFormed, Reachable, MapsInverse, LandedPages, Counts, Moves, Coverage, TriedStreams, InRange, Totals,
         Reserve, LifeCycle, TreeLinks, ConflictLinks, StatusOk;
    ReachableInv(c, s);
    PartsMakeInv(c, s);
    var h := s.ios[t].st.parkedOn;
    if s.ios[h].st.Done? {
      var u := CountWitness(s.ios, ConflictsOn(h));
    }
  }

  /** A task has its block's slot of the tree exactly while its status says so, and its
      references are its own, the tree's and those of the tasks that met it there. */
  lemma TreeIsExact(c: Config, s: State, t: nat)
    requires Reachable(c, s) && t in s.ios && s.ios[t].Task?
    ensures InTree(s.ios[t].st) <==> s.ios[t].blk in s.tree && s.tree[s.ios[t].blk] == t
    ensures s.ios[t].rc == OwnRefs(s.ios[t].st) + Count(s.ios, ConflictsOn(t)) && s.ios[t].rc > 0
  {
    hide Inv, WellFormed, Reachable, MapsInverse, LandedPages, Counts, Moves, Coverage, TriedStreams, InRange, Totals,
         Reserve, LifeCycle, ConflictLinks, ParkLinks, StatusOk, RefsExact;
    ReachableInv(c, s);
    PartsMakeInv(c, s);
    TaskFacts(c, s, t);
  }
}
