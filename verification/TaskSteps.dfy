/** Steps that move one task forward keep the invariant. */
module TaskSteps {
  import opened Machine
  import opened Counting
  import opened Invariant
  import opened Frames

  lemma SubmitInv(c: Config, s: State, t: nat, b: nat, d: Page)
    requires Inv(c, s) && t !in s.ios && b < c.blocks
    ensures Inv(c, Submit(s, t, b, d))
  {
    hide MapsInverse, LandedPages, LifeCycle, Counts, RefsExact, Tasks, Moves, Coverage, TriedStreams, InRange;
    PartsMakeInv(c, s);
    var s' := Submit(s, t, b, d);
    NewIo(c, s, t, s'.ios[t]);
    CountUpdate(s.ios, t, s'.ios[t]);
    CountsKeep(s.zones, s.ios, s'.ios, s.gc);
  }

  // A new operation that holds no zone and owes no allocation.
  lemma NewIo(c: Config, s: State, t: nat, io: Io)
    requires Inv(c, s) && t !in s.ios
    requires IoInRange(c, s.zones, s.ios[t := io], io)
    requires io.Read? || (io.rc == 1 && io.kind.User? && io.st.Init? && io.pendingGc.None?)
    ensures var ios := s.ios[t := io];
            && InRange(c, s.zones, ios) && LandedPages(s.zones, ios) && RefsExact(ios, 0, 0) && Tasks(ios, s.tree)
            && Moves(s.zones, ios, s.gc, s.mapping) && Coverage(s.zones, ios, s.gc)
            && TriedStreams(ios, s.empty, s.active)
  {
    hide MapsInverse, LandedPages, LifeCycle, Counts, RefsExact, Tasks, Moves, Coverage, Totals, Reserve;
    PartsMakeInv(c, s);
    InRangeUpdate(c, s.zones, s.ios, t, io);
    NewTask(s.ios, s.tree, t, io);
    LandedKeep(s.zones, s.ios, t, io);
    MovesNew(s.zones, s.ios, s.gc, s.mapping, t, io);
    CoverageKeep(s.zones, s.ios, s.ios[t := io], s.gc);
  }

  /** A task changes its progress and nothing else: all that remains to be shown is what
      the new progress says about the task itself. */
  lemma MoveOn(c: Config, s: State, t: nat, io: Io)
    requires Inv(c, s) && t in s.ios && SameLinks(s.ios[t], io) && io.rc == s.ios[t].rc && StatusOk(io)
    requires IoInRange(c, s.zones, s.ios[t := io], io)
    requires !io.st.Landed? && !io.st.Writing? && !s.ios[t].st.Landed? && !s.ios[t].st.Writing?
    requires Match(Owes, io) == Match(Owes, s.ios[t])
    requires IsMove(io) ==> MoveOk(s.zones, s.ios[t := io], s.gc, s.mapping, io)
    requires TriedOk(io, s.empty, s.active)
    ensures Inv(c, s.(ios := s.ios[t := io]))
  {
    hide Inv, MapsInverse, LandedPages, LifeCycle, Counts, RefsExact, Tasks, Moves, Coverage, TriedStreams, InRange,
         Totals, Reserve;
    var s' := s.(ios := s.ios[t := io]);
    PartsMakeInv(c, s);
    InRangeUpdate(c, s.zones, s.ios, t, io);
    LinksKeep(s.ios, s.tree, t, io);
    LandedKeep(s.zones, s.ios, t, io);
    MovesKeep(s.zones, s.ios, s.gc, s.mapping, t, io);
    CoverageKeep(s.zones, s.ios, s'.ios, s.gc);
    CountSame(s.ios, t, io);
    CountsKeep(s.zones, s.ios, s'.ios, s.gc);
    LedgerKeep(c, s, s');
    TriedKeep(s, t, io);
    PartsMakeInv(c, s');
  }

  lemma RequeueInv(c: Config, s: State, t: nat)
    requires Inv(c, s) && CanRequeue(s, t)
    ensures Inv(c, Requeue(s, t))
  {
    hide MapsInverse, LandedPages, LifeCycle, RefsExact, Counts, Totals, Coverage, Reserve;
    PartsMakeInv(c, s);
    assert StatusOk(s.ios[t]);
    MoveOn(c, s, t, s.ios[t].(st := Alloc({})));
  }

  lemma InRangeOne(c: Config, s: State, t: nat)
    requires InRange(c, s.zones, s.ios) && t in s.ios
    ensures IoInRange(c, s.zones, s.ios, s.ios[t])
  {
  }

  lemma NoRoomInv(c: Config, s: State, t: nat, stream: nat)
    requires Inv(c, s) && CanAlloc(s, t, stream) && UsesReserve(s.ios[t]) && !HasRoom(s, stream)
    ensures Inv(c, TryAlloc(c, s, t, stream))
  {
    hide Inv, MapsInverse, LandedPages, LifeCycle, RefsExact, Counts, Totals, Coverage, Reserve, InRange, WellFormed,
         TreeLinks, ConflictLinks, ParkLinks;
    PartsMakeInv(c, s);
    var io := s.ios[t];
    assert StatusOk(io) && TriedOk(io, s.empty, s.active);
    assert IsMove(io) ==> MoveOk(s.zones, s.ios, s.gc, s.mapping, io);
    InRangeOne(c, s, t);
    MoveOn(c, s, t, io.(st := Alloc(io.st.tried + {stream})));
  }

  lemma MoveReadInv(c: Config, s: State, t: nat)
    requires Inv(c, s) && CanMoveRead(s, t)
    ensures Inv(c, MoveRead(c, s, t))
  {
    hide MapsInverse, LandedPages, LifeCycle, RefsExact, Counts, Totals, Coverage, Reserve;
    PartsMakeInv(c, s);
    assert MoveOk(s.zones, s.ios, s.gc, s.mapping, s.ios[t]);
    assert StatusOk(s.ios[t]);
    MoveOn(c, s, t, MoveRead(c, s, t).ios[t]);
  }

  lemma RecheckGoesOn(c: Config, s: State, t: nat)
    requires Inv(c, s) && CanRecheck(s, t) && s.ios[t].blk in s.mapping && s.mapping[s.ios[t].blk] == s.ios[t].src
    ensures Inv(c, Recheck(s, t))
  {
    hide MapsInverse, LandedPages, LifeCycle, RefsExact, Counts, Totals, Coverage, Reserve;
    PartsMakeInv(c, s);
    assert MoveOk(s.zones, s.ios, s.gc, s.mapping, s.ios[t]);
    assert StatusOk(s.ios[t]);
    MoveOn(c, s, t, Recheck(s, t).ios[t]);
  }
}
