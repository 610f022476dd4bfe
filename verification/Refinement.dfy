/** Every run refines a plain array of blocks: a write takes effect at its completion, a
    read returns the value held at its lookup, and collection, closing and resetting
    change nothing. */
module Refinement {
  import opened Machine
  import opened Invariant
  import opened Frames
  import opened ZoneSteps
  import opened MapSteps
  import opened CollectorSteps
  import opened TreeSteps
  import opened ReadSteps
  import opened Runs

  // ----------------------------------------------------------------------- specification

  // blocks: the array; writes: submitted and not yet complete; fetches: what each read in
  // flight is going to return.
  datatype Spec = Spec(blocks: map<nat, Page>, writes: map<nat, (nat, Page)>, fetches: map<nat, Page>)

  function SpecStep(a: Spec, l: Label): Spec {
    match l
    case LSubmit(t, b, d) => a.(writes := a.writes[t := (b, d)])
    case LEndio(t) =>
      if t in a.writes
      then a.(blocks := a.blocks[a.writes[t].0 := a.writes[t].1], writes := a.writes - {t})
      else a
    case LLookup(r, b) => if b in a.blocks then a.(fetches := a.fetches[r := a.blocks[b]]) else a
    case LReadEndio(r) => a.(fetches := a.fetches - {r})
    case LDiscard(b) => a.(blocks := a.blocks - {b})
    case _ => a
  }

  function SpecRun(a: Spec, run: seq<Label>): Spec
    decreases |run|
  {
    if run == [] then a else SpecRun(SpecStep(a, run[0]), run[1..])
  }

  // ------------------------------------------------------------------------- abstraction

  ghost predicate OnMedia(zones: seq<Zone>, p: Pbid) {
    p.zone < |zones| && p.off < |zones[p.zone].data|
  }

  ghost function PageAt(zones: seq<Zone>, p: Pbid): Page
    requires OnMedia(zones, p)
  {
    zones[p.zone].data[p.off]
  }

  ghost function Blocks(zones: seq<Zone>, mapping: map<nat, Pbid>): map<nat, Page>
    requires forall b <- mapping :: OnMedia(zones, mapping[b])
  {
    map b | b in mapping :: PageAt(zones, mapping[b])
  }

  ghost function Writes(ios: map<nat, Io>): map<nat, (nat, Page)> {
    map t | t in ios && Match(LiveUser, ios[t]) :: (ios[t].blk, ios[t].data)
  }

  // What a read delivers: the page it has, or the page now stored where it points.
  ghost function Value(zones: seq<Zone>, io: Io): Page
    requires io.Read? && OnMedia(zones, io.from)
  {
    if io.result.Some? then io.result.value else PageAt(zones, io.from)
  }

  ghost function Fetches(zones: seq<Zone>, ios: map<nat, Io>): map<nat, Page>
    requires forall r <- ios :: ios[r].Read? ==> OnMedia(zones, ios[r].from)
  {
    map r | r in ios && ios[r].Read? :: Value(zones, ios[r])
  }

  ghost predicate Readable(s: State) {
    && (forall b <- s.mapping :: OnMedia(s.zones, s.mapping[b]))
    && (forall r <- s.ios :: s.ios[r].Read? ==> OnMedia(s.zones, s.ios[r].from))
  }

  ghost function Abs(s: State): Spec
    requires Readable(s)
  {
    Spec(Blocks(s.zones, s.mapping), Writes(s.ios), Fetches(s.zones, s.ios))
  }

  lemma InvReadable(c: Config, s: State)
    requires Inv(c, s)
    ensures Readable(s)
  {
    hide LandedPages, RefsExact, Tasks, Moves, Totals, Reserve, TriedStreams, LifeCycle, Counts, Coverage;
    PartsMakeInv(c, s);
  }

  // -------------------------------------------------------------------------- resurrection

  // t is a GC task past its re-check, working on block b.
  predicate Past(ios: map<nat, Io>, t: nat, b: nat) {
    && t in ios && IsMove(ios[t]) && ios[t].blk == b
    && (ios[t].st.Alloc? || ios[t].st.Writing? || ios[t].st.Landed?)
  }

  // A GC task past its re-check whose block has been discarded meanwhile.
  ghost predicate Ghost(s: State, t: nat) {
    t in s.ios && s.ios[t].Task? && Past(s.ios, t, s.ios[t].blk) && s.ios[t].blk !in s.mapping
  }

  ghost predicate NoGhost(s: State) {
    forall t :: !Ghost(s, t)
  }

  // No GC task holds block b past its re-check.
  predicate DiscardSafe(s: State, b: nat) {
    b in s.tree && s.tree[b] in s.ios && IsMove(s.ios[s.tree[b]]) ==> s.ios[s.tree[b]].st.Inserted?
  }

  // --------------------------------------------------------------------------- frame rules

  // Every page readable before is still there.
  ghost predicate Keeps(zones: seq<Zone>, zones': seq<Zone>) {
    |zones'| == |zones| && forall z :: 0 <= z < |zones| ==> zones[z].data <= zones'[z].data
  }

  // What an outside observer knows of operation t.
  datatype View = Nothing | Write(blk: nat, data: Page) | Fetch(io: Io)

  ghost function ViewOf(ios: map<nat, Io>, t: nat): View {
    if t !in ios then Nothing
    else if Match(LiveUser, ios[t]) then Write(ios[t].blk, ios[t].data)
    else if ios[t].Read? then Fetch(ios[t])
    else Nothing
  }

  ghost predicate SameIo(ios: map<nat, Io>, ios': map<nat, Io>) {
    forall t :: ViewOf(ios', t) == ViewOf(ios, t)
  }

  lemma SameWrites(ios: map<nat, Io>, ios': map<nat, Io>)
    requires SameIo(ios, ios')
    ensures Writes(ios') == Writes(ios)
  {
    assert forall t :: t in Writes(ios') <==> ViewOf(ios', t).Write?;
    assert forall t :: t in Writes(ios) <==> ViewOf(ios, t).Write?;
  }

  lemma SameFetches(zones: seq<Zone>, zones': seq<Zone>, ios: map<nat, Io>, ios': map<nat, Io>)
    requires SameIo(ios, ios') && Keeps(zones, zones')
    requires forall r <- ios :: ios[r].Read? ==> OnMedia(zones, ios[r].from)
    ensures forall r <- ios' :: ios'[r].Read? ==> OnMedia(zones', ios'[r].from)
    ensures Fetches(zones', ios') == Fetches(zones, ios)
  {
    assert forall t :: t in ios && ios[t].Read? <==> ViewOf(ios, t).Fetch?;
    assert forall t :: t in ios' && ios'[t].Read? <==> ViewOf(ios', t).Fetch?;
  }

  lemma SameBlocks(zones: seq<Zone>, zones': seq<Zone>, mapping: map<nat, Pbid>)
    requires Keeps(zones, zones') && forall b <- mapping :: OnMedia(zones, mapping[b])
    ensures forall b <- mapping :: OnMedia(zones', mapping[b])
    ensures Blocks(zones', mapping) == Blocks(zones, mapping)
  {
  }

  lemma Stutter(s: State, s': State)
    requires Readable(s) && s'.mapping == s.mapping && Keeps(s.zones, s'.zones) && SameIo(s.ios, s'.ios)
    ensures Readable(s') && Abs(s') == Abs(s)
  {
    SameWrites(s.ios, s'.ios);
    SameFetches(s.zones, s'.zones, s.ios, s'.ios);
    SameBlocks(s.zones, s'.zones, s.mapping);
  }

  // --------------------------------------------------------------------- steps that stutter

  lemma ReleaseSameIo(ios: map<nat, Io>, h: nat, n: nat)
    requires h in ios && ios[h].Task? && ParkLinks(ios) && (ios[h].rc <= n ==> ios[h].st.Done?)
    ensures SameIo(ios, Release(ios, h, n))
  {
  }

  lemma InsertStutters(c: Config, s: State, t: nat)
    requires Inv(c, s) && CanInsert(s, t)
    ensures SameIo(s.ios, Insert(c, s, t).ios)
  {
    hide Inv, WellFormed;
    InvShape(c, s);
    if s.ios[t].blk in s.tree { MeetsUser(c, s, t); }
  }

  lemma ResolveStutters(c: Config, s: State, t: nat)
    requires Inv(c, s) && CanResolve(s, t)
    ensures SameIo(s.ios, Resolve(c, s, t).ios)
  {
    hide Inv, WellFormed, RefsExact, TreeLinks, ConflictLinks, ParkLinks, Moves, Coverage, MapsInverse, LandedPages,
         LifeCycle, Counts, Totals, Reserve, TriedStreams, InRange, StatusOk, Release;
    PartsMakeInv(c, s);
    ConflictFacts(c, s, t);
    var h := s.ios[t].st.host;
    if s.ios[t].kind.User? {
      var io := s.ios[t].(st := Init);
      DropConflict(s.ios, t, io);
      UserLinks(s.ios, s.tree, t);
      LastRef(s.ios[t := io], h, 1);
      ReleaseSameIo(s.ios[t := io], h, 1);
    } else {
      ParkRefs(s.ios, t, h);
      ParkTasks(s.ios, s.tree, t, h);
      LastRef(Park(s.ios, t, h), h, 1);
      ReleaseSameIo(Park(s.ios, t, h), h, 1);
    }
  }

  lemma FinishStutters(c: Config, s: State, t: nat)
    requires Inv(c, s) && CanFinish(s, t)
    ensures SameIo(s.ios, Finish(c, s, t).ios)
  {
    hide Inv, WellFormed, RefsExact, TreeLinks, ConflictLinks, ParkLinks, Moves, Coverage, MapsInverse, LandedPages,
         LifeCycle, Counts, Totals, Reserve, TriedStreams, InRange, StatusOk, Release;
    PartsMakeInv(c, s);
    var ios' := s.ios[t := s.ios[t].(st := Done)];
    FinishRefs(s.ios, t);
    FinishLinks(s.ios, s.tree, t);
    LastRef(ios', t, 1);
    ReleaseSameIo(ios', t, 1);
  }

  // A task that changes its progress and nothing an observer sees.
  lemma UpdateStutters(ios: map<nat, Io>, t: nat, io: Io)
    requires ViewOf(ios[t := io], t) == ViewOf(ios, t)
    ensures SameIo(ios, ios[t := io])
  {
    assert forall u :: u != t ==> ViewOf(ios[t := io], u) == ViewOf(ios, u);
  }

  lemma TryAllocStutters(c: Config, s: State, t: nat, k: nat)
    requires WellFormed(c, s) && CanAlloc(s, t, k)
    ensures SameIo(s.ios, TryAlloc(c, s, t, k).ios)
  {
    hide WellFormed, TryAlloc;
    TryAllocShape(c, s, t, k);
    var ios' := TryAlloc(c, s, t, k).ios;
    UpdateStutters(s.ios, t, ios'[t]);
  }

  // The other steps that change the progress of one task.
  lemma ProgressStutters(c: Config, s: State, t: nat)
    requires WellFormed(c, s) && t in s.ios && s.ios[t].Task?
    ensures CanRequeue(s, t) ==> SameIo(s.ios, Requeue(s, t).ios)
    ensures CanAppend(s, t) ==> SameIo(s.ios, Append(c, s, t).ios)
    ensures CanMoveRead(s, t) ==> SameIo(s.ios, MoveRead(c, s, t).ios)
    ensures CanRecheck(s, t) ==> SameIo(s.ios, Recheck(s, t).ios)
  {
    hide WellFormed, SameIo;
    if CanRequeue(s, t) { UpdateStutters(s.ios, t, Requeue(s, t).ios[t]); }
    if CanAppend(s, t) { UpdateStutters(s.ios, t, Append(c, s, t).ios[t]); }
    if CanMoveRead(s, t) { UpdateStutters(s.ios, t, MoveRead(c, s, t).ios[t]); }
    if CanRecheck(s, t) { UpdateStutters(s.ios, t, Recheck(s, t).ios[t]); }
  }

  lemma VisitStutters(c: Config, s: State, t: nat)
    requires CanVisit(c, s) && t !in s.ios
    ensures SameIo(s.ios, Visit(c, s, t).ios)
  {
    if s.gc.value.pos in s.zones[s.gc.value.zone].rmap { UpdateStutters(s.ios, t, Visit(c, s, t).ios[t]); }
  }

  lemma SameIoRefl(ios: map<nat, Io>)
    ensures SameIo(ios, ios)
  {
  }

  // Steps that neither change the mapping nor anything an observer sees.
  predicate Quiet(l: Label) {
    l.LInsert? || l.LResolve? || l.LTryAlloc? || l.LRequeue? || l.LAppend? || l.LSelect? || l.LVisit? || l.LEndScan?
    || l.LMoveRead? || l.LRecheck? || l.LFinish? || l.LClose? || WorkerMove(l)
  }

  // Steps of the retry worker between two submissions.
  predicate WorkerMove(l: Label) {
    l.LTakeWrites? || l.LNext? || l.LTakeCopies? || l.LRest?
  }

  lemma QuietSameIo(c: Config, s: State, l: Label)
    requires Inv(c, s) && Enabled(c, s, l) && Quiet(l)
    ensures SameIo(s.ios, Effect(c, s, l).ios)
  {
    hide Inv, WellFormed, SameIo, Insert, Resolve, Finish, TryAlloc, Requeue, Append, MoveRead, Recheck, Visit;
    InvShape(c, s);
    SameIoRefl(s.ios);
    match l
    case LInsert(t) => InsertStutters(c, s, t);
    case LResolve(t) => ResolveStutters(c, s, t);
    case LFinish(t) => FinishStutters(c, s, t);
    case LTryAlloc(t, k) => TryAllocStutters(c, s, t, k);
    case LVisit(t) => VisitStutters(c, s, t);
    case LRequeue(t) => ProgressStutters(c, s, t);
    case LAppend(t) => ProgressStutters(c, s, t);
    case LMoveRead(t) => ProgressStutters(c, s, t);
    case LRecheck(t) => ProgressStutters(c, s, t);
    case _ =>
  }

  lemma QuietKeeps(c: Config, s: State, l: Label)
    requires WellFormed(c, s) && Enabled(c, s, l) && Quiet(l)
    ensures Effect(c, s, l).mapping == s.mapping && Keeps(s.zones, Effect(c, s, l).zones)
  {
    assert |s.zones| == c.zones;
    hide WellFormed, Release, TryAlloc, Append, Finish, Insert, Resolve, Visit, Select, Close, EndScan, Keeps;
    match l
    case LTryAlloc(t, i) => TryAllocKeeps(c, s, t, i);
    case LAppend(t) => AppendKeeps(c, s, t);
    case LFinish(t) => FinishKeeps(c, s, t);
    case LInsert(t) => TreeKeeps(c, s, t);
    case LResolve(t) => TreeKeeps(c, s, t);
    case LVisit(t) => VisitKeeps(c, s, t);
    case LSelect(_) => PhaseKeeps(c, s, l);
    case LClose(_) => PhaseKeeps(c, s, l);
    case LEndScan => PhaseKeeps(c, s, l);
    case _ =>
  }

  lemma PhaseKeeps(c: Config, s: State, l: Label)
    requires WellFormed(c, s) && Enabled(c, s, l) && (l.LSelect? || l.LClose? || l.LEndScan?)
    ensures Effect(c, s, l).mapping == s.mapping && Keeps(s.zones, Effect(c, s, l).zones)
  {
    assert |s.zones| == c.zones;
    hide WellFormed, Keeps;
    match l
    case LSelect(z) => ZoneKeeps(s.zones, z, Select(c, s, z).zones[z]);
    case LClose(z) => ZoneKeeps(s.zones, z, Close(s, z).zones[z]);
    case LEndScan => ZoneKeeps(s.zones, s.gc.value.zone, EndScan(c, s).zones[s.gc.value.zone]);
  }

  lemma ZoneKeeps(zones: seq<Zone>, z: nat, zone: Zone)
    requires z < |zones| && zone.data == zones[z].data
    ensures Keeps(zones, zones[z := zone])
  {
  }

  lemma TreeKeeps(c: Config, s: State, t: nat)
    requires WellFormed(c, s)
    ensures CanInsert(s, t) ==> Insert(c, s, t).mapping == s.mapping && Insert(c, s, t).zones == s.zones
    ensures CanResolve(s, t) ==> Resolve(c, s, t).mapping == s.mapping && Resolve(c, s, t).zones == s.zones
  {
    if CanInsert(s, t) { assert s.ios[t].blk in s.tree ==> s.tree[s.ios[t].blk] in s.ios; }
    hide Release;
  }

  lemma VisitKeeps(c: Config, s: State, t: nat)
    requires CanVisit(c, s)
    ensures Visit(c, s, t).mapping == s.mapping && Keeps(s.zones, Visit(c, s, t).zones)
  {
  }

  lemma TryAllocKeeps(c: Config, s: State, t: nat, stream: nat)
    requires WellFormed(c, s) && CanAlloc(s, t, stream)
    ensures TryAlloc(c, s, t, stream).mapping == s.mapping && Keeps(s.zones, TryAlloc(c, s, t, stream).zones)
  {
    assert |s.zones| == c.zones && (s.active[stream].Some? ==> s.active[stream].value < c.zones);
    assert s.empty != [] ==> s.empty[0] < c.zones;
    hide WellFormed, Keeps, TakeZone;
    if !Refused(c, s, t) {
      if s.active[stream].Some? {
      } else if s.empty != [] {
        var z, s1 := s.empty[0], Open(c, s, stream);
        ZoneKeeps(s.zones, z, s1.zones[z]);
      }
    }
  }

  lemma AppendKeeps(c: Config, s: State, t: nat)
    requires WellFormed(c, s) && CanAppend(s, t)
    ensures Append(c, s, t).mapping == s.mapping && Keeps(s.zones, Append(c, s, t).zones)
  {
    assert IoInRange(c, s.zones, s.ios, s.ios[t]);
  }

  lemma FinishKeeps(c: Config, s: State, t: nat)
    requires WellFormed(c, s) && CanFinish(s, t)
    ensures Finish(c, s, t).mapping == s.mapping && Keeps(s.zones, Finish(c, s, t).zones)
  {
    assert IoInRange(c, s.zones, s.ios, s.ios[t]);
  }

  // ------------------------------------------------------------------ the maps, one by one

  lemma BlocksRemove(zones: seq<Zone>, mapping: map<nat, Pbid>, b: nat)
    requires forall x <- mapping :: OnMedia(zones, mapping[x])
    ensures Blocks(zones, mapping - {b}) == Blocks(zones, mapping) - {b}
  {
  }

  lemma BlocksSet(zones: seq<Zone>, mapping: map<nat, Pbid>, b: nat, p: Pbid)
    requires OnMedia(zones, p) && forall x <- mapping :: OnMedia(zones, mapping[x])
    ensures Blocks(zones, mapping[b := p]) == Blocks(zones, mapping)[b := PageAt(zones, p)]
  {
  }

  lemma FetchesSet(zones: seq<Zone>, ios: map<nat, Io>, r: nat, io: Io)
    requires io.Read? && OnMedia(zones, io.from) && forall x <- ios :: ios[x].Read? ==> OnMedia(zones, ios[x].from)
    requires r in ios ==> ios[r].Read?
    ensures Fetches(zones, ios[r := io]) == Fetches(zones, ios)[r := Value(zones, io)]
    ensures Writes(ios[r := io]) == Writes(ios)
  {
  }

  lemma FetchesRemove(zones: seq<Zone>, ios: map<nat, Io>, r: nat)
    requires forall x <- ios :: ios[x].Read? ==> OnMedia(zones, ios[x].from)
    requires r in ios && ios[r].Read?
    ensures Fetches(zones, ios - {r}) == Fetches(zones, ios) - {r}
    ensures Writes(ios - {r}) == Writes(ios)
  {
  }

  lemma WritesSet(zones: seq<Zone>, ios: map<nat, Io>, t: nat, io: Io)
    requires Match(LiveUser, io) && forall x <- ios :: ios[x].Read? ==> OnMedia(zones, ios[x].from)
    requires t !in ios
    ensures Fetches(zones, ios[t := io]) == Fetches(zones, ios)
    ensures Writes(ios[t := io]) == Writes(ios)[t := (io.blk, io.data)]
  {
  }

  lemma LeavingAbs(zones: seq<Zone>, ios: map<nat, Io>, t: nat)
    requires t in ios && ios[t].Task? && forall r <- ios :: ios[r].Read? ==> OnMedia(zones, ios[r].from)
    ensures var ios' := ios[t := Leaving(ios[t])];
            && Writes(ios') == Writes(ios) - {t}
            && (forall r <- ios' :: ios'[r].Read? ==> OnMedia(zones, ios'[r].from))
            && Fetches(zones, ios') == Fetches(zones, ios)
  {
  }

  // ----------------------------------------------------------------------- steps that count

  lemma SubmitAbs(s: State, t: nat, b: nat, d: Page)
    requires Readable(s) && t !in s.ios
    ensures Readable(Submit(s, t, b, d)) && Abs(Submit(s, t, b, d)) == SpecStep(Abs(s), LSubmit(t, b, d))
  {
    hide Writes, Fetches, Blocks;
    WritesSet(s.zones, s.ios, t, Submit(s, t, b, d).ios[t]);
  }

  lemma LookupAbs(c: Config, s: State, r: nat, b: nat)
    requires WellFormed(c, s) && Readable(s) && r !in s.ios
    ensures Readable(Lookup(c, s, r, b)) && Abs(Lookup(c, s, r, b)) == SpecStep(Abs(s), LLookup(r, b))
  {
    hide WellFormed;
    var s' := Lookup(c, s, r, b);
    assert b in Abs(s).blocks <==> b in s.mapping;
    if b in s.mapping {
      assert Abs(s).blocks[b] == PageAt(s.zones, s.mapping[b]);
      hide Writes, Fetches, Blocks;
      assert s'.zones == s.zones[s.mapping[b].zone := GetZone(s.zones[s.mapping[b].zone])];
      FetchesSet(s.zones, s.ios, r, Read(s.mapping[b], None));
      SameFetches(s.zones, s'.zones, s'.ios, s'.ios);
      SameBlocks(s.zones, s'.zones, s.mapping);
    }
  }

  lemma ReadMediaAbs(c: Config, s: State, r: nat)
    requires WellFormed(c, s) && Readable(s) && CanReadMedia(s, r)
    ensures Readable(ReadMedia(c, s, r)) && Abs(ReadMedia(c, s, r)) == Abs(s)
  {
    hide WellFormed;
    var s' := ReadMedia(c, s, r);
    FetchesSet(s.zones, s.ios, r, s'.ios[r]);
    assert r in Fetches(s.zones, s.ios) && Fetches(s.zones, s.ios)[r] == Value(s.zones, s'.ios[r]);
  }

  lemma ReadEndioAbs(c: Config, s: State, r: nat)
    requires WellFormed(c, s) && Readable(s) && CanReadEndio(s, r)
    ensures Readable(ReadEndio(c, s, r)) && Abs(ReadEndio(c, s, r)) == SpecStep(Abs(s), LReadEndio(r))
  {
    hide WellFormed, Writes, Fetches, Blocks;
    var s' := ReadEndio(c, s, r);
    assert s'.zones == s.zones[s.ios[r].from.zone := PutZone(s.zones[s.ios[r].from.zone])];
    FetchesRemove(s.zones, s.ios, r);
    SameFetches(s.zones, s'.zones, s'.ios, s'.ios);
    SameBlocks(s.zones, s'.zones, s.mapping);
  }

  lemma ResetAbs(c: Config, s: State, z: nat)
    requires Inv(c, s) && Readable(s) && CanReset(s, z)
    ensures Readable(Reset(c, s, z)) && Abs(Reset(c, s, z)) == Abs(s)
  {
    hide Inv;
    UnreferencedIsDead(c, s, z);
    var s' := Reset(c, s, z);
    assert forall b <- s.mapping :: s'.zones[s.mapping[b].zone] == s.zones[s.mapping[b].zone];
    assert forall r <- s.ios :: s.ios[r].Read? ==> s'.zones[s.ios[r].from.zone] == s.zones[s.ios[r].from.zone];
    assert Blocks(s'.zones, s'.mapping) == Blocks(s.zones, s.mapping);
    assert Fetches(s'.zones, s'.ios) == Fetches(s.zones, s.ios);
  }

  lemma UnmapAbs(c: Config, s: State, b: nat)
    requires WellFormed(c, s) && Readable(s)
    ensures Readable(Unmap(c, s, b)) && Abs(Unmap(c, s, b)) == SpecStep(Abs(s), LDiscard(b))
  {
    hide WellFormed, Writes, Fetches, Blocks;
    var s' := Unmap(c, s, b);
    assert s'.mapping == s.mapping - {b};
    assert Keeps(s.zones, s'.zones);
    BlocksRemove(s.zones, s.mapping, b);
    SameBlocks(s.zones, s'.zones, s'.mapping);
    SameFetches(s.zones, s'.zones, s.ios, s.ios);
  }

  // The views after a commit: a user write is no longer pending.
  lemma CommitIo(c: Config, s: State, t: nat)
    requires Inv(c, s) && CanEndio(s, t)
    ensures SameIo(s.ios[t := Leaving(s.ios[t])], Commit(c, s, t).ios)
  {
    hide Inv, WellFormed, RefsExact, TreeLinks, ConflictLinks, ParkLinks, Moves, Coverage, MapsInverse, LandedPages,
         LifeCycle, Counts, Totals, Reserve, TriedStreams, InRange, StatusOk, Release;
    PartsMakeInv(c, s);
    if s.ios[t].kind.User? {
      var ios' := s.ios[t := Leaving(s.ios[t])];
      BindRefs(s.ios, t);
      BindLinks(s.ios, s.tree, t);
      LastRef(ios', t, 2);
      ReleaseSameIo(ios', t, 2);
    }
  }

  lemma CommitAbs(c: Config, s: State, t: nat)
    requires Inv(c, s) && Readable(s) && CanEndio(s, t)
    ensures Readable(Commit(c, s, t))
    ensures Abs(Commit(c, s, t))
            == Abs(s).(blocks := Abs(s).blocks[s.ios[t].blk := s.ios[t].data], writes := Abs(s).writes - {t})
  {
    hide Inv, WellFormed, Release, Writes, Fetches, Blocks;
    InvShape(c, s);
    LandedFacts(c, s, t);
    CommitIo(c, s, t);
    hide SameIo;
    var s' := Commit(c, s, t);
    var p := s.ios[t].st.at;
    var ios' := s.ios[t := Leaving(s.ios[t])];
    LeavingAbs(s.zones, s.ios, t);
    SameWrites(ios', s'.ios);
    SameFetches(s.zones, s'.zones, ios', s'.ios);
    BlocksSet(s.zones, s.mapping, s.ios[t].blk, p);
    SameBlocks(s.zones, s'.zones, s'.mapping);
  }

  // ---------------------------------------------------------------------------- theorems

  /** Completion of a write.  For a user write the array takes the submitted page at the
      submitted block; for a GC write nothing changes, unless its block was discarded
      after the re-check. */
  lemma EndioAbs(c: Config, s: State, t: nat)
    requires Inv(c, s) && Readable(s) && CanEndio(s, t)
    ensures Readable(Endio(c, s, t))
    ensures !Ghost(s, t) ==> Abs(Endio(c, s, t)) == SpecStep(Abs(s), LEndio(t))
    ensures Ghost(s, t) ==> Abs(Endio(c, s, t)) == Abs(s).(blocks := Abs(s).blocks[s.ios[t].blk := s.ios[t].data])
  {
    hide Inv, WellFormed, Commit, Unmap, Abs, Ghost, Readable;
    InvShape(c, s);
    var b := s.ios[t].blk;
    UnmapInv(c, s, b);
    UnmapAbs(c, s, b);
    var s1 := Unmap(c, s, b);
    UnmapSameIo(c, s, b);
    CommitAbs(c, s1, t);
    LandedAbs(c, s, t);
    Reassign(Abs(s).blocks, b, s.ios[t].data);
  }

  // What the array says about a landed write.
  lemma LandedAbs(c: Config, s: State, t: nat)
    requires Inv(c, s) && Readable(s) && CanEndio(s, t)
    ensures s.ios[t].kind.User? ==>
              t in Abs(s).writes && Abs(s).writes[t] == (s.ios[t].blk, s.ios[t].data) && !Ghost(s, t)
    ensures s.ios[t].kind.Mover? ==> t !in Abs(s).writes && Abs(s).writes - {t} == Abs(s).writes
    ensures s.ios[t].kind.Mover? && !Ghost(s, t) ==>
              s.ios[t].blk in Abs(s).blocks && Abs(s).blocks[s.ios[t].blk] == s.ios[t].data
  {
    hide Inv;
    TaskFacts(c, s, t);
  }

  lemma Reassign(m: map<nat, Page>, b: nat, d: Page)
    ensures (m - {b})[b := d] == m[b := d]
    ensures b in m && m[b] == d ==> m[b := d] == m
  {
  }

  lemma UnmapSameIo(c: Config, s: State, b: nat)
    requires WellFormed(c, s)
    ensures Unmap(c, s, b).ios == s.ios
  {
  }

  // The array does not see the queues.
  lemma QueuesUnseen(s: State, q: Sched)
    requires Readable(s)
    ensures Readable(s.(sched := q)) && Abs(s.(sched := q)) == Abs(s)
  {
    hide Writes, Fetches, Blocks;
  }

  /** One step of the machine is one step of the array. */
  lemma StepRefines(c: Config, s: State, l: Label)
    requires Inv(c, s) && Enabled(c, s, l) && (l.LEndio? ==> !Ghost(s, l.t))
    ensures Readable(s) && Readable(Apply(c, s, l))
    ensures Abs(Apply(c, s, l)) == SpecStep(Abs(s), l)
  {
    hide Inv, WellFormed, Abs, Readable, Ghost, Effect, Queues, Enabled, SpecStep;
    InvShape(c, s);
    InvReadable(c, s);
    if Quiet(l) {
      QuietRefines(c, s, l);
    } else {
      LoudRefines(c, s, l);
    }
    QueuesUnseen(Effect(c, s, l), Queues(c, s, l));
  }

  lemma QuietRefines(c: Config, s: State, l: Label)
    requires Inv(c, s) && Enabled(c, s, l) && Readable(s) && Quiet(l)
    ensures Readable(Effect(c, s, l)) && Abs(Effect(c, s, l)) == SpecStep(Abs(s), l)
  {
    hide Inv, WellFormed, Abs, Readable, Effect, Enabled, SameIo, Keeps;
    InvShape(c, s);
    QuietSameIo(c, s, l);
    QuietKeeps(c, s, l);
    Stutter(s, Effect(c, s, l));
  }

  lemma LoudRefines(c: Config, s: State, l: Label)
    requires Inv(c, s) && Enabled(c, s, l) && (l.LEndio? ==> !Ghost(s, l.t)) && Readable(s) && !Quiet(l)
    ensures Readable(Effect(c, s, l)) && Abs(Effect(c, s, l)) == SpecStep(Abs(s), l)
  {
    hide Inv, WellFormed, Abs, Readable, Ghost, Submit, Lookup, ReadMedia, ReadEndio, Reset, Unmap, Endio;
    InvShape(c, s);
    match l
    case LSubmit(t, b, d) => SubmitAbs(s, t, b, d);
    case LEndio(t) => EndioAbs(c, s, t);
    case LLookup(r, b) => LookupAbs(c, s, r, b);
    case LReadMedia(r) => ReadMediaAbs(c, s, r);
    case LReadEndio(r) => ReadEndioAbs(c, s, r);
    case LReset(z) => ResetAbs(c, s, z);
    case LDiscard(b) => UnmapAbs(c, s, b);
  }

  // ---------------------------------------------------------------- when ghosts can appear

  ghost predicate PastFrom(ios: map<nat, Io>, ios': map<nat, Io>) {
    forall t, b :: Past(ios', t, b) ==> Past(ios, t, b) && ios'[t].data == ios[t].data
  }

  lemma ReleasePast(ios: map<nat, Io>, h: nat, n: nat)
    requires h in ios && ios[h].Task?
    requires ios[h].pendingGc.Some? ==> ios[h].pendingGc.value in ios && ios[ios[h].pendingGc.value].Task?
    ensures PastFrom(ios, Release(ios, h, n))
  {
  }

  lemma ResolvePast(c: Config, s: State, t: nat)
    requires WellFormed(c, s) && CanResolve(s, t)
    ensures PastFrom(s.ios, Resolve(c, s, t).ios)
  {
    var io := s.ios[t];
    var h := io.st.host;
    assert IoInRange(c, s.zones, s.ios, io) && IoInRange(c, s.zones, s.ios, s.ios[h]);
    hide WellFormed, Release;
    if io.kind.User? {
      ReleasePast(s.ios[t := io.(st := Init)], h, 1);
    } else {
      var parked := s.ios[t := io.(st := Parked(h))];
      ReleasePast(parked[h := parked[h].(pendingGc := Some(t))], h, 1);
    }
  }

  lemma FinishPast(c: Config, s: State, t: nat)
    requires WellFormed(c, s) && CanFinish(s, t)
    ensures PastFrom(s.ios, Finish(c, s, t).ios)
  {
    assert IoInRange(c, s.zones, s.ios, s.ios[t]);
    hide WellFormed, Release;
    ReleasePast(s.ios[t := s.ios[t].(st := Done)], t, 1);
  }

  lemma EndioPast(c: Config, s: State, t: nat)
    requires WellFormed(c, s) && CanEndio(s, t)
    ensures PastFrom(s.ios, Endio(c, s, t).ios)
  {
    UnmapSameIo(c, s, s.ios[t].blk);
    assert IoInRange(c, s.zones, s.ios, s.ios[t]);
    hide WellFormed, Release;
    if s.ios[t].kind.User? { ReleasePast(s.ios[t := s.ios[t].(st := Done)], t, 2); }
  }

  lemma UpdatePast(ios: map<nat, Io>, t: nat, io: Io)
    requires forall b :: Past(ios[t := io], t, b) ==> Past(ios, t, b) && io.data == ios[t].data
    ensures PastFrom(ios, ios[t := io])
  {
    forall u, b | Past(ios[t := io], u, b)
      ensures Past(ios, u, b) && ios[t := io][u].data == ios[u].data
    {
      if u != t { assert ios[t := io][u] == ios[u]; }
    }
  }

  lemma TryAllocPast(c: Config, s: State, t: nat, k: nat)
    requires WellFormed(c, s) && CanAlloc(s, t, k)
    ensures PastFrom(s.ios, TryAlloc(c, s, t, k).ios)
  {
    hide WellFormed, TryAlloc, PastFrom;
    TryAllocShape(c, s, t, k);
    var ios' := TryAlloc(c, s, t, k).ios;
    UpdatePast(s.ios, t, ios'[t]);
  }

  // Steps that change one task's progress, or add an operation.
  lemma ProgressPast(c: Config, s: State, t: nat)
    requires WellFormed(c, s)
    ensures CanRequeue(s, t) ==> PastFrom(s.ios, Requeue(s, t).ios)
    ensures CanAppend(s, t) ==> PastFrom(s.ios, Append(c, s, t).ios)
    ensures CanMoveRead(s, t) ==> PastFrom(s.ios, MoveRead(c, s, t).ios)
    ensures CanReadMedia(s, t) ==> PastFrom(s.ios, ReadMedia(c, s, t).ios)
    ensures CanReadEndio(s, t) ==> PastFrom(s.ios, ReadEndio(c, s, t).ios)
    ensures CanVisit(c, s) && t !in s.ios ==> PastFrom(s.ios, Visit(c, s, t).ios)
  {
    hide WellFormed;
    if CanRequeue(s, t) { UpdatePast(s.ios, t, Requeue(s, t).ios[t]); }
    if CanAppend(s, t) { UpdatePast(s.ios, t, Append(c, s, t).ios[t]); }
    if CanMoveRead(s, t) { UpdatePast(s.ios, t, MoveRead(c, s, t).ios[t]); }
    if CanReadMedia(s, t) { UpdatePast(s.ios, t, ReadMedia(c, s, t).ios[t]); }
  }

  lemma RecheckPast(c: Config, s: State, t: nat)
    requires WellFormed(c, s) && CanRecheck(s, t)
    ensures forall u, b :: Past(Recheck(s, t).ios, u, b) ==>
              b in s.mapping || (Past(s.ios, u, b) && Recheck(s, t).ios[u].data == s.ios[u].data)
  {
    hide WellFormed;
  }

  lemma ArrivalPast(c: Config, s: State, t: nat, b: nat, d: Page)
    requires WellFormed(c, s) && t !in s.ios
    ensures PastFrom(s.ios, Submit(s, t, b, d).ios) && PastFrom(s.ios, Lookup(c, s, t, b).ios)
  {
    hide WellFormed;
  }

  /** Only the re-check lets a GC task past it, and only onto a mapped block. */
  lemma OnlyRecheckPasses(c: Config, s: State, l: Label)
    requires WellFormed(c, s) && Enabled(c, s, l)
    ensures !l.LRecheck? ==> PastFrom(s.ios, Apply(c, s, l).ios)
    ensures l.LRecheck? ==> forall t, b :: Past(Apply(c, s, l).ios, t, b) ==>
              b in s.mapping || (Past(s.ios, t, b) && Apply(c, s, l).ios[t].data == s.ios[t].data)
  {
    hide WellFormed, Release, Insert, Resolve, Finish, Endio, TryAlloc, Requeue, Append, MoveRead, Recheck, Visit,
         Submit, Lookup, ReadMedia, ReadEndio, PastFrom, Queues;
    PastRefl(s.ios);
    UnmapSameIo(c, s, if l.LDiscard? then l.b else 0);
    match l
    case LInsert(t) => InsertPast(c, s, t);
    case LResolve(t) => ResolvePast(c, s, t);
    case LFinish(t) => FinishPast(c, s, t);
    case LEndio(t) => EndioPast(c, s, t);
    case LTryAlloc(t, k) => TryAllocPast(c, s, t, k);
    case LRecheck(t) => RecheckPast(c, s, t);
    case LSubmit(t, b, d) => ArrivalPast(c, s, t, b, d);
    case LLookup(t, b) => ArrivalPast(c, s, t, b, 0);
    case LRequeue(t) => ProgressPast(c, s, t);
    case LAppend(t) => ProgressPast(c, s, t);
    case LMoveRead(t) => ProgressPast(c, s, t);
    case LReadMedia(t) => ProgressPast(c, s, t);
    case LReadEndio(t) => ProgressPast(c, s, t);
    case LVisit(t) => ProgressPast(c, s, t);
    case _ =>
  }

  lemma PastRefl(ios: map<nat, Io>)
    ensures PastFrom(ios, ios)
  {
  }

  lemma InsertPast(c: Config, s: State, t: nat)
    requires WellFormed(c, s) && CanInsert(s, t)
    ensures PastFrom(s.ios, Insert(c, s, t).ios)
  {
    assert s.ios[t].blk in s.tree ==> s.tree[s.ios[t].blk] in s.ios && s.ios[s.tree[s.ios[t].blk]].Task?;
    hide WellFormed;
  }

  // Blocks only become unmapped by a discard.
  lemma MappingGrows(c: Config, s: State, l: Label)
    requires WellFormed(c, s) && Enabled(c, s, l)
    ensures !l.LDiscard? ==> s.mapping.Keys <= Apply(c, s, l).mapping.Keys
    ensures l.LDiscard? ==> s.mapping.Keys - {l.b} <= Apply(c, s, l).mapping.Keys
  {
    hide WellFormed, Release;
  }

  /** A step makes a ghost only if it discards a block that a GC task holds past its
      re-check: with safe discards there is none. */
  lemma StepKeepsNoGhost(c: Config, s: State, l: Label)
    requires Inv(c, s) && Enabled(c, s, l) && NoGhost(s)
    requires l.LDiscard? ==> DiscardSafe(s, l.b)
    ensures NoGhost(Apply(c, s, l))
  {
    hide Inv, WellFormed, Apply, Enabled, Past, NoGhost, PastFrom, DiscardSafe;
    InvShape(c, s);
    OnlyRecheckPasses(c, s, l);
    MappingGrows(c, s, l);
    TreeOwner(c, s);
    var s' := Apply(c, s, l);
    if l.LRecheck? {
      RecheckNoGhost(s, s');
    } else if l.LDiscard? {
      DiscardNoGhost(s, s', l.b);
    } else {
      GrowingNoGhost(s, s');
    }
  }

  lemma RecheckNoGhost(s: State, s': State)
    requires NoGhost(s) && s.mapping.Keys <= s'.mapping.Keys
    requires forall t, b :: Past(s'.ios, t, b) ==> b in s.mapping || Past(s.ios, t, b)
    ensures NoGhost(s')
  {
    assert forall t, b :: Past(s.ios, t, b) && b !in s.mapping ==> Ghost(s, t);
  }

  lemma GrowingNoGhost(s: State, s': State)
    requires NoGhost(s) && s.mapping.Keys <= s'.mapping.Keys && PastFrom(s.ios, s'.ios)
    ensures NoGhost(s')
  {
    assert forall t, b :: Past(s.ios, t, b) && b !in s.mapping ==> Ghost(s, t);
  }

  lemma DiscardNoGhost(s: State, s': State, b: nat)
    requires NoGhost(s) && s.mapping.Keys - {b} <= s'.mapping.Keys && PastFrom(s.ios, s'.ios) && DiscardSafe(s, b)
    requires forall t, b :: Past(s.ios, t, b) ==> b in s.tree && s.tree[b] == t
    ensures NoGhost(s')
  {
    assert forall t, b :: Past(s.ios, t, b) && b !in s.mapping ==> Ghost(s, t);
    assert forall t :: !Past(s.ios, t, b);
  }

  // A GC task past its re-check owns its block's tree slot.
  lemma TreeOwner(c: Config, s: State)
    requires Inv(c, s)
    ensures forall t, b :: Past(s.ios, t, b) ==> b in s.tree && s.tree[b] == t
  {
    hide Inv, MapsInverse, LandedPages, LifeCycle, Counts, RefsExact, Moves, Coverage, TriedStreams, InRange, Totals,
         Reserve, WellFormed, ConflictLinks, ParkLinks;
    PartsMakeInv(c, s);
  }

  // Every discard of the run meets a block that no GC task holds past its re-check.
  ghost predicate SafeRun(c: Config, s: State, run: seq<Label>)
    decreases |run|
  {
    run != [] && WellFormed(c, s) && Enabled(c, s, run[0]) ==>
      && (run[0].LDiscard? ==> DiscardSafe(s, run[0].b))
      && SafeRun(c, Apply(c, s, run[0]), run[1..])
  }

  /** Every run with safe discards, so every run of the default build, which has none, is
      a run of the plain array. */
  lemma {:induction false} RunRefines(c: Config, s: State, run: seq<Label>)
    requires Inv(c, s) && NoGhost(s) && SafeRun(c, s, run)
    ensures Run(c, s, run).Some? ==>
              && Inv(c, Run(c, s, run).value) && Readable(s) && Readable(Run(c, s, run).value)
              && NoGhost(Run(c, s, run).value)
              && Abs(Run(c, s, run).value) == SpecRun(Abs(s), run)
    decreases |run|
  {
    hide Inv, WellFormed, Abs, Readable, NoGhost, Apply, Enabled, SpecStep;
    InvReadable(c, s);
    if run != [] && WellFormed(c, s) && Enabled(c, s, run[0]) {
      StepKeepsInv(c, s, run[0]);
      StepKeepsNoGhost(c, s, run[0]);
      assert run[0].LEndio? ==> !Ghost(s, run[0].t) by {
        if run[0].LEndio? && Ghost(s, run[0].t) { NotNoGhost(s, run[0].t); }
      }
      StepRefines(c, s, run[0]);
      RunRefines(c, Apply(c, s, run[0]), run[1..]);
    }
  }

  lemma InitialAbs(c: Config)
    requires c.Valid()
    ensures Readable(Initial(c)) && NoGhost(Initial(c)) && Abs(Initial(c)) == Spec(map[], map[], map[])
  {
  }

  /** The same from an empty device: the reached state shows the array the specification
      reaches from an empty one, and a read that completes delivers what the
      specification recorded for it at its lookup. */
  lemma DeviceRefinesArray(c: Config, run: seq<Label>, s: State)
    requires c.Valid() && SafeRun(c, Initial(c), run) && Run(c, Initial(c), run) == Some(s)
    ensures Inv(c, s) && Readable(s)
    ensures Abs(s) == SpecRun(Spec(map[], map[], map[]), run)
    ensures forall r :: CanReadEndio(s, r) ==>
              r in SpecRun(Spec(map[], map[], map[]), run).fetches
              && s.ios[r].result == Some(SpecRun(Spec(map[], map[], map[]), run).fetches[r])
  {
    hide Inv, WellFormed, SafeRun, Run, NoGhost, SpecRun;
    InitialInv(c);
    InitialAbs(c);
    RunRefines(c, Initial(c), run);
  }

  lemma DiscardIsStep(c: Config, s: State, b: nat)
    requires Inv(c, s) && b in s.mapping
    ensures WellFormed(c, s) && Enabled(c, s, LDiscard(b)) && Apply(c, s, LDiscard(b)) == Unmap(c, s, b)
    ensures b !in Unmap(c, s, b).mapping
  {
    hide Inv, WellFormed;
    InvShape(c, s);
    MappedPlace(c, s, b);
  }

  lemma UnsafeDiscard(c: Config, s: State, b: nat)
    requires Inv(c, s) && b in s.mapping && !DiscardSafe(s, b)
    ensures Ghost(Unmap(c, s, b), s.tree[b]) && !NoGhost(Unmap(c, s, b))
  {
    hide Inv, WellFormed;
    InvShape(c, s);
    OwnerInTree(c, s);
    assert Past(s.ios, s.tree[b], b);
    NotNoGhost(Unmap(c, s, b), s.tree[b]);
  }

  lemma NotNoGhost(s: State, t: nat)
    requires Ghost(s, t)
    ensures !NoGhost(s)
  {
  }

  lemma OwnerInTree(c: Config, s: State)
    requires Inv(c, s)
    ensures forall b <- s.tree ::
              s.tree[b] in s.ios && s.ios[s.tree[b]].Task? && s.ios[s.tree[b]].blk == b && InTree(s.ios[s.tree[b]].st)
  {
    hide Inv, MapsInverse, LandedPages, LifeCycle, Counts, RefsExact, Moves, Coverage, TriedStreams, InRange, Totals,
         Reserve, WellFormed, ConflictLinks, ParkLinks;
    PartsMakeInv(c, s);
  }

  /** A ghost that has landed undoes the discard: its completion brings the page back. */
  lemma GhostUndoesDiscard(c: Config, s: State, t: nat)
    requires Inv(c, s) && Ghost(s, t) && CanEndio(s, t) && Readable(s)
    ensures s.ios[t].blk !in Abs(s).blocks
    ensures Readable(Endio(c, s, t))
    ensures s.ios[t].blk in Abs(Endio(c, s, t)).blocks && Abs(Endio(c, s, t)).blocks[s.ios[t].blk] == s.ios[t].data
  {
    hide Inv, WellFormed, Endio;
    EndioAbs(c, s, t);
  }
}
