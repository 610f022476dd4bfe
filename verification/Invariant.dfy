/** What every reachable state satisfies. */
module Invariant {
  import opened Machine
  import opened Counting

  // Forward and reverse maps are mutual inverses; reverse entries lie on written blocks.
  ghost predicate MapsInverse(c: Config, zones: seq<Zone>, mapping: map<nat, Pbid>) {
    && (forall b <- mapping ::
          && b < c.blocks
          && mapping[b].zone < |zones|
          && mapping[b].off in zones[mapping[b].zone].rmap
          && zones[mapping[b].zone].rmap[mapping[b].off] == b)
    && (forall z, o :: 0 <= z < |zones| && o in zones[z].rmap ==>
          && o < |zones[z].data|
          && zones[z].rmap[o] in mapping
          && mapping[zones[z].rmap[o]] == Pbid(z, o))
  }

  // Pages the device has stored and whose completion has not run yet.
  ghost predicate LandedPages(zones: seq<Zone>, ios: map<nat, Io>) {
    && (forall t :: t in ios && ios[t].Task? && ios[t].st.Landed? ==>
          var p := ios[t].st.at;
          && p.zone < |zones|
          && p.off < |zones[p.zone].data|
          && zones[p.zone].data[p.off] == ios[t].data
          && p.off !in zones[p.zone].rmap)
    && (forall t, u :: t in ios && u in ios && t != u
                       && ios[t].Task? && ios[u].Task? && ios[t].st.Landed? && ios[u].st.Landed?
                       ==> ios[t].st.at != ios[u].st.at)
  }

  ghost predicate Distinct(s: seq<nat>) {
    forall i, j :: 0 <= i < j < |s| ==> s[i] != s[j]
  }

  // Each zone is in the place its phase names, and in no other.
  ghost predicate ZoneLife(c: Config, i: nat, z: Zone, empty: seq<nat>, full: seq<nat>, active: seq<Option<nat>>,
                           gc: Option<Scan>)
  {
    match z.phase
    case Empty => z.wp == 0 && z.refs == 0 && z.rmap == map[] && i in empty
    case Active(k) => k < |active| && active[k] == Some(i) && z.wp < c.cap && z.cond.CondOpen?
    case ToFull => z.wp == c.cap && (z.cond.CondFull? <==> z.pending == 0)
    case Full => z.wp == c.cap && z.pending == 0 && z.cond.CondClosed? && i in full
    case Gc => z.wp == c.cap && z.pending == 0 && gc.Some? && gc.value.zone == i && (z.cond.CondEmpty? <==> z.refs == 0)
  }

  ghost predicate LifeCycle(c: Config, zones: seq<Zone>, empty: seq<nat>, full: seq<nat>, active: seq<Option<nat>>,
                            gc: Option<Scan>)
  {
    && (forall i :: 0 <= i < |zones| ==> ZoneLife(c, i, zones[i], empty, full, active, gc))
    && Distinct(empty)
    && Distinct(full)
    && (forall z <- empty :: z < |zones| && zones[z].phase.Empty?)
    && (forall z <- full :: z < |zones| && zones[z].phase.Full?)
    && (forall k :: 0 <= k < |active| && active[k].Some? ==>
          active[k].value < |zones| && zones[active[k].value].phase == Active(k))
    && (gc.Some? ==>
          && gc.value.zone < |zones|
          && zones[gc.value.zone].phase.Gc?
          && gc.value.pos <= c.cap
          && (gc.value.base || gc.value.pos == c.cap))
  }

  function BaseRef(gc: Option<Scan>, z: nat): nat {
    Bit(gc.Some? && gc.value.zone == z && gc.value.base)
  }

  // Every per-zone counter is exactly what the operations in flight account for.
  ghost predicate ZoneCounts(i: nat, z: Zone, ios: map<nat, Io>, gc: Option<Scan>) {
    && z.refs == Bit(z.phase.Active?) + Count(ios, WritesTo(i)) + Count(ios, ReadsFrom(i))
                 + Count(ios, MovesFrom(i)) + BaseRef(gc, i)
    && z.pending == Count(ios, WritesTo(i))
    && z.wp == |z.data| + Count(ios, Unlanded(i))
    && z.weight == |z.rmap| + z.pending
  }

  ghost predicate Counts(zones: seq<Zone>, ios: map<nat, Io>, gc: Option<Scan>) {
    forall i :: 0 <= i < |zones| ==> ZoneCounts(i, zones[i], ios, gc)
  }

  ghost predicate Totals(c: Config, s: State) {
    && s.allocable == Total(c.cap, Free, s.zones)
    && s.valid == Total(c.cap, Weight, s.zones)
    && |s.mapping| == Total(c.cap, Mapped, s.zones)
    && s.userInflight == Count(s.ios, LiveUser)
    && s.readInflight == Count(s.ios, LiveRead)
    && s.gcInflight == Count(s.ios, LiveMove)
  }

  // References a task holds on itself: one of its own, one for the tree.
  function OwnRefs(st: Status): nat {
    if st.Done? then 0 else if InTree(st) then 2 else 1
  }

  ghost predicate StatusOk(io: Io)
    requires io.Task?
  {
    match io.kind
    case User =>
      && (io.st.Init? || io.st.Conflict? || io.st.Alloc? || io.st.Writing? || io.st.Landed? || io.st.Done?)
      && (io.pendingGc.Some? ==> InTree(io.st) || io.st.Done?)
      && (io.pendingGc.None? && io.st.Alloc? ==> io.st.tried == {})
    case Mover =>
      && !io.st.Init?
      && io.pendingGc.None?
  }

  /** Task references are exact, except that task x carries `extra` more than it should. */
  ghost predicate RefsExact(ios: map<nat, Io>, x: nat, extra: nat) {
    forall t :: t in ios && ios[t].Task? ==>
      && ios[t].rc == OwnRefs(ios[t].st) + Count(ios, ConflictsOn(t)) + (if t == x then extra else 0)
      && ios[t].rc > 0
  }

  ghost predicate TreeLinks(ios: map<nat, Io>, tree: map<nat, nat>) {
    && (forall b <- tree :: tree[b] in ios && ios[tree[b]].Task? && ios[tree[b]].blk == b && InTree(ios[tree[b]].st))
    && (forall t :: t in ios && ios[t].Task? && InTree(ios[t].st) ==> ios[t].blk in tree && tree[ios[t].blk] == t)
  }

  ghost predicate ConflictLinks(ios: map<nat, Io>) {
    forall t :: t in ios && ios[t].Task? && ios[t].st.Conflict? ==>
      var h := ios[t].st.host;
      && h in ios && h != t && ios[h].Task? && ios[h].blk == ios[t].blk
      && (InTree(ios[h].st) || ios[h].st.Done? || ios[h].st.Finishing?)
      && (ios[t].kind.Mover? ==> ios[h].kind.User?)
  }

  ghost predicate ParkLinks(ios: map<nat, Io>) {
    && (forall t :: t in ios && ios[t].Task? && ios[t].st.Parked? ==>
          var h := ios[t].st.parkedOn;
          && ios[t].kind.Mover?
          && h in ios && IsUser(ios[h]) && ios[h].pendingGc == Some(t) && ios[h].blk == ios[t].blk)
    && (forall h :: h in ios && ios[h].Task? && ios[h].pendingGc.Some? ==>
          var t := ios[h].pendingGc.value;
          && ios[h].kind.User?
          && t in ios && ios[t].Task? && ios[t].kind.Mover? && ios[t].st == Parked(h))
  }

  ghost predicate Tasks(ios: map<nat, Io>, tree: map<nat, nat>) {
    && (forall t :: t in ios && ios[t].Task? ==> StatusOk(ios[t]))
    && TreeLinks(ios, tree)
    && ConflictLinks(ios)
    && ParkLinks(ios)
  }

  // A GC task that will still take care of the reverse entry at its source.
  ghost predicate Covers(ios: map<nat, Io>, t: nat, v: nat, o: nat) {
    t in ios && IsMove(ios[t]) && !ios[t].st.Finishing? && ios[t].src == Pbid(v, o)
  }

  ghost predicate Covered(ios: map<nat, Io>, v: nat, o: nat) {
    exists t :: Covers(ios, t, v, o)
  }

  // What a GC task knows about its block and its source.
  ghost predicate MoveOk(zones: seq<Zone>, ios: map<nat, Io>, gc: Option<Scan>, mapping: map<nat, Pbid>, io: Io)
    requires io.Task?
  {
    && gc.Some? && io.src.zone == gc.value.zone && io.src.off < gc.value.pos
    && io.src.zone < |zones| && io.src.off < |zones[io.src.zone].data|
    && (io.blk in mapping && mapping[io.blk].zone == io.src.zone ==> mapping[io.blk] == io.src)
    && (io.st.Alloc? || io.st.Writing? || io.st.Landed? ==> io.blk in mapping ==> mapping[io.blk] == io.src)
    && (io.src.off in zones[io.src.zone].rmap ==> zones[io.src.zone].rmap[io.src.off] == io.blk)
    && (!io.st.Reading? ==> io.data == zones[io.src.zone].data[io.src.off])
    && (io.st.Conflict? && io.st.host in ios && ios[io.st.host].Task? && ios[io.st.host].st.Done? ==>
          io.src.off !in zones[io.src.zone].rmap)
    && (io.st.Parked? && io.st.parkedOn in ios && ios[io.st.parkedOn].Task? && ios[io.st.parkedOn].st.Done? ==>
          io.src.off !in zones[io.src.zone].rmap)
  }

  ghost predicate Moves(zones: seq<Zone>, ios: map<nat, Io>, gc: Option<Scan>, mapping: map<nat, Pbid>) {
    && (forall t :: t in ios && IsMove(ios[t]) ==> MoveOk(zones, ios, gc, mapping, ios[t]))
    && (forall t, u :: t in ios && u in ios && t != u && IsMove(ios[t]) && IsMove(ios[u]) ==> ios[t].blk != ios[u].blk)
  }

  ghost predicate Coverage(zones: seq<Zone>, ios: map<nat, Io>, gc: Option<Scan>) {
    gc.Some? && gc.value.zone < |zones| ==>
      forall o :: o in zones[gc.value.zone].rmap && o < gc.value.pos ==> Covered(ios, gc.value.zone, o)
  }

  // GC allocations still owed: unvisited entries plus tasks that have yet to allocate.
  function Owed(zones: seq<Zone>, ios: map<nat, Io>, gc: Option<Scan>): nat {
    Count(ios, Owes) +
    if gc.Some? && gc.value.zone < |zones| then Unvisited(zones[gc.value.zone].rmap, gc.value.pos) else 0
  }

  ghost predicate Reserve(c: Config, s: State) {
    if s.gc.Some? then Owed(s.zones, s.ios, s.gc) <= s.allocable && Owed(s.zones, s.ios, s.gc) < c.cap
    else c.cap <= s.allocable + 1
  }

  // A stream that a GC-flagged allocation found without room stays so while GC lasts.
  ghost predicate TriedOk(io: Io, empty: seq<nat>, active: seq<Option<nat>>) {
    io.Task? && io.st.Alloc? ==> forall k <- io.st.tried :: k < |active| && active[k].None? && empty == []
  }

  ghost predicate TriedStreams(ios: map<nat, Io>, empty: seq<nat>, active: seq<Option<nat>>) {
    forall t <- ios :: TriedOk(ios[t], empty, active)
  }

  // The parts of the invariant, by name.
  datatype Part =
    | MapsPart | LandedPart | LifePart | CountsPart | TotalsPart | RefsPart
    | TasksPart | MovesPart | CoveragePart | ReservePart | TriedPart

  ghost predicate Holds(part: Part, c: Config, s: State) {
    match part
    case MapsPart => MapsInverse(c, s.zones, s.mapping)
    case LandedPart => LandedPages(s.zones, s.ios)
    case LifePart => LifeCycle(c, s.zones, s.empty, s.full, s.active, s.gc)
    case CountsPart => Counts(s.zones, s.ios, s.gc)
    case TotalsPart => Totals(c, s)
    case RefsPart => RefsExact(s.ios, 0, 0)
    case TasksPart => Tasks(s.ios, s.tree)
    case MovesPart => Moves(s.zones, s.ios, s.gc, s.mapping)
    case CoveragePart => Coverage(s.zones, s.ios, s.gc)
    case ReservePart => Reserve(c, s)
    case TriedPart => TriedStreams(s.ios, s.empty, s.active)
  }

  /** The invariant.  A proof looks up the parts it needs by their names; Frames.PartsMakeInv
      lists them all. */
  ghost predicate Inv(c: Config, s: State) {
    && c.Valid()
    && WellFormed(c, s)
    && forall part: Part :: Holds(part, c, s)
  }
}
