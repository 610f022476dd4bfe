/**
The translation layer as one shared state machine: logical to physical mapping,
per-zone reverse maps, zone allocator and zone life cycle, the per-block task tree,
the garbage collector's task protocol and the background worker that closes and
resets zones.  Every lock-protected section, completion handler and worker action
on one zone is one atomic step; steps interleave in any order.
*/
module Machine {

  datatype Option<+T> = None | Some(value: T)

  // The contents of one 4 KiB page; pages are only ever compared for equality.
  type Page = int

  // A physical block, as the zone it lies in and the distance from the zone's start.
  datatype Pbid = Pbid(zone: nat, off: nat)

  // cap: blocks per zone; zones: number of zones; streams: active slots;
  // blocks: number of logical blocks of the exported device.
  datatype Config = Config(cap: nat, zones: nat, streams: nat, blocks: nat) {
    predicate Valid() {
      0 < cap && 0 < zones && 0 < streams
    }
  }

  // Which list, slot or limbo a zone is in (the internal zone flags).
  datatype Phase = Empty | Active(stream: nat) | ToFull | Full | Gc

  // The zone condition that the put path and the worker use to talk to each other.
  datatype Cond = CondEmpty | CondOpen | CondFull | CondClosed

  // wp is the host's write pointer; |data| is the device's write pointer.
  datatype Zone = Zone(phase: Phase, cond: Cond, wp: nat, weight: int, refs: int, pending: int,
                       rmap: map<nat, nat>, data: seq<Page>)

  datatype Kind = User | Mover

  /** Life of a task.  User writes: Init, Conflict, Alloc, Writing, Landed, Done.
      GC tasks: Reading, ReadDone, Conflict, Parked, Inserted, Alloc, Writing, Landed,
      Finishing, Done.  Conflict(h) holds a transient reference on h, the task found
      in the tree; Parked(h) waits for h to run its callback. */
  datatype Status =
    | Init
    | Conflict(host: nat)
    | Reading
    | ReadDone
    | Inserted
    | Alloc(tried: set<nat>)
    | Writing(zone: nat)
    | Landed(at: Pbid)
    | Parked(parkedOn: nat)
    | Finishing
    | Done

  datatype Io =
    | Task(kind: Kind, blk: nat, data: Page, src: Pbid, st: Status, pendingGc: Option<nat>, rc: int)
    | Read(from: Pbid, result: Option<Page>)

  // The collector's cursor over its victim; base says that it still holds its own reference.
  datatype Scan = Scan(zone: nat, pos: nat, base: bool)

  // How far a submission has come: it goes on, having failed on some streams, or it has failed
  // altogether and goes back to its queue.
  datatype Turn = Going(failed: set<nat>) | Failed

  // What the retry worker's list holds: nothing, user writes, or GC tasks with their page read.
  datatype Pass = Resting | Writes | Copies

  /** The places of tasks that are not on the device: the two queues, the list the retry worker
      has spliced off one of them, and the tasks that someone is submitting right now; busy is
      the one of these that the worker submits. */
  datatype Sched = Sched(pending: seq<nat>, gcWrites: seq<nat>, pass: Pass, batch: seq<nat>,
                         busy: Option<nat>, turns: map<nat, Turn>)

  datatype State = State(
    zones: seq<Zone>,
    empty: seq<nat>,
    full: seq<nat>,
    active: seq<Option<nat>>,
    mapping: map<nat, Pbid>,
    ios: map<nat, Io>,
    tree: map<nat, nat>,
    sched: Sched,
    gc: Option<Scan>,
    allocable: int,
    valid: int,
    userInflight: int,
    readInflight: int,
    gcInflight: int)

  // What is stated for every seal is looked up only by a proof that mentions one: predicates that take
  // much to unfold are kept shut with it.
  datatype Seal = Seal

  // --------------------------------------------------------------- task predicates

  predicate InTree(st: Status) {
    st.Inserted? || st.Alloc? || st.Writing? || st.Landed?
  }

  predicate IsUser(io: Io) {
    io.Task? && io.kind.User?
  }

  // A GC task that has not yet run its callback.
  predicate IsMove(io: Io) {
    io.Task? && io.kind.Mover? && !io.st.Done?
  }

  // The allocation is made with the GC flag: by a GC task, or by a user write that
  // carries a parked GC task.
  predicate UsesReserve(io: Io)
    requires io.Task?
  {
    io.kind.Mover? || io.pendingGc.Some?
  }

  datatype Query =
    | WritesTo(zone: nat)
    | Unlanded(zone: nat)
    | ReadsFrom(zone: nat)
    | MovesFrom(zone: nat)
    | ConflictsOn(task: nat)
    | Owes
    | LiveUser
    | LiveMove
    | LiveRead

  predicate Match(q: Query, io: Io) {
    match q
    case WritesTo(z) => io.Task? && ((io.st.Writing? && io.st.zone == z) || (io.st.Landed? && io.st.at.zone == z))
    case Unlanded(z) => io.Task? && io.st.Writing? && io.st.zone == z
    case ReadsFrom(z) => io.Read? && io.from.zone == z
    case MovesFrom(z) => IsMove(io) && io.src.zone == z
    case ConflictsOn(t) => io.Task? && io.st.Conflict? && io.st.host == t
    case Owes =>
      io.Task? && if io.kind.User? then io.st.Alloc? && io.pendingGc.Some?
                  else io.st.Reading? || io.st.ReadDone? || io.st.Conflict? || io.st.Inserted? || io.st.Alloc?
    case LiveUser => IsUser(io) && !io.st.Done?
    case LiveMove => IsMove(io)
    case LiveRead => io.Read?
  }

  // ------------------------------------------------------------------ well-formedness

  /** Every index and every task reference is in range, so that each step below is
      defined. */
  ghost predicate WellFormed(c: Config, s: State) {
    && InRange(c, s.zones, s.ios)
    && PlacesInRange(c, s.empty, s.full, s.active, s.gc)
    && (forall b <- s.mapping :: s.mapping[b].zone < c.zones)
    && (forall b <- s.tree :: s.tree[b] in s.ios && s.ios[s.tree[b]].Task?)
  }

  ghost predicate PlacesInRange(c: Config, empty: seq<nat>, full: seq<nat>, active: seq<Option<nat>>,
                                gc: Option<Scan>)
  {
    && |active| == c.streams
    && (forall i :: 0 <= i < |active| && active[i].Some? ==> active[i].value < c.zones)
    && (forall i :: 0 <= i < |empty| ==> empty[i] < c.zones)
    && (forall i :: 0 <= i < |full| ==> full[i] < c.zones)
    && (gc.Some? ==> gc.value.zone < c.zones)
  }

  ghost predicate InRange(c: Config, zones: seq<Zone>, ios: map<nat, Io>) {
    |zones| == c.zones && forall t <- ios :: IoInRange(c, zones, ios, ios[t])
  }

  ghost predicate IoInRange(c: Config, zones: seq<Zone>, ios: map<nat, Io>, io: Io)
    requires |zones| == c.zones
  {
    match io
    case Read(p, _) => p.zone < c.zones && p.off < |zones[p.zone].data|
    case Task(_, blk, _, src, st, pending, _) =>
      && blk < c.blocks
      && (st.Writing? ==> st.zone < c.zones)
      && (st.Landed? ==> st.at.zone < c.zones && st.at.off < |zones[st.at.zone].data|)
      && (st.Conflict? ==> st.host in ios && ios[st.host].Task?)
      && (st.Parked? ==> st.parkedOn in ios && ios[st.parkedOn].Task?)
      && (pending.Some? ==> pending.value in ios && ios[pending.value].Task?)
      && (IsMove(io) ==> src.zone < c.zones && src.off < |zones[src.zone].data|)
  }

  // ------------------------------------------------------------------- zone primitives

  function GetZone(z: Zone): Zone {
    z.(refs := z.refs + 1)
  }

  /** Drops one reference.  The last reference on a zone under collection marks it
      ready for reset; any put on a written-out zone with no write pending marks it
      ready to be closed. */
  function PutZone(z: Zone): Zone {
    var z1 := z.(refs := z.refs - 1);
    if z1.refs == 0 && z1.phase.Gc? then z1.(cond := CondEmpty)
    else if z1.phase.ToFull? && z1.pending == 0 then z1.(cond := CondFull)
    else z1
  }

  function Without(s: seq<nat>, x: nat): seq<nat> {
    if s == [] then [] else if s[0] == x then s[1..] else [s[0]] + Without(s[1..], x)
  }

  // ------------------------------------------------------------------- task primitives

  /** Drops n references on task h.  The last one destroys h; a user write hands its
      parked GC task, if any, over to the GC callback. */
  function Release(ios: map<nat, Io>, h: nat, n: nat): map<nat, Io>
    requires h in ios && ios[h].Task?
    requires ios[h].pendingGc.Some? ==> ios[h].pendingGc.value in ios && ios[ios[h].pendingGc.value].Task?
  {
    var t := ios[h].(rc := ios[h].rc - n);
    if t.rc > 0 then ios[h := t]
    else if t.kind.User? && t.pendingGc.Some? && t.pendingGc.value != h then
      var g := t.pendingGc.value;
      (ios - {h})[g := ios[g].(st := Finishing)]
    else ios - {h}
  }

  // ---------------------------------------------------------------------- user writes

  function Submit(s: State, t: nat, b: nat, d: Page): State {
    s.(ios := s.ios[t := Task(User, b, d, Pbid(0, 0), Init, None, 1)], userInflight := s.userInflight + 1)
  }

  predicate CanInsert(s: State, t: nat) {
    t in s.ios && s.ios[t].Task? && (if s.ios[t].kind.User? then s.ios[t].st.Init? else s.ios[t].st.ReadDone?)
  }

  /** Puts t into the task tree, or takes a reference on the task already there. */
  function Insert(c: Config, s: State, t: nat): State
    requires CanInsert(s, t)
    requires s.ios[t].blk in s.tree ==> s.tree[s.ios[t].blk] in s.ios && s.ios[s.tree[s.ios[t].blk]].Task?
  {
    var io := s.ios[t];
    if io.blk in s.tree then
      var h := s.tree[io.blk];
      s.(ios := s.ios[h := s.ios[h].(rc := s.ios[h].rc + 1)][t := io.(st := Conflict(h))])
    else
      var st := if io.kind.User? then Alloc({}) else Inserted;
      s.(ios := s.ios[t := io.(st := st, rc := io.rc + 1)], tree := s.tree[io.blk := t])
  }

  predicate CanResolve(s: State, t: nat) {
    t in s.ios && s.ios[t].Task? && s.ios[t].st.Conflict?
  }

  /** A user write goes back to the retry queue; a GC task parks itself on the task it
      met.  Both then drop the reference taken by Insert, which may be the last. */
  function Resolve(c: Config, s: State, t: nat): State
    requires WellFormed(c, s) && CanResolve(s, t)
  {
    var io := s.ios[t];
    var h := io.st.host;
    if io.kind.User? then
      s.(ios := Release(s.ios[t := io.(st := Init)], h, 1))
    else
      var parked := s.ios[t := io.(st := Parked(h))];
      s.(ios := Release(parked[h := parked[h].(pendingGc := Some(t))], h, 1))
  }

  predicate CanAlloc(s: State, t: nat, stream: nat) {
    t in s.ios && s.ios[t].Task? && s.ios[t].st.Alloc? && stream < |s.active| && stream !in s.ios[t].st.tried
  }

  // A fresh zone from the head of the empty list becomes the stream's active zone.
  function Open(c: Config, s: State, stream: nat): State
    requires WellFormed(c, s) && stream < |s.active| && s.empty != []
  {
    var z := s.empty[0];
    s.(empty := s.empty[1..],
       active := s.active[stream := Some(z)],
       zones := s.zones[z := GetZone(s.zones[z]).(phase := Active(stream), cond := CondOpen)])
  }

  // The active zone of the stream, with one more block allocated in it.
  function TakeZone(c: Config, z: Zone): Zone {
    var z1 := z.(wp := z.wp + 1, weight := z.weight + 1, refs := z.refs + 1, pending := z.pending + 1);
    if z1.wp == c.cap then PutZone(z1.(phase := ToFull)) else z1
  }

  function Take(c: Config, s: State, t: nat, stream: nat): State
    requires |s.zones| == c.zones && CanAlloc(s, t, stream)
    requires s.active[stream].Some? && s.active[stream].value < c.zones
  {
    var z := s.active[stream].value;
    var zone := TakeZone(c, s.zones[z]);
    s.(zones := s.zones[z := zone],
       active := if zone.wp == c.cap then s.active[stream := None] else s.active,
       allocable := s.allocable - 1,
       valid := s.valid + 1,
       ios := s.ios[t := s.ios[t].(st := Writing(z))])
  }

  // User allocations are refused while fewer blocks are left than one zone holds.
  predicate Refused(c: Config, s: State, t: nat)
    requires t in s.ios && s.ios[t].Task?
  {
    !UsesReserve(s.ios[t]) && s.allocable < c.cap
  }

  // The stream has, or can open, a zone with room.
  predicate HasRoom(s: State, stream: nat)
    requires stream < |s.active|
  {
    s.active[stream].Some? || s.empty != []
  }

  /** One attempt to allocate a block from one stream.  A failed attempt that was
      entitled to the reserve is remembered until the task is queued again. */
  function TryAlloc(c: Config, s: State, t: nat, stream: nat): State
    requires WellFormed(c, s) && CanAlloc(s, t, stream)
  {
    if Refused(c, s, t) then s
    else if s.active[stream].Some? then Take(c, s, t, stream)
    else if s.empty != [] then Take(c, Open(c, s, stream), t, stream)
    else if UsesReserve(s.ios[t]) then
      s.(ios := s.ios[t := s.ios[t].(st := Alloc(s.ios[t].st.tried + {stream}))])
    else s
  }

  predicate CanRequeue(s: State, t: nat) {
    t in s.ios && IsUser(s.ios[t]) && s.ios[t].st.Alloc?
  }

  // A user write whose attempts all failed waits in the retry queue for a new round.
  function Requeue(s: State, t: nat): State
    requires CanRequeue(s, t)
  {
    s.(ios := s.ios[t := s.ios[t].(st := Alloc({}))])
  }

  predicate CanAppend(s: State, t: nat) {
    t in s.ios && s.ios[t].Task? && s.ios[t].st.Writing?
  }

  /** The device executes a zone append: the page goes to the device's write pointer
      and the address is reported back. */
  function Append(c: Config, s: State, t: nat): State
    requires WellFormed(c, s) && CanAppend(s, t)
  {
    var z := s.ios[t].st.zone;
    var zone := s.zones[z];
    s.(zones := s.zones[z := zone.(data := zone.data + [s.ios[t].data])],
       ios := s.ios[t := s.ios[t].(st := Landed(Pbid(z, |zone.data|)))])
  }

  // The zones once the copy at p is given up: no reverse entry, and one valid block less.
  function Released(zones: seq<Zone>, p: Pbid): (r: seq<Zone>)
    requires p.zone < |zones|
    ensures |r| == |zones|
  {
    var zone := zones[p.zone];
    zones[p.zone := zone.(rmap := zone.rmap - {p.off}, weight := zone.weight - 1)]
  }

  /** Removes block b from the mapping, its reverse entry and its zone's weight. */
  function Unmap(c: Config, s: State, b: nat): State
    requires WellFormed(c, s)
  {
    if b !in s.mapping then s
    else
      s.(mapping := s.mapping - {b}, zones := Released(s.zones, s.mapping[b]), valid := s.valid - 1)
  }

  predicate CanEndio(s: State, t: nat) {
    t in s.ios && s.ios[t].Task? && s.ios[t].st.Landed?
  }

  // The zone that received block b at offset off, once the write is complete.
  function LandZone(z: Zone, off: nat, b: nat): Zone {
    PutZone(z.(rmap := z.rmap[off := b], pending := z.pending - 1))
  }

  /** Second half of a write completion: binds the block to the address the device
      reported, leaves the tree, drops the task's own references and the zone's. */
  function Commit(c: Config, s: State, t: nat): State
    requires WellFormed(c, s) && CanEndio(s, t)
  {
    var io := s.ios[t];
    var p := io.st.at;
    var s1 := s.(mapping := s.mapping[io.blk := p],
                 zones := s.zones[p.zone := LandZone(s.zones[p.zone], p.off, io.blk)],
                 tree := s.tree - {io.blk});
    if io.kind.User? then
      s1.(ios := Release(s.ios[t := io.(st := Done)], t, 2), userInflight := s.userInflight - 1)
    else
      s1.(ios := s.ios[t := io.(st := Finishing, rc := io.rc - 1)])
  }

  /** Completion of an append, for a user write and for a GC write: the old copy is
      released, then the new one bound. */
  function Endio(c: Config, s: State, t: nat): State
    requires WellFormed(c, s) && CanEndio(s, t)
  {
    Commit(c, Unmap(c, s, s.ios[t].blk), t)
  }

  // ---------------------------------------------------------------------------- reads

  function Lookup(c: Config, s: State, r: nat, b: nat): State
    requires WellFormed(c, s)
  {
    if b !in s.mapping then s
    else
      var p := s.mapping[b];
      s.(ios := s.ios[r := Read(p, None)],
         zones := s.zones[p.zone := GetZone(s.zones[p.zone])],
         readInflight := s.readInflight + 1)
  }

  predicate CanReadMedia(s: State, r: nat) {
    r in s.ios && s.ios[r].Read? && s.ios[r].result.None?
  }

  function ReadMedia(c: Config, s: State, r: nat): State
    requires WellFormed(c, s) && CanReadMedia(s, r)
  {
    var p := s.ios[r].from;
    s.(ios := s.ios[r := s.ios[r].(result := Some(s.zones[p.zone].data[p.off]))])
  }

  predicate CanReadEndio(s: State, r: nat) {
    r in s.ios && s.ios[r].Read? && s.ios[r].result.Some?
  }

  function ReadEndio(c: Config, s: State, r: nat): State
    requires WellFormed(c, s) && CanReadEndio(s, r)
  {
    var z := s.ios[r].from.zone;
    s.(ios := s.ios - {r}, zones := s.zones[z := PutZone(s.zones[z])], readInflight := s.readInflight - 1)
  }

  // ------------------------------------------------------------------ garbage collector

  // A victim: a zone of the full list with a block to win and the least weight in the list.
  ghost predicate IsVictim(c: Config, s: State, z: nat)
    requires WellFormed(c, s)
  {
    && z in s.full
    && z < c.zones
    && s.zones[z].weight < c.cap
    && forall i :: 0 <= i < |s.full| ==> s.zones[z].weight <= s.zones[s.full[i]].weight
  }

  function Select(c: Config, s: State, z: nat): State
    requires |s.zones| == c.zones && z < c.zones
  {
    s.(full := Without(s.full, z),
       zones := s.zones[z := GetZone(s.zones[z]).(phase := Gc)],
       gc := Some(Scan(z, 0, true)))
  }

  predicate CanVisit(c: Config, s: State) {
    && s.gc.Some? && s.gc.value.base && s.gc.value.zone < |s.zones|
    && s.gc.value.pos < s.zones[s.gc.value.zone].wp
  }

  /** One turn of the collector's loop over the victim's reverse map: an unmapped entry
      is passed over, a mapped one gets a GC task of its own. */
  function Visit(c: Config, s: State, t: nat): State
    requires CanVisit(c, s)
  {
    var Scan(v, o, base) := s.gc.value;
    var s1 := s.(gc := Some(Scan(v, o + 1, base)));
    if o !in s.zones[v].rmap then s1
    else
      s1.(ios := s.ios[t := Task(Mover, s.zones[v].rmap[o], 0, Pbid(v, o), Reading, None, 1)],
          zones := s.zones[v := GetZone(s.zones[v])],
          gcInflight := s.gcInflight + 1)
  }

  predicate CanEndScan(c: Config, s: State) {
    && s.gc.Some? && s.gc.value.base && s.gc.value.zone < |s.zones|
    && s.zones[s.gc.value.zone].wp <= s.gc.value.pos
  }

  function EndScan(c: Config, s: State): State
    requires CanEndScan(c, s)
  {
    var v := s.gc.value.zone;
    s.(gc := Some(s.gc.value.(base := false)), zones := s.zones[v := PutZone(s.zones[v])])
  }

  predicate CanMoveRead(s: State, t: nat) {
    t in s.ios && IsMove(s.ios[t]) && s.ios[t].st.Reading?
  }

  function MoveRead(c: Config, s: State, t: nat): State
    requires WellFormed(c, s) && CanMoveRead(s, t)
  {
    var io := s.ios[t];
    s.(ios := s.ios[t := io.(st := ReadDone, data := s.zones[io.src.zone].data[io.src.off])])
  }

  predicate CanRecheck(s: State, t: nat) {
    t in s.ios && IsMove(s.ios[t]) && s.ios[t].st.Inserted?
  }

  // The block no longer lives where the GC task read it.
  predicate Stale(s: State, t: nat)
    requires t in s.ios && s.ios[t].Task?
  {
    !(s.ios[t].blk in s.mapping && s.mapping[s.ios[t].blk] == s.ios[t].src)
  }

  /** With the block's tree slot in hand, the GC task looks the block up again: if it
      still lives at the source the move goes on, otherwise the task is finished. */
  function Recheck(s: State, t: nat): State
    requires CanRecheck(s, t)
  {
    var io := s.ios[t];
    if Stale(s, t) then
      s.(ios := s.ios[t := io.(st := Finishing, rc := io.rc - 1)], tree := s.tree - {io.blk})
    else
      s.(ios := s.ios[t := io.(st := Alloc({}))])
  }

  predicate CanFinish(s: State, t: nat) {
    t in s.ios && IsMove(s.ios[t]) && s.ios[t].st.Finishing?
  }

  // Tail of the GC callback: free the page, drop the source zone and the task.
  function Finish(c: Config, s: State, t: nat): State
    requires WellFormed(c, s) && CanFinish(s, t)
  {
    var io := s.ios[t];
    var v := io.src.zone;
    s.(ios := Release(s.ios[t := io.(st := Done)], t, 1),
       zones := s.zones[v := PutZone(s.zones[v])],
       gcInflight := s.gcInflight - 1)
  }

  // ---------------------------------------------------------------------- zone worker

  // The worker has something to do for this zone.
  predicate Due(z: Zone) {
    (z.phase.ToFull? && z.cond.CondFull?) || (z.phase.Gc? && z.refs == 0 && z.cond.CondEmpty?)
  }

  predicate CanClose(s: State, z: nat) {
    z < |s.zones| && s.zones[z].phase.ToFull? && s.zones[z].cond.CondFull?
  }

  function Close(s: State, z: nat): State
    requires CanClose(s, z)
  {
    s.(zones := s.zones[z := s.zones[z].(phase := Full, cond := CondClosed)], full := s.full + [z])
  }

  predicate CanReset(s: State, z: nat) {
    z < |s.zones| && s.zones[z].phase.Gc? && s.zones[z].refs == 0 && s.zones[z].cond.CondEmpty?
  }

  function Reset(c: Config, s: State, z: nat): State
    requires CanReset(s, z)
  {
    s.(zones := s.zones[z := s.zones[z].(phase := Empty, cond := CondEmpty, wp := 0, rmap := map[], data := [])],
       empty := s.empty + [z],
       gc := None,
       allocable := s.allocable + c.cap)
  }

  // ----------------------------------------------------------------------------- the queues

  // t is being submitted and has not failed.
  predicate InTurn(q: Sched, t: nat) {
    t in q.turns && q.turns[t].Going?
  }

  function BeginTurn(q: Sched, t: nat): Sched {
    q.(turns := q.turns[t := Going({})])
  }

  // The submission of t has returned.
  function EndTurn(q: Sched, t: nat): Sched {
    q.(turns := q.turns - {t}, busy := if q.busy == Some(t) then None else q.busy)
  }

  function FailTurn(q: Sched, t: nat): Sched {
    q.(turns := q.turns[t := Failed])
  }

  // An attempt of t on one stream has succeeded, or failed as on the streams before it.
  function AfterAttempt(streams: nat, q: Sched, t: nat, stream: nat, ok: bool): Sched
    requires InTurn(q, t)
  {
    var failed := q.turns[t].failed + {stream};
    if ok then EndTurn(q, t)
    else if forall k: nat :: k < streams ==> k in failed then FailTurn(q, t)
    else q.(turns := q.turns[t := Going(failed)])
  }

  // A conflict sends a user write back to its queue and leaves a GC task with its host.
  function AfterConflict(q: Sched, t: nat, kind: Kind): Sched {
    if kind.User? then FailTurn(q, t) else EndTurn(q, t)
  }

  function Enqueue(q: Sched, t: nat): Sched {
    EndTurn(q, t).(pending := q.pending + [t])
  }

  predicate CanEnqueue(s: State, t: nat) {
    t in s.ios && IsUser(s.ios[t]) && t in s.sched.turns && s.sched.turns[t].Failed?
  }

  // The worker is between two tasks of its list, or has none.
  predicate WorkerFree(q: Sched) {
    q.busy.None?
  }

  function TakeWrites(q: Sched): Sched {
    q.(pass := Writes, batch := q.pending, pending := [])
  }

  function TakeCopies(q: Sched): Sched {
    q.(pass := Copies, batch := q.gcWrites, gcWrites := [])
  }

  function TakeNext(q: Sched): Sched
    requires q.batch != []
  {
    BeginTurn(q, q.batch[0]).(batch := q.batch[1..], busy := Some(q.batch[0]))
  }

  // -------------------------------------------------------------------------- the machine

  datatype Label =
    | LSubmit(t: nat, b: nat, d: Page)
    | LInsert(t: nat)
    | LResolve(t: nat)
    | LTryAlloc(t: nat, stream: nat)
    | LRequeue(t: nat)
    | LAppend(t: nat)
    | LEndio(t: nat)
    | LLookup(r: nat, b: nat)
    | LReadMedia(r: nat)
    | LReadEndio(r: nat)
    | LSelect(z: nat)
    | LVisit(t: nat)
    | LEndScan
    | LMoveRead(t: nat)
    | LRecheck(t: nat)
    | LFinish(t: nat)
    | LClose(z: nat)
    | LReset(z: nat)
    | LDiscard(b: nat)
    | LTakeWrites
    | LNext
    | LTakeCopies
    | LRest

  ghost predicate Enabled(c: Config, s: State, l: Label) {
    && WellFormed(c, s)
    && match l
       case LSubmit(t, b, _) => t !in s.ios && b < c.blocks
       case LInsert(t) => CanInsert(s, t) && InTurn(s.sched, t)
       case LResolve(t) => CanResolve(s, t) && InTurn(s.sched, t)
       case LTryAlloc(t, i) => CanAlloc(s, t, i) && InTurn(s.sched, t) && i !in s.sched.turns[t].failed
       case LRequeue(t) => CanEnqueue(s, t)
       case LAppend(t) => CanAppend(s, t)
       case LEndio(t) => CanEndio(s, t)
       case LLookup(r, b) => r !in s.ios && b < c.blocks
       case LReadMedia(r) => CanReadMedia(s, r)
       case LReadEndio(r) => CanReadEndio(s, r)
       case LSelect(z) => s.gc.None? && IsVictim(c, s, z)
       case LVisit(t) => t !in s.ios && CanVisit(c, s)
       case LEndScan => CanEndScan(c, s)
       case LMoveRead(t) => CanMoveRead(s, t)
       case LRecheck(t) => CanRecheck(s, t) && InTurn(s.sched, t)
       case LFinish(t) => CanFinish(s, t)
       case LClose(z) => CanClose(s, z)
       case LReset(z) => CanReset(s, z)
       case LDiscard(b) => b < c.blocks
       case LTakeWrites => s.sched.pass.Resting?
       case LNext => WorkerFree(s.sched) && s.sched.batch != []
       case LTakeCopies => s.sched.pass.Writes? && WorkerFree(s.sched) && s.sched.batch == []
       case LRest => s.sched.pass.Copies? && WorkerFree(s.sched) && s.sched.batch == []
  }

  // What the step makes of the queues.
  ghost function Queues(c: Config, s: State, l: Label): Sched {
    var q := s.sched;
    if !Enabled(c, s, l) then q else
    match l
    case LSubmit(t, _, _) => BeginTurn(q, t)
    case LResolve(t) => AfterConflict(q, t, s.ios[t].kind)
    case LTryAlloc(t, i) => AfterAttempt(c.streams, q, t, i, !Refused(c, s, t) && HasRoom(s, i))
    case LRequeue(t) => Enqueue(q, t)
    case LMoveRead(t) => q.(gcWrites := q.gcWrites + [t])
    case LRecheck(t) => if Stale(s, t) then EndTurn(q, t) else q
    case LTakeWrites => TakeWrites(q)
    case LNext => TakeNext(q)
    case LTakeCopies => TakeCopies(q)
    case LRest => q.(pass := Resting)
    case _ => q
  }

  /** The state after the step; a step that is not enabled changes nothing. */
  ghost function Apply(c: Config, s: State, l: Label): State {
    Effect(c, s, l).(sched := Queues(c, s, l))
  }

  // What the step makes of everything else.
  ghost function Effect(c: Config, s: State, l: Label): State {
    if !Enabled(c, s, l) then s else
    match l
    case LSubmit(t, b, d) => Submit(s, t, b, d)
    case LInsert(t) => Insert(c, s, t)
    case LResolve(t) => Resolve(c, s, t)
    case LTryAlloc(t, i) => TryAlloc(c, s, t, i)
    case LRequeue(t) => if CanRequeue(s, t) then Requeue(s, t) else s
    case LAppend(t) => Append(c, s, t)
    case LEndio(t) => Endio(c, s, t)
    case LLookup(r, b) => Lookup(c, s, r, b)
    case LReadMedia(r) => ReadMedia(c, s, r)
    case LReadEndio(r) => ReadEndio(c, s, r)
    case LSelect(z) => Select(c, s, z)
    case LVisit(t) => Visit(c, s, t)
    case LEndScan => EndScan(c, s)
    case LMoveRead(t) => MoveRead(c, s, t)
    case LRecheck(t) => Recheck(s, t)
    case LFinish(t) => Finish(c, s, t)
    case LClose(z) => Close(s, z)
    case LReset(z) => Reset(c, s, z)
    case LDiscard(b) => Unmap(c, s, b)
    case _ => s
  }

  // An all-empty device with every zone in the empty list.
  function Initial(c: Config): State {
    State(seq(c.zones, _ => Zone(Empty, CondEmpty, 0, 0, 0, 0, map[], [])),
          seq(c.zones, i => i), [], seq(c.streams, _ => None),
          map[], map[], map[], Sched([], [], Resting, [], None, map[]), None, c.zones * c.cap, 0, 0, 0, 0)
  }
}
