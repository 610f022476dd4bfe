/**
 * The reset in its two halves.  The worker takes a zone's GC flag away first, and only later lists
 * the zone and credits its blocks, under a lock that the collector's own test of the flag does not
 * take; everybody else goes on in between.  The machine makes the reset one step; here it is two,
 * and the question is what the collector and the worker must heed for no GC-flagged allocation to
 * run out of streams.
 */
module ResetHalves {
  import opened Machine

  // ------------------------------------------------------------------------- the two halves

  // The first half: the zone is empty and no longer under collection.
  function Unflagged(c: Config, s: State, z: nat): State
    requires CanReset(s, z)
  {
    s.(zones := s.zones[z := s.zones[z].(phase := Empty, cond := CondEmpty, wp := 0, rmap := map[], data := [])],
       gc := None)
  }

  // The second half: it is in the empty list, and its blocks can be allocated.
  function Credited(c: Config, s: State, z: nat): State {
    s.(empty := s.empty + [z], allocable := s.allocable + c.cap)
  }

  lemma Halves(c: Config, s: State, z: nat)
    requires CanReset(s, z)
    ensures Credited(c, Unflagged(c, s, z), z) == Reset(c, s, z)
  {
  }

  /** A device whose worker may be between the two halves: credit is the zone it has still to
      list.  The worker closes no zone before it has. */
  datatype Half = Half(s: State, credit: Option<nat>)

  datatype Step = Do(l: Label) | Unflag(z: nat) | Credit

  ghost predicate CanStep(c: Config, h: Half, e: Step) {
    match e
    case Do(l) =>
      Enabled(c, h.s, l) && !l.LReset? && (l.LClose? ==> h.credit.None?)
    case Unflag(z) => h.credit.None? && CanReset(h.s, z)
    case Credit => h.credit.Some?
  }

  // A step that cannot be made changes nothing.
  ghost function After(c: Config, h: Half, e: Step): Half {
    if !CanStep(c, h, e) then h else
    match e
    case Do(l) => h.(s := Apply(c, h.s, l))
    case Unflag(z) => Half(Unflagged(c, h.s, z), Some(z))
    case Credit => Half(Credited(c, h.s, h.credit.value), None)
  }

  ghost function HalfRun(c: Config, h: Half, run: seq<Step>): Option<Half>
    decreases |run|
  {
    if run == [] then Some(h)
    else if CanStep(c, h, run[0]) then HalfRun(c, After(c, h, run[0]), run[1..])
    else None
  }

  // ------------------------------------------------------------- the device with its credit

  // A task as if it had not yet tried any stream.
  function Forgive(io: Io): Io {
    if io.Task? && io.st.Alloc? then io.(st := Alloc({})) else io
  }

  function ForgiveAll(ios: map<nat, Io>): (r: map<nat, Io>)
    ensures r.Keys == ios.Keys
  {
    map t | t in ios :: Forgive(ios[t])
  }

  // The state with the credit already given and no stream tried.
  function Whole(c: Config, s: State, z: nat): State {
    Credited(c, s.(ios := ForgiveAll(s.ios)), z)
  }

  lemma ForgiveUpdate(ios: map<nat, Io>, t: nat, io: Io)
    ensures ForgiveAll(ios[t := io]) == ForgiveAll(ios)[t := Forgive(io)]
    ensures ForgiveAll(ios - {t}) == ForgiveAll(ios) - {t}
  {
  }

  lemma ForgiveRelease(ios: map<nat, Io>, h: nat, n: nat)
    requires h in ios && ios[h].Task?
    requires ios[h].pendingGc.Some? ==> ios[h].pendingGc.value in ios && ios[ios[h].pendingGc.value].Task?
    ensures Release(ForgiveAll(ios), h, n) == ForgiveAll(Release(ios, h, n))
  {
    var t := ios[h].(rc := ios[h].rc - n);
    ForgiveUpdate(ios, h, t);
    if t.rc <= 0 && t.kind.User? && t.pendingGc.Some? {
      var g := t.pendingGc.value;
      ForgiveUpdate(ios - {h}, g, ios[g].(st := Finishing));
    }
  }

  lemma ForgiveInRange(c: Config, zones: seq<Zone>, ios: map<nat, Io>)
    ensures InRange(c, zones, ForgiveAll(ios)) <==> InRange(c, zones, ios)
  {
    if |zones| == c.zones {
      forall t | t in ios
        ensures IoInRange(c, zones, ForgiveAll(ios), ForgiveAll(ios)[t]) <==> IoInRange(c, zones, ios, ios[t])
      {
      }
    }
  }

  lemma WholeShape(c: Config, s: State, z: nat)
    requires z < c.zones
    ensures WellFormed(c, Whole(c, s, z)) <==> WellFormed(c, s)
  {
    ForgiveInRange(c, s.zones, s.ios);
    hide InRange;
    assert forall i :: 0 <= i < |s.empty| ==> (s.empty + [z])[i] == s.empty[i];
  }

  // ------------------------------------------------- every step but an attempt knows no credit

  lemma ForgiveAt(ios: map<nat, Io>)
    ensures forall t <- ios :: ForgiveAll(ios)[t] == Forgive(ios[t])
  {
  }

  lemma CommuteStatus(c: Config, s: State, z: nat, t: nat, b: nat, d: Page)
    requires WellFormed(c, s) && WellFormed(c, Whole(c, s, z))
    ensures var w := Whole(c, s, z);
            && Submit(w, t, b, d) == Whole(c, Submit(s, t, b, d), z)
            && (CanRequeue(s, t) <==> CanRequeue(w, t)) && (CanEnqueue(s, t) <==> CanEnqueue(w, t))
            && (CanRequeue(s, t) ==> Requeue(w, t) == Whole(c, Requeue(s, t), z))
            && (CanAppend(s, t) ==> CanAppend(w, t) && Append(c, w, t) == Whole(c, Append(c, s, t), z))
  {
    hide WellFormed, ForgiveAll;
    ForgiveAt(s.ios);
    ForgiveUpdate(s.ios, t, Submit(s, t, b, d).ios[t]);
    if CanRequeue(s, t) { ForgiveUpdate(s.ios, t, Requeue(s, t).ios[t]); }
    if CanAppend(s, t) { ForgiveUpdate(s.ios, t, Append(c, s, t).ios[t]); }
  }

  lemma CommuteCopy(c: Config, s: State, z: nat, t: nat)
    requires WellFormed(c, s) && WellFormed(c, Whole(c, s, z))
    ensures var w := Whole(c, s, z);
            && (CanMoveRead(s, t) ==> CanMoveRead(w, t) && MoveRead(c, w, t) == Whole(c, MoveRead(c, s, t), z))
            && (CanRecheck(s, t) ==> CanRecheck(w, t) && Stale(w, t) == Stale(s, t)
                                     && Recheck(w, t) == Whole(c, Recheck(s, t), z))
  {
    hide WellFormed, ForgiveAll;
    ForgiveAt(s.ios);
    if CanMoveRead(s, t) { ForgiveUpdate(s.ios, t, MoveRead(c, s, t).ios[t]); }
    if CanRecheck(s, t) { ForgiveUpdate(s.ios, t, Recheck(s, t).ios[t]); }
  }

  lemma CommuteRead(c: Config, s: State, z: nat, r: nat, b: nat)
    requires WellFormed(c, s) && WellFormed(c, Whole(c, s, z))
    ensures var w := Whole(c, s, z);
            && Lookup(c, w, r, b) == Whole(c, Lookup(c, s, r, b), z)
            && (CanReadMedia(s, r) ==> CanReadMedia(w, r) && ReadMedia(c, w, r) == Whole(c, ReadMedia(c, s, r), z))
            && (CanReadEndio(s, r) ==> CanReadEndio(w, r) && ReadEndio(c, w, r) == Whole(c, ReadEndio(c, s, r), z))
  {
    hide WellFormed, ForgiveAll;
    ForgiveAt(s.ios);
    if b in s.mapping { ForgiveUpdate(s.ios, r, Read(s.mapping[b], None)); }
    if CanReadMedia(s, r) { ForgiveUpdate(s.ios, r, ReadMedia(c, s, r).ios[r]); }
    if CanReadEndio(s, r) { ForgiveUpdate(s.ios, r, s.ios[r]); }
  }

  lemma CommuteInsert(c: Config, s: State, z: nat, t: nat)
    requires WellFormed(c, s) && CanInsert(s, t)
    requires s.ios[t].blk in s.tree ==> s.tree[s.ios[t].blk] in s.ios && s.ios[s.tree[s.ios[t].blk]].Task?
    ensures var w := Whole(c, s, z);
            && CanInsert(w, t) && (w.ios[t].blk in w.tree ==>
                                     w.tree[w.ios[t].blk] in w.ios && w.ios[w.tree[w.ios[t].blk]].Task?)
            && Insert(c, w, t) == Whole(c, Insert(c, s, t), z)
  {
    hide WellFormed, ForgiveAll;
    ForgiveAt(s.ios);
    var io := s.ios[t];
    if io.blk in s.tree {
      CommuteMeet(c, s, z, t);
    } else {
      ForgiveUpdate(s.ios, t, Insert(c, s, t).ios[t]);
    }
  }

  lemma CommuteMeet(c: Config, s: State, z: nat, t: nat)
    requires CanInsert(s, t) && s.ios[t].blk in s.tree
    requires s.tree[s.ios[t].blk] in s.ios && s.ios[s.tree[s.ios[t].blk]].Task?
    ensures var w := Whole(c, s, z);
            && CanInsert(w, t) && w.ios[t].blk in w.tree
            && w.tree[w.ios[t].blk] in w.ios && w.ios[w.tree[w.ios[t].blk]].Task?
            && Insert(c, w, t) == Whole(c, Insert(c, s, t), z)
  {
    hide ForgiveAll;
    ForgiveAt(s.ios);
    var h := s.tree[s.ios[t].blk];
    var host := s.ios[h].(rc := s.ios[h].rc + 1);
    ForgiveUpdate(s.ios, h, host);
    ForgiveUpdate(s.ios[h := host], t, s.ios[t].(st := Conflict(h)));
  }

  lemma OwnersThere(c: Config, s: State)
    requires WellFormed(c, s)
    ensures |s.zones| == c.zones && forall b <- s.tree :: s.tree[b] in s.ios && s.ios[s.tree[b]].Task?
  {
  }

  // Whom a conflicting task met, and the GC task that a task may carry, are there.
  lemma HostThere(c: Config, s: State, t: nat)
    requires WellFormed(c, s) && t in s.ios && s.ios[t].Task?
    ensures s.ios[t].st.Conflict? ==> s.ios[t].st.host in s.ios && s.ios[s.ios[t].st.host].Task?
    ensures s.ios[t].pendingGc.Some? ==>
              s.ios[t].pendingGc.value in s.ios && s.ios[s.ios[t].pendingGc.value].Task?
  {
    assert IoInRange(c, s.zones, s.ios, s.ios[t]);
  }

  lemma CommuteResolve(c: Config, s: State, z: nat, t: nat)
    requires WellFormed(c, s) && WellFormed(c, Whole(c, s, z)) && CanResolve(s, t)
    ensures var w := Whole(c, s, z); CanResolve(w, t) && Resolve(c, w, t) == Whole(c, Resolve(c, s, t), z)
  {
    hide WellFormed, ForgiveAll, Release;
    ForgiveAt(s.ios);
    var io, h := s.ios[t], s.ios[t].st.host;
    HostThere(c, s, t);
    HostThere(c, s, h);
    if io.kind.User? {
      var idle := s.ios[t := io.(st := Init)];
      ForgiveUpdate(s.ios, t, io.(st := Init));
      ForgiveRelease(idle, h, 1);
    } else {
      var parked := s.ios[t := io.(st := Parked(h))];
      var carrying := parked[h := parked[h].(pendingGc := Some(t))];
      ForgiveUpdate(s.ios, t, io.(st := Parked(h)));
      ForgiveAt(parked);
      ForgiveUpdate(parked, h, parked[h].(pendingGc := Some(t)));
      ForgiveRelease(carrying, h, 1);
    }
  }

  lemma CommuteEndio(c: Config, s: State, z: nat, t: nat)
    requires WellFormed(c, s) && WellFormed(c, Whole(c, s, z)) && CanEndio(s, t)
    ensures var w := Whole(c, s, z); CanEndio(w, t) && Endio(c, w, t) == Whole(c, Endio(c, s, t), z)
  {
    hide WellFormed, Whole, Unmap, Commit;
    WholeIos(c, s, z, t);
    OwnersThere(c, s);
    CommuteZone(c, s, z, s.ios[t].blk);
    UnmapShape(c, s, s.ios[t].blk);
    UnmapShape(c, Whole(c, s, z), s.ios[t].blk);
    CommuteCommit(c, Unmap(c, s, s.ios[t].blk), z, t);
  }

  lemma WholeIos(c: Config, s: State, z: nat, t: nat)
    requires t in s.ios && s.ios[t].Task?
    ensures t in Whole(c, s, z).ios && Whole(c, s, z).ios[t].Task? && Whole(c, s, z).ios[t].blk == s.ios[t].blk
    ensures CanEndio(s, t) ==> CanEndio(Whole(c, s, z), t)
  {
  }

  lemma UnmapShape(c: Config, s: State, b: nat)
    requires WellFormed(c, s)
    ensures WellFormed(c, Unmap(c, s, b)) && Unmap(c, s, b).ios == s.ios
  {
    if b in s.mapping {
      var s' := Unmap(c, s, b);
      assert |s'.zones| == |s.zones| && forall z :: 0 <= z < |s.zones| ==> s'.zones[z].data == s.zones[z].data;
      forall t | t in s.ios
        ensures IoInRange(c, s'.zones, s.ios, s.ios[t])
      {
        assert IoInRange(c, s.zones, s.ios, s.ios[t]);
      }
    }
  }

  lemma CommuteCommit(c: Config, s: State, z: nat, t: nat)
    requires WellFormed(c, s) && WellFormed(c, Whole(c, s, z)) && CanEndio(s, t)
    ensures var w := Whole(c, s, z); CanEndio(w, t) && Commit(c, w, t) == Whole(c, Commit(c, s, t), z)
  {
    hide WellFormed, ForgiveAll, Release, LandZone;
    ForgiveAt(s.ios);
    var io := s.ios[t];
    HostThere(c, s, t);
    if io.kind.User? {
      ForgiveUpdate(s.ios, t, io.(st := Done));
      ForgiveRelease(s.ios[t := io.(st := Done)], t, 2);
    } else {
      ForgiveUpdate(s.ios, t, io.(st := Finishing, rc := io.rc - 1));
    }
  }

  lemma CommuteFinish(c: Config, s: State, z: nat, t: nat)
    requires WellFormed(c, s) && WellFormed(c, Whole(c, s, z)) && CanFinish(s, t)
    ensures var w := Whole(c, s, z); CanFinish(w, t) && Finish(c, w, t) == Whole(c, Finish(c, s, t), z)
  {
    hide WellFormed, ForgiveAll, Release, PutZone;
    ForgiveAt(s.ios);
    var io := s.ios[t];
    HostThere(c, s, t);
    ForgiveUpdate(s.ios, t, io.(st := Done));
    ForgiveRelease(s.ios[t := io.(st := Done)], t, 1);
  }

  lemma CommuteVisit(c: Config, s: State, z: nat, t: nat)
    requires CanVisit(c, s)
    ensures var w := Whole(c, s, z); CanVisit(c, w) && Visit(c, w, t) == Whole(c, Visit(c, s, t), z)
  {
    hide ForgiveAll;
    if t in Visit(c, s, t).ios { ForgiveUpdate(s.ios, t, Visit(c, s, t).ios[t]); }
  }

  lemma CommuteZone(c: Config, s: State, z: nat, v: nat)
    requires WellFormed(c, s) && WellFormed(c, Whole(c, s, z)) && |s.zones| == c.zones
    ensures var w := Whole(c, s, z);
            && (IsVictim(c, s, v) ==> IsVictim(c, w, v) && Select(c, w, v) == Whole(c, Select(c, s, v), z))
            && (CanEndScan(c, s) ==> CanEndScan(c, w) && EndScan(c, w) == Whole(c, EndScan(c, s), z))
            && (CanClose(s, v) ==> CanClose(w, v) && Close(w, v) == Whole(c, Close(s, v), z))
            && Unmap(c, w, v) == Whole(c, Unmap(c, s, v), z)
  {
    hide WellFormed, ForgiveAll;
  }

  /** Given at once or later, the credit makes no difference to any step but an attempt to
      allocate. */
  lemma Commute(c: Config, s: State, z: nat, l: Label)
    requires WellFormed(c, s) && Enabled(c, s, l) && !l.LTryAlloc? && !l.LReset? && z < c.zones
    ensures WellFormed(c, Whole(c, s, z)) && Enabled(c, Whole(c, s, z), l)
    ensures Apply(c, Whole(c, s, z), l) == Whole(c, Apply(c, s, l), z)
  {
    hide WellFormed;
    WholeShape(c, s, z);
    EnabledWhole(c, s, z, l);
    EffectWhole(c, s, z, l);
    QueuesWhole(c, s, z, l);
    hide Enabled, Effect, Queues, ForgiveAll;
  }

  lemma EnabledWhole(c: Config, s: State, z: nat, l: Label)
    requires WellFormed(c, s) && WellFormed(c, Whole(c, s, z)) && Enabled(c, s, l) && !l.LTryAlloc? && !l.LReset?
    ensures Enabled(c, Whole(c, s, z), l)
  {
    hide WellFormed, ForgiveAll;
    ForgiveAt(s.ios);
  }

  lemma QueuesWhole(c: Config, s: State, z: nat, l: Label)
    requires WellFormed(c, s) && WellFormed(c, Whole(c, s, z)) && !l.LTryAlloc?
    requires Enabled(c, s, l) && Enabled(c, Whole(c, s, z), l)
    ensures Queues(c, Whole(c, s, z), l) == Queues(c, s, l)
  {
    hide WellFormed, ForgiveAll;
    ForgiveAt(s.ios);
  }

  lemma EffectWhole(c: Config, s: State, z: nat, l: Label)
    requires WellFormed(c, s) && WellFormed(c, Whole(c, s, z)) && !l.LTryAlloc? && !l.LReset?
    requires Enabled(c, s, l) && Enabled(c, Whole(c, s, z), l)
    ensures Effect(c, Whole(c, s, z), l) == Whole(c, Effect(c, s, l), z)
  {
    hide WellFormed, Whole, Submit, Insert, Resolve, Requeue, Append, Endio, Lookup, ReadMedia, ReadEndio, Select,
         Visit, EndScan, MoveRead, Recheck, Finish, Close, Unmap;
    OwnersThere(c, s);
    match l
    case LSubmit(t, b, d) => CommuteStatus(c, s, z, t, b, d);
    case LRequeue(t) => CommuteStatus(c, s, z, t, 0, 0);
    case LAppend(t) => CommuteStatus(c, s, z, t, 0, 0);
    case LMoveRead(t) => CommuteCopy(c, s, z, t);
    case LRecheck(t) => CommuteCopy(c, s, z, t);
    case LLookup(r, b) => CommuteRead(c, s, z, r, b);
    case LReadMedia(r) => CommuteRead(c, s, z, r, 0);
    case LReadEndio(r) => CommuteRead(c, s, z, r, 0);
    case LInsert(t) => CommuteInsert(c, s, z, t);
    case LResolve(t) => CommuteResolve(c, s, z, t);
    case LEndio(t) => CommuteEndio(c, s, z, t);
    case LFinish(t) => CommuteFinish(c, s, z, t);
    case LVisit(t) => CommuteVisit(c, s, z, t);
    case LSelect(v) => CommuteZone(c, s, z, v);
    case LEndScan => CommuteZone(c, s, z, 0);
    case LClose(v) => CommuteZone(c, s, z, v);
    case LDiscard(b) => CommuteZone(c, s, z, b);
    case _ =>
  }

  /** An attempt that succeeds takes the same block with the credit given; one that fails leaves
      the device with its credit as it was. */
  lemma CommuteAttempt(c: Config, s: State, z: nat, t: nat, k: nat)
    requires WellFormed(c, s) && CanAlloc(s, t, k) && WellFormed(c, Whole(c, s, z))
    ensures CanAlloc(Whole(c, s, z), t, k)
    ensures if !Refused(c, s, t) && HasRoom(s, k)
            then TryAlloc(c, Whole(c, s, z), t, k) == Whole(c, TryAlloc(c, s, t, k), z)
                 && !Refused(c, Whole(c, s, z), t) && HasRoom(Whole(c, s, z), k)
            else Whole(c, TryAlloc(c, s, t, k), z) == Whole(c, s, z)
  {
    assert |s.zones| == c.zones && (s.active[k].Some? ==> s.active[k].value < c.zones);
    assert s.empty != [] ==> s.empty[0] < c.zones;
    hide WellFormed, ForgiveAll, TakeZone;
    ForgiveAt(s.ios);
    if !Refused(c, s, t) && HasRoom(s, k) {
      TakenForgiven(c, s, z, t, k);
    } else if !Refused(c, s, t) && UsesReserve(s.ios[t]) {
      ForgiveUpdate(s.ios, t, TryAlloc(c, s, t, k).ios[t]);
      assert ForgiveAll(s.ios)[t := Forgive(s.ios[t])] == ForgiveAll(s.ios);
    }
  }

  lemma TakenForgiven(c: Config, s: State, z: nat, t: nat, k: nat)
    requires WellFormed(c, s) && CanAlloc(s, t, k) && WellFormed(c, Whole(c, s, z)) && CanAlloc(Whole(c, s, z), t, k)
    requires !Refused(c, s, t) && HasRoom(s, k)
    ensures TryAlloc(c, Whole(c, s, z), t, k) == Whole(c, TryAlloc(c, s, t, k), z)
    ensures !Refused(c, Whole(c, s, z), t) && HasRoom(Whole(c, s, z), k)
  {
    assert |s.zones| == c.zones && (s.active[k].Some? ==> s.active[k].value < c.zones);
    assert s.empty != [] ==> s.empty[0] < c.zones;
    hide WellFormed, ForgiveAll, TakeZone;
    ForgiveAt(s.ios);
    var w := Whole(c, s, z);
    if s.active[k].Some? {
      TakeCommutes(c, s, z, t, k);
    } else {
      OpenCommutes(c, s, z, k);
      TakeCommutes(c, Open(c, s, k), z, t, k);
    }
  }

  lemma OpenCommutes(c: Config, s: State, z: nat, k: nat)
    requires WellFormed(c, s) && WellFormed(c, Whole(c, s, z)) && k < |s.active| && s.empty != []
    ensures Open(c, Whole(c, s, z), k) == Whole(c, Open(c, s, k), z)
    ensures |Open(c, s, k).zones| == c.zones && Open(c, s, k).active[k] == Some(s.empty[0]) && s.empty[0] < c.zones
    ensures Open(c, s, k).ios == s.ios && |Open(c, s, k).active| == |s.active|
  {
    hide ForgiveAll;
    assert s.empty[0] < c.zones && |s.zones| == c.zones;
    hide WellFormed;
    assert (s.empty + [z])[1..] == s.empty[1..] + [z];
  }

  lemma TakeCommutes(c: Config, s: State, z: nat, t: nat, k: nat)
    requires |s.zones| == c.zones && CanAlloc(s, t, k) && s.active[k].Some? && s.active[k].value < c.zones
    ensures CanAlloc(Whole(c, s, z), t, k) && Take(c, Whole(c, s, z), t, k) == Whole(c, Take(c, s, t, k), z)
  {
    hide ForgiveAll, TakeZone;
    ForgiveAt(s.ios);
    ForgiveUpdate(s.ios, t, Take(c, s, t, k).ios[t]);
  }
}
