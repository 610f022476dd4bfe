/**
 * What every step does to the streams that tasks have tried in vain, to the tasks that are owed a
 * GC-flagged allocation, and to the victim's entries that the collector has still to see.
 */
module Owing {
  import opened Machine
  import opened Counting
  import opened Invariant
  import opened Frames
  import opened CollectorSteps
  import opened TreeSteps
  import opened MapSteps
  import opened ResetHalves
  import Tables

  // -------------------------------------------------------------------- streams tried in vain

  // Every task has tried no stream, or the same as before.
  ghost predicate TriedFrom(ios: map<nat, Io>, ios': map<nat, Io>) {
    forall t <- ios' :: ios'[t].Task? && ios'[t].st.Alloc? ==>
      ios'[t].st.tried == {} || (t in ios && ios[t].Task? && ios[t].st == ios'[t].st)
  }

  lemma TriedThrough(s: State, ios': map<nat, Io>)
    requires TriedStreams(s.ios, s.empty, s.active) && TriedFrom(s.ios, ios')
    ensures TriedStreams(ios', s.empty, s.active)
  {
    forall t | t in ios'
      ensures TriedOk(ios'[t], s.empty, s.active)
    {
      if t in s.ios { assert TriedOk(s.ios[t], s.empty, s.active); }
    }
  }

  lemma ReleaseTried(ios: map<nat, Io>, ios1: map<nat, Io>, h: nat, n: nat)
    requires TriedFrom(ios, ios1) && h in ios1 && ios1[h].Task?
    requires ios1[h].pendingGc.Some? ==> ios1[h].pendingGc.value in ios1 && ios1[ios1[h].pendingGc.value].Task?
    ensures TriedFrom(ios, Release(ios1, h, n))
  {
  }

  lemma InsertTried(c: Config, s: State, t: nat)
    requires CanInsert(s, t)
    requires s.ios[t].blk in s.tree ==> s.tree[s.ios[t].blk] in s.ios && s.ios[s.tree[s.ios[t].blk]].Task?
    ensures TriedFrom(s.ios, Insert(c, s, t).ios)
  {
  }

  lemma ResolveTried(c: Config, s: State, t: nat)
    requires WellFormed(c, s) && CanResolve(s, t)
    ensures TriedFrom(s.ios, Resolve(c, s, t).ios)
  {
    hide WellFormed, Release;
    var io, h := s.ios[t], s.ios[t].st.host;
    HostThere(c, s, t);
    HostThere(c, s, h);
    if io.kind.User? {
      ReleaseTried(s.ios, s.ios[t := io.(st := Init)], h, 1);
    } else {
      ReleaseTried(s.ios, Park(s.ios, t, h), h, 1);
    }
  }

  lemma EndTried(c: Config, s: State, t: nat)
    requires WellFormed(c, s) && t in s.ios
    ensures CanEndio(s, t) ==> TriedFrom(s.ios, Endio(c, s, t).ios)
    ensures CanFinish(s, t) ==> TriedFrom(s.ios, Finish(c, s, t).ios)
  {
    hide WellFormed, Release;
    if s.ios[t].Task? {
      var done := s.ios[t := s.ios[t].(st := Done)];
      HostThere(c, s, t);
      ReleaseTried(s.ios, done, t, 2);
      ReleaseTried(s.ios, done, t, 1);
      UnmapShape(c, s, s.ios[t].blk);
    }
  }

  lemma StepTriedFrom(c: Config, s: State, l: Label)
    requires WellFormed(c, s) && Enabled(c, s, l) && !l.LTryAlloc? && !l.LReset?
    ensures TriedFrom(s.ios, Effect(c, s, l).ios)
  {
    hide WellFormed, Release, Insert, Resolve, Endio, Finish;
    OwnersThere(c, s);
    match l
    case LInsert(t) => InsertTried(c, s, t);
    case LResolve(t) => ResolveTried(c, s, t);
    case LEndio(t) => EndTried(c, s, t);
    case LFinish(t) => EndTried(c, s, t);
    case _ =>
  }

  lemma StepTried(c: Config, s: State, l: Label)
    requires WellFormed(c, s) && Enabled(c, s, l) && !l.LTryAlloc? && !l.LReset?
    requires TriedStreams(s.ios, s.empty, s.active)
    ensures TriedStreams(Effect(c, s, l).ios, Effect(c, s, l).empty, Effect(c, s, l).active)
  {
    hide WellFormed, TriedStreams, TriedFrom, Effect, Enabled;
    SameStreams(c, s, l);
    StepTriedFrom(c, s, l);
    TriedThrough(s, Effect(c, s, l).ios);
  }

  lemma SameStreams(c: Config, s: State, l: Label)
    requires WellFormed(c, s) && Enabled(c, s, l) && !l.LTryAlloc? && !l.LReset?
    ensures Effect(c, s, l).empty == s.empty && Effect(c, s, l).active == s.active
    ensures Effect(c, s, l).allocable == s.allocable
  {
    hide WellFormed, Release;
  }

  lemma AttemptTried(c: Config, s: State, t: nat, k: nat)
    requires WellFormed(c, s) && CanAlloc(s, t, k) && TriedStreams(s.ios, s.empty, s.active)
    ensures var s' := TryAlloc(c, s, t, k); TriedStreams(s'.ios, s'.empty, s'.active)
  {
    assert |s.zones| == c.zones && (s.active[k].Some? ==> s.active[k].value < c.zones);
    assert s.empty != [] ==> s.empty[0] < c.zones;
    hide WellFormed, TakeZone;
    var s' := TryAlloc(c, s, t, k);
    forall u | u in s'.ios
      ensures TriedOk(s'.ios[u], s'.empty, s'.active)
    {
      assert u in s.ios && TriedOk(s.ios[u], s.empty, s.active);
    }
  }

  // ----------------------------------------------------------------- allocations still owed

  // The tasks that a GC-flagged allocation is owed.
  function Todo(ios: map<nat, Io>): set<nat> {
    Holders(ios, Owes)
  }

  lemma TodoUpdate(ios: map<nat, Io>, t: nat, io: Io)
    ensures Todo(ios[t := io]) == if Match(Owes, io) then Todo(ios) + {t} else Todo(ios) - {t}
    ensures Todo(ios - {t}) == Todo(ios) - {t}
    ensures t in Todo(ios) <==> t in ios && Match(Owes, ios[t])
  {
  }

  lemma ReleaseTodo(ios: map<nat, Io>, h: nat, n: nat)
    requires h in ios && ios[h].Task? && ParkLinks(ios) && (ios[h].rc <= n ==> ios[h].st.Done?)
    ensures Todo(Release(ios, h, n)) == Todo(ios)
  {
    hide Todo;
    var t := ios[h].(rc := ios[h].rc - n);
    TodoUpdate(ios, h, t);
    if t.rc <= 0 && t.kind.User? && t.pendingGc.Some? {
      var g := t.pendingGc.value;
      TodoUpdate(ios - {h}, g, ios[g].(st := Finishing));
      TodoUpdate(ios, g, ios[g]);
    }
  }

  // What the step of a GC task's or a writer's own does to the tasks owed.
  lemma InsertTodo(c: Config, s: State, t: nat)
    requires Inv(c, s) && CanInsert(s, t)
    ensures WellFormed(c, s) && Todo(Insert(c, s, t).ios) == Todo(s.ios)
  {
    hide Inv, WellFormed, Todo;
    InvShape(c, s);
    TaskFacts(c, s, t);
    var io := s.ios[t];
    if io.blk in s.tree {
      MeetsUser(c, s, t);
      var h := s.tree[io.blk];
      var host := s.ios[h].(rc := s.ios[h].rc + 1);
      TodoUpdate(s.ios, h, host);
      TodoUpdate(s.ios[h := host], t, io.(st := Conflict(h)));
      TodoUpdate(s.ios, t, io);
    } else {
      TodoUpdate(s.ios, t, Insert(c, s, t).ios[t]);
    }
  }

  // A GC task that parks hands what it is owed over to a host that has still to allocate.
  lemma ResolveTodo(c: Config, s: State, t: nat)
    requires Inv(c, s) && CanResolve(s, t)
    ensures WellFormed(c, s) && s.ios[t].st.host in s.ios && s.ios[s.ios[t].st.host].Task?
    ensures var h := s.ios[t].st.host;
            Todo(Resolve(c, s, t).ios)
              == if s.ios[t].kind.User? then Todo(s.ios)
                 else Todo(s.ios) - {t} + if s.ios[h].st.Alloc? then {h} else {}
    ensures s.ios[t].kind.Mover? ==> t in Todo(s.ios) && s.ios[t].st.host !in Todo(s.ios)
  {
    hide Inv, WellFormed, Release, Todo, RefsExact, TreeLinks, ConflictLinks, ParkLinks, Moves, Coverage, MapsInverse,
         LandedPages, LifeCycle, Counts, Totals, Reserve, TriedStreams, InRange, StatusOk;
    PartsMakeInv(c, s);
    ConflictFacts(c, s, t);
    var io, h := s.ios[t], s.ios[t].st.host;
    TodoUpdate(s.ios, t, io);
    TodoUpdate(s.ios, h, s.ios[h]);
    if io.kind.User? {
      var idle := io.(st := Init);
      DropConflict(s.ios, t, idle);
      UserLinks(s.ios, s.tree, t);
      LastRef(s.ios[t := idle], h, 1);
      TodoUpdate(s.ios, t, idle);
      ReleaseTodo(s.ios[t := idle], h, 1);
    } else {
      ParkRefs(s.ios, t, h);
      ParkTasks(s.ios, s.tree, t, h);
      LastRef(Park(s.ios, t, h), h, 1);
      var parked := s.ios[t := io.(st := Parked(h))];
      TodoUpdate(s.ios, t, io.(st := Parked(h)));
      TodoUpdate(parked, h, parked[h].(pendingGc := Some(t)));
      ReleaseTodo(Park(s.ios, t, h), h, 1);
    }
  }

  lemma EndioTodo(c: Config, s: State, t: nat)
    requires Inv(c, s) && CanEndio(s, t)
    ensures WellFormed(c, s) && Todo(Endio(c, s, t).ios) == Todo(s.ios)
  {
    hide Inv, WellFormed, Release, Todo, RefsExact, TreeLinks, ConflictLinks, ParkLinks, Moves, Coverage, MapsInverse,
         LandedPages, LifeCycle, Counts, Totals, Reserve, TriedStreams, InRange, StatusOk;
    PartsMakeInv(c, s);
    UnmapShape(c, s, s.ios[t].blk);
    TodoUpdate(s.ios, t, s.ios[t]);
    TodoUpdate(s.ios, t, Leaving(s.ios[t]));
    if s.ios[t].kind.User? {
      BindRefs(s.ios, t);
      BindLinks(s.ios, s.tree, t);
      LastRef(s.ios[t := Leaving(s.ios[t])], t, 2);
      ReleaseTodo(s.ios[t := Leaving(s.ios[t])], t, 2);
    }
  }

  lemma FinishTodo(c: Config, s: State, t: nat)
    requires Inv(c, s) && CanFinish(s, t)
    ensures WellFormed(c, s) && Todo(Finish(c, s, t).ios) == Todo(s.ios)
  {
    hide Inv, WellFormed, Release, Todo, RefsExact, TreeLinks, ConflictLinks, ParkLinks, Moves, Coverage, MapsInverse,
         LandedPages, LifeCycle, Counts, Totals, Reserve, TriedStreams, InRange, StatusOk;
    PartsMakeInv(c, s);
    var done := s.ios[t := s.ios[t].(st := Done)];
    TodoUpdate(s.ios, t, s.ios[t]);
    TodoUpdate(s.ios, t, done[t]);
    FinishRefs(s.ios, t);
    FinishLinks(s.ios, s.tree, t);
    LastRef(done, t, 1);
    ReleaseTodo(done, t, 1);
  }

  lemma StatusTodo(c: Config, s: State, t: nat, b: nat, d: Page)
    requires WellFormed(c, s)
    ensures t !in s.ios ==> Todo(Submit(s, t, b, d).ios) == Todo(s.ios)
    ensures CanRequeue(s, t) ==> Todo(Requeue(s, t).ios) == Todo(s.ios)
    ensures CanAppend(s, t) ==> Todo(Append(c, s, t).ios) == Todo(s.ios)
    ensures CanMoveRead(s, t) ==> Todo(MoveRead(c, s, t).ios) == Todo(s.ios)
    ensures CanRecheck(s, t) ==>
              Todo(Recheck(s, t).ios) == if Stale(s, t) then Todo(s.ios) - {t} else Todo(s.ios)
  {
    hide WellFormed, Todo;
    if t in s.ios { TodoUpdate(s.ios, t, s.ios[t]); }
    TodoUpdate(s.ios, t, Submit(s, t, b, d).ios[t]);
    if CanRequeue(s, t) { TodoUpdate(s.ios, t, Requeue(s, t).ios[t]); }
    if CanAppend(s, t) { TodoUpdate(s.ios, t, Append(c, s, t).ios[t]); }
    if CanMoveRead(s, t) { TodoUpdate(s.ios, t, MoveRead(c, s, t).ios[t]); }
    if CanRecheck(s, t) { TodoUpdate(s.ios, t, Recheck(s, t).ios[t]); }
    TodoGone(s.ios, t);
  }

  lemma TodoGone(ios: map<nat, Io>, t: nat)
    ensures t !in ios ==> t !in Todo(ios)
  {
  }

  lemma ReadTodo(c: Config, s: State, r: nat, b: nat)
    requires WellFormed(c, s)
    ensures r !in s.ios ==> Todo(Lookup(c, s, r, b).ios) == Todo(s.ios)
    ensures CanReadMedia(s, r) ==> Todo(ReadMedia(c, s, r).ios) == Todo(s.ios)
    ensures CanReadEndio(s, r) ==> Todo(ReadEndio(c, s, r).ios) == Todo(s.ios)
  {
    hide WellFormed, Todo;
    TodoGone(s.ios, r);
    if r in s.ios { TodoUpdate(s.ios, r, s.ios[r]); }
    if r !in s.ios && b in s.mapping { TodoUpdate(s.ios, r, Read(s.mapping[b], None)); }
    if CanReadMedia(s, r) { TodoUpdate(s.ios, r, ReadMedia(c, s, r).ios[r]); }
  }

  lemma VisitTodo(c: Config, s: State, t: nat)
    requires CanVisit(c, s) && t !in s.ios
    ensures Todo(Visit(c, s, t).ios)
            == if s.gc.value.pos in s.zones[s.gc.value.zone].rmap then Todo(s.ios) + {t} else Todo(s.ios)
    ensures t !in Todo(s.ios)
  {
    hide Todo;
    TodoGone(s.ios, t);
    if t in Visit(c, s, t).ios { TodoUpdate(s.ios, t, Visit(c, s, t).ios[t]); }
  }

  // What a step other than an attempt does to the tasks owed: most do nothing.
  ghost predicate TodoAfter(c: Config, s: State, l: Label, todo: set<nat>, todo': set<nat>)
    requires WellFormed(c, s) && Enabled(c, s, l)
  {
    match l
    case LVisit(t) =>
      todo' == if s.gc.value.pos in s.zones[s.gc.value.zone].rmap then todo + {t} else todo
    case LRecheck(t) => todo' == if Stale(s, t) then todo - {t} else todo
    case LResolve(t) =>
      (s.ios[t].kind.User? ==> todo' == todo)
      && (s.ios[t].kind.Mover? ==>
            && s.ios[t].st.host in s.ios && s.ios[s.ios[t].st.host].Task?
            && t in todo && s.ios[t].st.host !in todo
            && todo' == todo - {t} + if s.ios[s.ios[t].st.host].st.Alloc? then {s.ios[t].st.host} else {})
    case _ => todo' == todo
  }

  lemma StepTodo(c: Config, s: State, l: Label)
    requires Inv(c, s) && Enabled(c, s, l) && !l.LTryAlloc? && !l.LReset?
    ensures TodoAfter(c, s, l, Todo(s.ios), Todo(Effect(c, s, l).ios))
  {
    hide Inv, WellFormed, Todo, Insert, Resolve, Endio, Finish, Append, MoveRead, Recheck, Requeue, Submit, Lookup,
         ReadMedia, ReadEndio, Visit;
    InvShape(c, s);
    match l
    case LSubmit(t, b, d) => StatusTodo(c, s, t, b, d);
    case LRequeue(t) => StatusTodo(c, s, t, 0, 0);
    case LAppend(t) => StatusTodo(c, s, t, 0, 0);
    case LMoveRead(t) => StatusTodo(c, s, t, 0, 0);
    case LRecheck(t) => StatusTodo(c, s, t, 0, 0);
    case LLookup(r, b) => ReadTodo(c, s, r, b);
    case LReadMedia(r) => ReadTodo(c, s, r, 0);
    case LReadEndio(r) => ReadTodo(c, s, r, 0);
    case LInsert(t) => InsertTodo(c, s, t);
    case LResolve(t) => ResolveTodo(c, s, t);
    case LEndio(t) => EndioTodo(c, s, t);
    case LFinish(t) => FinishTodo(c, s, t);
    case LVisit(t) => VisitTodo(c, s, t);
    case _ =>
  }

  // The entries of the victim that the collector has still to visit.
  function Unseen(s: State): nat {
    if s.gc.Some? && s.gc.value.zone < |s.zones| then Unvisited(s.zones[s.gc.value.zone].rmap, s.gc.value.pos) else 0
  }

  lemma OwedIs(s: State)
    ensures Owed(s.zones, s.ios, s.gc) == |Todo(s.ios)| + Unseen(s)
  {
  }

  lemma SameUnseen(s: State, s': State)
    requires s'.gc.Some? == s.gc.Some? && |s'.zones| == |s.zones|
    requires s.gc.Some? ==> s'.gc.value.zone == s.gc.value.zone && s'.gc.value.pos == s.gc.value.pos
    requires s.gc.Some? && s.gc.value.zone < |s.zones| ==>
               s'.zones[s.gc.value.zone].rmap == s.zones[s.gc.value.zone].rmap
    ensures Unseen(s') == Unseen(s)
  {
  }

  lemma SameScan(c: Config, s: State, l: Label)
    requires WellFormed(c, s) && Enabled(c, s, l) && !l.LSelect? && !l.LReset? && !l.LVisit? && !l.LEndio?
    requires !l.LDiscard?
    ensures var s' := Apply(c, s, l);
            && s'.gc.Some? == s.gc.Some?
            && (s.gc.Some? ==> s'.gc.value.zone == s.gc.value.zone && s'.gc.value.pos == s.gc.value.pos)
  {
    hide WellFormed, Release, TryAlloc;
    if l.LTryAlloc? { AttemptScan(c, s, l.t, l.stream); }
  }

  lemma AttemptScan(c: Config, s: State, t: nat, k: nat)
    requires WellFormed(c, s) && CanAlloc(s, t, k)
    ensures TryAlloc(c, s, t, k).gc == s.gc && |TryAlloc(c, s, t, k).zones| == |s.zones|
  {
    hide TakeZone;
  }

  // A completion or a discard may take an entry away before the collector has seen it; nothing else does.
  lemma StepUnseen(c: Config, s: State, l: Label)
    requires Inv(c, s) && Enabled(c, s, l) && !l.LSelect? && !l.LReset? && !l.LVisit?
    ensures Unseen(Apply(c, s, l)) <= Unseen(s)
    ensures !l.LEndio? && !l.LDiscard? ==> Unseen(Apply(c, s, l)) == Unseen(s)
  {
    hide Inv, WellFormed, Apply, Enabled, Unseen, Endio, Unmap, Unvisited;
    InvShape(c, s);
    if l.LEndio? {
      EndioApplied(c, s, l);
      EndioUnseen(c, s, l.t);
    } else if l.LDiscard? {
      DiscardUnseen(c, s, l.b);
      DiscardApplied(c, s, l);
    } else {
      SameScan(c, s, l);
      Tables.OtherTables(c, s, l);
      SameUnseen(s, Apply(c, s, l));
    }
  }

  lemma EndioApplied(c: Config, s: State, l: Label)
    requires WellFormed(c, s) && Enabled(c, s, l) && l.LEndio?
    ensures CanEndio(s, l.t) && Unseen(Apply(c, s, l)) == Unseen(Endio(c, s, l.t))
  {
    hide WellFormed, Endio;
  }

  lemma DiscardApplied(c: Config, s: State, l: Label)
    requires WellFormed(c, s) && Enabled(c, s, l) && l.LDiscard?
    ensures Unseen(Apply(c, s, l)) == Unseen(Unmap(c, s, l.b))
  {
    hide WellFormed, Unmap;
  }

  lemma DiscardUnseen(c: Config, s: State, b: nat)
    requires WellFormed(c, s)
    ensures Unseen(Unmap(c, s, b)) <= Unseen(s)
  {
    hide Unvisited;
    if b in s.mapping && s.gc.Some? && s.mapping[b].zone == s.gc.value.zone {
      UnvisitedRemove(s.zones[s.gc.value.zone].rmap, s.gc.value.pos, s.mapping[b].off);
    }
  }

  lemma EndioUnseen(c: Config, s: State, t: nat)
    requires Inv(c, s) && CanEndio(s, t)
    ensures WellFormed(c, s) && Unseen(Endio(c, s, t)) <= Unseen(s)
  {
    hide Inv, WellFormed, Unmap, Unvisited, Release, PutZone;
    InvShape(c, s);
    LandedFacts(c, s, t);
    DiscardUnseen(c, s, s.ios[t].blk);
    UnmapShape(c, s, s.ios[t].blk);
    UnmapScan(c, s, s.ios[t].blk);
  }

  lemma UnmapScan(c: Config, s: State, b: nat)
    requires WellFormed(c, s)
    ensures Unmap(c, s, b).gc == s.gc && |Unmap(c, s, b).zones| == |s.zones|
  {
    hide WellFormed;
  }

  lemma VisitUnseen(c: Config, s: State, t: nat)
    requires CanVisit(c, s)
    ensures Unseen(Visit(c, s, t)) + Bit(s.gc.value.pos in s.zones[s.gc.value.zone].rmap) == Unseen(s)
  {
    UnvisitedStep(s.zones[s.gc.value.zone].rmap, s.gc.value.pos);
  }

  /** No step but a choice of a victim makes the allocations owed more. */
  lemma StepOwed(c: Config, s: State, l: Label)
    requires Inv(c, s) && Enabled(c, s, l) && !l.LTryAlloc? && !l.LSelect? && !l.LReset?
    ensures |Todo(Apply(c, s, l).ios)| + Unseen(Apply(c, s, l)) <= |Todo(s.ios)| + Unseen(s)
  {
    hide Inv, WellFormed, Todo, Unseen, Effect, Queues, Visit;
    InvShape(c, s);
    StepTodo(c, s, l);
    if l.LVisit? {
      VisitApplied(c, s, l);
      VisitUnseen(c, s, l.t);
      VisitTodo(c, s, l.t);
    } else {
      StepUnseen(c, s, l);
      hide Enabled;
    }
  }

  lemma VisitApplied(c: Config, s: State, l: Label)
    requires WellFormed(c, s) && Enabled(c, s, l) && l.LVisit?
    ensures CanVisit(c, s) && l.t !in s.ios
    ensures Apply(c, s, l).ios == Visit(c, s, l.t).ios && Unseen(Apply(c, s, l)) == Unseen(Visit(c, s, l.t))
  {
    hide WellFormed, Visit;
  }

  lemma Smaller(a: set<nat>, b: set<nat>)
    requires a <= b
    ensures |a| <= |b|
  {
    assert b == a + (b - a);
  }
}
