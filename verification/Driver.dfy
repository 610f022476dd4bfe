/**
The driver itself: one object whose methods change its fields in place, statement by
statement as the driver does, each proved to be a step, or a sequence of steps, of the
machine.  The driver's BUG_ON and panic checks appear as assertions.
*/
module Driver {
  import opened Machine
  import opened Counting
  import opened Invariant
  import opened Frames
  import opened CollectorSteps
  import opened ZoneSteps
  import opened TreeSteps
  import opened MapSteps
  import opened Runs
  import opened Guarantees
  import opened Placement
  import opened ExactlyOnce
  import opened Turns
  import Refinement

  datatype Outcome = ParkedOnWriter | Skipped | Dispatched

  // The step is one of task t's own submission.
  predicate OwnStep(l: Label, t: nat) {
    (l.LInsert? || l.LResolve? || l.LTryAlloc? || l.LRecheck? || l.LFinish?) && l.t == t
  }

  predicate OwnTurn(trace: seq<Label>, t: nat) {
    forall i :: 0 <= i < |trace| ==> OwnStep(trace[i], t)
  }

  /** Task t gets a block if it asks now: GC tasks and writes that carry one always pass the reserve,
      other writes while a zone's worth of blocks is left, and some stream has a zone or can open one. */
  predicate Admitted(c: Config, s: State, t: nat)
    requires t in s.ios && s.ios[t].Task?
  {
    && (s.ios[t].kind.Mover? || s.ios[t].pendingGc.Some? || c.cap <= s.allocable)
    && (s.empty != [] || exists k :: 0 <= k < |s.active| && s.active[k].Some?)
  }

  /** A write at rest is dispatched if it is submitted now: it has its block's tree slot, or nobody
      has it, and it gets a block. */
  predicate Passable(c: Config, s: State, t: nat)
    requires t in s.ios && s.ios[t].Task?
  {
    (s.ios[t].st.Alloc? || s.ios[t].blk !in s.tree) && Admitted(c, s, t)
  }

  /** The zone that an allocation for stream own takes its block from: the stream's zone, else the
      first empty one, and without either the active zone of the first stream that has one. */
  predicate LandsIn(s: State, own: nat, z: nat) {
    && own < |s.active|
    && if s.active[own].Some? then z == s.active[own].value
       else if s.empty != [] then z == s.empty[0]
       else exists k :: 0 <= k < |s.active| && s.active[k] == Some(z) && forall i :: 0 <= i < k ==> s.active[i].None?
  }

  // What is to become of a GC task that is submitted now.
  predicate Verdict(s: State, t: nat, outcome: Outcome)
    requires t in s.ios && s.ios[t].Task?
  {
    var io := s.ios[t];
    outcome == if io.blk in s.tree then ParkedOnWriter
               else if io.blk in s.mapping && s.mapping[io.blk] == io.src then Dispatched
               else Skipped
  }

  class Lbz {
    const c: Config
    var zones: seq<Zone>
    var empty: seq<nat>
    var emptyCount: nat
    var full: seq<nat>
    var fullCount: nat
    var active: seq<Option<nat>>
    var mapping: map<nat, Pbid>
    var ios: map<nat, Io>
    var tree: map<nat, nat>
    var pending: seq<nat>
    var pendingCount: nat
    var gcWrites: seq<nat>
    var gcWriteCount: nat
    // The list the retry worker has spliced off one of the queues.
    var batch: seq<nat>
    // The three lists again, with which of the queues the worker is at, the task it submits and
    // how far each submission has come.
    ghost var sched: Sched
    var gc: Option<Scan>
    var allocable: int
    var valid: int
    var userInflight: int
    var readInflight: int
    var gcInflight: int

    ghost function View(): State
      reads this
    {
      State(zones, empty, full, active, mapping, ios, tree, sched, gc, allocable, valid, userInflight, readInflight,
            gcInflight)
    }

    // The counters kept beside the lists are their lengths.
    ghost predicate Counted()
      reads this
    {
      emptyCount == |empty| && fullCount == |full| && pendingCount == |pending| && gcWriteCount == |gcWrites|
    }

    ghost predicate Listed()
      reads this
    {
      pending == sched.pending && gcWrites == sched.gcWrites && batch == sched.batch
    }

    ghost predicate Valid()
      reads this
    {
      Sound(c, View()) && Counted() && Listed()
    }

    constructor (config: Config)
      requires config.Valid()
      ensures c == config && Valid() && View() == Initial(config)
    {
      hide Sound;
      var init := Initial(config);
      c := config;
      zones, empty, full, active := init.zones, init.empty, init.full, init.active;
      emptyCount, fullCount := config.zones, 0;
      mapping, ios, tree, gc := map[], map[], map[], None;
      pending, gcWrites, batch := [], [], [];
      pendingCount, gcWriteCount := 0, 0;
      sched := init.sched;
      allocable, valid := init.allocable, 0;
      userInflight, readInflight, gcInflight := 0, 0, 0;
      new;
      InitialSound(config);
    }

    // ------------------------------------------------------------------------ zone helpers

    /** lbz_put_zone */
    method PutZone(z: nat)
      requires z < |zones|
      modifies this`zones
      ensures zones == old(zones)[z := Machine.PutZone(old(zones)[z])]
    {
      zones := zones[z := zones[z].(refs := zones[z].refs - 1)];
      if zones[z].refs == 0 {
        if zones[z].phase.Gc? {
          zones := zones[z := zones[z].(cond := CondEmpty)];
          return;
        }
      }
      if zones[z].phase.ToFull? && zones[z].pending == 0 {
        zones := zones[z := zones[z].(cond := CondFull)];
      }
    }

    /** lbz_zone_update_reverse_map followed by lbz_zone_release_global_res, as every path
        that gives up an old copy calls them. */
    method ReleaseOld(p: Pbid)
      requires p.zone < |zones|
      modifies this`zones, this`valid
      ensures zones == Released(old(zones), p) && valid == old(valid) - 1
    {
      var z := p.zone;
      zones := zones[z := zones[z].(rmap := zones[z].rmap - {p.off})];
      zones := zones[z := zones[z].(weight := zones[z].weight - 1)];
      valid := valid - 1;
    }

    /** task_put */
    method TaskPut(h: nat)
      requires h in ios && ios[h].Task? && Linked(ios, h)
      modifies this`ios
      ensures ios == Release(old(ios), h, 1)
    {
      var task := ios[h].(rc := ios[h].rc - 1);
      ios := ios[h := task];
      if task.rc <= 0 {
        ios := ios - {h};
        if task.kind.User? && task.pendingGc.Some? {
          var g := task.pendingGc.value;
          ios := ios[g := ios[g].(st := Finishing)];
        }
        assert ios == Release(old(ios), h, 1);
      }
    }

    // -------------------------------------------------------------------------- completions

    /** lbz_mapping_add, the release of the copy it replaces, and the new reverse entry. */
    method Remap(b: nat, p: Pbid)
      requires p.zone < |zones| && (b in mapping ==> mapping[b].zone < |zones|)
      modifies this`mapping, this`zones, this`valid
      ensures mapping == old(mapping)[b := p]
      ensures zones == Remapped(old(zones), old(mapping), b, p)
      ensures valid == old(valid) - Bit(b in old(mapping))
    {
      var oldPbid := if b in mapping then Some(mapping[b]) else None;
      mapping := mapping[b := p];
      if oldPbid.Some? {
        ReleaseOld(oldPbid.value);
      }
      zones := zones[p.zone := zones[p.zone].(rmap := zones[p.zone].rmap[p.off := b])];
    }

    /** lbz_mapping_remove and the release of the copy it gives up, as the body of
        lbz_nat_sit_tx_complete's loop performs them for one block. */
    method Discard(b: nat) returns (freed: bool)
      requires Valid() && b < c.blocks
      modifies this
      ensures Valid() && WellFormed(c, old(View())) && View() == Unmap(c, old(View()), b)
      ensures freed <==> b in old(mapping)
    {
      hide Sound, WellFormed, Released;
      ghost var s := View();
      UnmapStep(c, s, b);
      freed := b in mapping;
      if freed {
        var p := mapping[b];
        mapping := mapping - {b};
        ReleaseOld(p);
      }
      assert View() == Unmap(c, s, b);
    }

    /** lbz_zone_complete_write and the put that must follow it. */
    method CompleteWrite(z: nat)
      requires z < |zones|
      modifies this`zones
      ensures zones == old(zones)[z := Machine.PutZone(old(zones)[z].(pending := old(zones)[z].pending - 1))]
    {
      zones := zones[z := zones[z].(pending := zones[z].pending - 1)];
      PutZone(z);
    }

    /** del_task_from_tree and the two puts of a completed write. */
    method Retire(t: nat)
      requires t in ios && ios[t].Task? && ios[t].rc >= 2 && Linked(ios, t)
      modifies this`ios, this`tree
      ensures ios == Release(old(ios)[t := old(ios)[t].(st := Done)], t, 2)
      ensures tree == old(tree) - {old(ios)[t].blk}
    {
      hide Release;
      tree := tree - {ios[t].blk};
      ios := ios[t := ios[t].(st := Done)];
      ReleaseTwice(ios, t);
      TaskPut(t);
      TaskPut(t);
    }

    /** lbz_write_io_endio */
    method WriteEndio(t: nat)
      requires Valid() && CanEndio(View(), t) && ios[t].kind.User?
      modifies this
      ensures Valid() && WellFormed(c, old(View())) && View() == Endio(c, old(View()), t)
    {
      hide Sound, WellFormed, Endio, Completed, Linked;
      EndioFacts(c, View(), t);
      EndWrite(t);
    }

    // What the user handler does, whatever the state it is called in.
    method EndWrite(t: nat)
      requires CanComplete(View(), t) && ios[t].kind.User? && ios[t].rc >= 2
      modifies this`mapping, this`zones, this`valid, this`ios, this`tree, this`userInflight
      ensures View() == Completed(old(View()), t)
    {
      hide Release, Remapped, Machine.PutZone;
      var io := ios[t];
      var p := io.st.at;
      Remap(io.blk, p);
      Retire(t);
      CompleteWrite(p.zone);
      userInflight := userInflight - 1;
    }

    /** lbz_gc_write_endio with __gc_task_callback up to the point where the task leaves
        the tree. */
    method GcEndio(t: nat)
      requires Valid() && CanEndio(View(), t) && ios[t].kind.Mover?
      modifies this
      ensures Valid() && WellFormed(c, old(View())) && View() == Endio(c, old(View()), t)
    {
      hide Sound, WellFormed, Endio, Completed, GcCompleted;
      EndioFacts(c, View(), t);
      MoverFacts(c, View(), t);
      EndCopy(t);
    }

    // What the GC handler does, as long as its BUG_ON does not fire.
    method EndCopy(t: nat)
      requires CanComplete(View(), t) && ios[t].kind.Mover? && ios[t].src.zone < |zones|
      requires ios[t].blk in mapping ==> mapping[ios[t].blk] == ios[t].src
      modifies this`mapping, this`zones, this`valid, this`ios, this`tree
      ensures View() == Completed(old(View()), t).(zones := GcCompleted(old(View()), t))
    {
      hide CopyBound, Remapped, Release, Machine.PutZone;
      BindCopy(t);
      var io := ios[t];
      PutZone(io.st.at.zone);
      tree := tree - {io.blk};
      ios := ios[t := io.(st := Finishing, rc := io.rc - 1)];
    }

    // The write counted off, the block bound to its new address, and its source released.
    method BindCopy(t: nat)
      requires CanComplete(View(), t) && ios[t].kind.Mover? && ios[t].src.zone < |zones|
      requires ios[t].blk in mapping ==> mapping[ios[t].blk] == ios[t].src
      modifies this`mapping, this`zones, this`valid
      ensures mapping == old(mapping)[ios[t].blk := ios[t].st.at] && zones == CopyBound(old(View()), t)
      ensures valid == old(valid) - Bit(ios[t].blk in old(mapping))
    {
      hide Released;
      var io := ios[t];
      var p := io.st.at;
      zones := zones[p.zone := zones[p.zone].(pending := zones[p.zone].pending - 1)];
      zones := zones[p.zone := zones[p.zone].(rmap := zones[p.zone].rmap[p.off := io.blk])];
      var oldPbid := if io.blk in mapping then Some(mapping[io.blk]) else None;
      mapping := mapping[io.blk := p];
      // BUG_ON(old_pbid != LBZ_INVALID_PBID) unless it is the task's own source
      assert oldPbid != Some(io.src) ==> oldPbid == None;
      if oldPbid.Some? {
        ReleaseOld(io.src);
      }
    }

    // ------------------------------------------------------------------------------ reads

    /** __submit_read_io up to the device: for an unmapped block the request ends at once,
        with its pages as the caller passed them. */
    method SubmitRead(r: nat, b: nat) returns (mapped: bool)
      requires Valid() && r !in ios && b < c.blocks
      modifies this
      ensures Valid() && WellFormed(c, old(View())) && View() == Lookup(c, old(View()), r, b)
      ensures mapped <==> b in mapping
      ensures mapped ==> r in ios && ios[r] == Read(mapping[b], None)
    {
      hide Sound, WellFormed;
      ghost var s := View();
      LookupStep(c, s, r, b);
      mapped := b in mapping;
      if mapped {
        var p := mapping[b];
        zones := zones[p.zone := zones[p.zone].(refs := zones[p.zone].refs + 1)];
        ios := ios[r := Read(p, None)];
        readInflight := readInflight + 1;
      }
      assert View() == Lookup(c, s, r, b);
    }

    /** lbz_read_io_endio */
    method CompleteRead(r: nat) returns (data: Page)
      requires Valid() && CanReadEndio(View(), r)
      modifies this
      ensures Valid() && WellFormed(c, old(View())) && View() == ReadEndio(c, old(View()), r)
      ensures old(ios)[r].result == Some(data) && r !in ios
    {
      hide Sound, WellFormed, Machine.PutZone;
      ghost var s := View();
      ReadEndioStep(c, s, r);
      data := ios[r].result.value;
      var z := ios[r].from.zone;
      ios := ios - {r};
      PutZone(z);
      readInflight := readInflight - 1;
      assert View() == ReadEndio(c, s, r);
    }

    /** lbz_gc_read_endio without error: the page is in memory and the task at the end of its
        queue. */
    method CompleteGcRead(t: nat)
      requires Valid() && CanMoveRead(View(), t)
      modifies this
      ensures Valid() && WellFormed(c, old(View())) && Enabled(c, old(View()), LMoveRead(t))
      ensures View() == Apply(c, old(View()), LMoveRead(t))
      ensures gcWrites == old(gcWrites) + [t] && t in ios && ios[t].Task? && ios[t].st.ReadDone?
    {
      hide Sound, WellFormed;
      ghost var s := View();
      MoveReadStep(c, s, t);
      var io := ios[t];
      ios := ios[t := io.(st := ReadDone, data := zones[io.src.zone].data[io.src.off])];
      AddToGcWrites(t);
    }

    /** __add_task_to_gc_writes */
    method AddToGcWrites(t: nat)
      modifies this`gcWrites, this`gcWriteCount, this`sched
      ensures gcWrites == old(gcWrites) + [t] && gcWriteCount == old(gcWriteCount) + 1
      ensures sched == old(sched).(gcWrites := old(sched).gcWrites + [t])
    {
      gcWriteCount := gcWriteCount + 1;
      gcWrites := gcWrites + [t];
      sched := sched.(gcWrites := sched.gcWrites + [t]);
    }

    // ------------------------------------------------------------------------- allocation

    /** lbz_zone_alloc_res for one stream; ok is false for -EAGAIN. */
    method AllocRes(t: nat, stream: nat) returns (ok: bool)
      requires Valid() && CanAlloc(View(), t, stream) && InTurn(sched, t) && stream !in sched.turns[t].failed
      modifies this
      ensures Valid() && WellFormed(c, old(View())) && Enabled(c, old(View()), LTryAlloc(t, stream))
      ensures View() == Apply(c, old(View()), LTryAlloc(t, stream))
      ensures ok <==> !Refused(c, old(View()), t) && HasRoom(old(View()), stream)
      ensures t in ios && ios[t].Task?
      ensures ok ==> ios[t].st == Writing(if old(active)[stream].Some? then old(active)[stream].value
                                          else old(empty)[0])
      ensures ok ==> allocable == old(allocable) - 1
    {
      hide Sound, WellFormed, Release, Take, Open;
      ghost var s := View();
      TryAllocStep(c, s, t, stream);
      AllocRange(c, s, stream);
      AttemptOutcome(c, s, t, stream);
      ok := AllocFrom(t, stream);
      sched := AfterAttempt(c.streams, sched, t, stream, ok);
    }

    // What the attempt does to zones and task.
    method AllocFrom(t: nat, stream: nat) returns (ok: bool)
      requires WellFormed(c, View()) && CanAlloc(View(), t, stream) && Counted()
      modifies this`zones, this`empty, this`emptyCount, this`active, this`ios, this`allocable, this`valid
      ensures View() == TryAlloc(c, old(View()), t, stream) && Counted()
      ensures ok <==> !Refused(c, old(View()), t) && HasRoom(old(View()), stream)
    {
      hide WellFormed, Take, Open;
      AllocRange(c, View(), stream);
      var gcFlag := ios[t].kind.Mover? || ios[t].pendingGc.Some?;
      if !gcFlag && allocable < c.cap {
        return false;
      }
      if active[stream].None? {
        if empty == [] {
          if gcFlag { ios := ios[t := ios[t].(st := Alloc(ios[t].st.tried + {stream}))]; }
          return false;
        }
        OpenZone(stream);
      }
      TakeBlock(t, stream);
      ok := true;
    }

    // One block of the stream's active zone, which leaves its slot when that was the last.
    method TakeBlock(t: nat, stream: nat)
      requires |zones| == c.zones && CanAlloc(View(), t, stream)
      requires active[stream].Some? && active[stream].value < c.zones
      modifies this`zones, this`active, this`ios, this`allocable, this`valid
      ensures View() == Take(c, old(View()), t, stream)
    {
      var z := active[stream].value;
      zones := zones[z := zones[z].(wp := zones[z].wp + 1, weight := zones[z].weight + 1, refs := zones[z].refs + 1,
                                    pending := zones[z].pending + 1)];
      allocable, valid := allocable - 1, valid + 1;
      ios := ios[t := ios[t].(st := Writing(z))];
      if zones[z].wp == c.cap {
        zones := zones[z := zones[z].(phase := ToFull)];
        PutZone(z);
        active := active[stream := None];
      }
    }

    // The stream's new active zone, from the head of the empty list.
    method OpenZone(stream: nat)
      requires WellFormed(c, View()) && stream < |active| && empty != [] && Counted()
      modifies this`zones, this`empty, this`emptyCount, this`active
      ensures View() == Open(c, old(View()), stream) && Counted()
      ensures active[stream].Some? && active[stream].value < |zones|
      ensures active[stream].value == old(empty)[0] && empty == old(empty)[1..]
    {
      hide WellFormed;
      AllocRange(c, View(), stream);
      var z := empty[0];
      empty := empty[1..];
      emptyCount := emptyCount - 1;
      active := active[stream := Some(z)];
      zones := zones[z := zones[z].(refs := zones[z].refs + 1, phase := Active(stream), cond := CondOpen)];
    }

    /** The allocation of __submit_write_task and __submit_gc_task: the block's own stream
        first, then every other one.  A GC-flagged allocation cannot fail. */
    method AllocAnyStream(t: nat, own: nat) returns (ok: bool, ghost trace: seq<Label>)
      requires Valid() && CanAlloc(View(), t, own) && ios[t].st.tried == {}
      requires t in sched.turns && sched.turns[t] == Going({})
      modifies this
      ensures Valid() && Run(c, old(View()), trace) == Some(View()) && OwnTurn(trace, t)
      ensures t in ios && ios[t].Task?
      ensures ok <==> Admitted(c, old(View()), t)
      ensures ok ==> ios[t] == old(ios)[t].(st := ios[t].st) && ios[t].st.Writing?
                     && LandsIn(old(View()), own, ios[t].st.zone)
      ensures ok && old(active)[own].Some? ==> ios[t].st == Writing(old(active)[own].value)
      ensures ok && old(active)[own].None? && old(empty) != [] ==> ios[t].st == Writing(old(empty)[0])
      ensures !ok ==> View() == old(View()).(sched := FailTurn(old(sched), t)) && AtRest(FaceOf(ios, t))
      ensures UsesReserve(old(ios)[t]) ==> ok
      ensures sched == AfterTurn(old(sched), t, ok)
    {
      hide Sound, WellFormed, Release, TryAlloc, Enabled, Apply, Attempted, Admitted, LandsIn, AfterTurn, Refused;
      ghost var s := View();
      ok := AllocRes(t, own);
      trace := [LTryAlloc(t, own)];
      OneStep(c, s, LTryAlloc(t, own));
      ghost var tried: set<nat> := {own};
      FirstAttempt(c, s, t, own);
      var i := 0;
      while !ok && i < |active|
        invariant i <= |active| == c.streams && own < |active|
        invariant Valid() && Run(c, s, trace) == Some(View()) && OwnTurn(trace, t)
        invariant Attempted(c, s, View(), t, own, tried, ok)
        invariant !ok ==> forall k: nat :: k in tried <==> k < |active| && (k == own || k < i)
        decreases !ok, |active| - i
      {
        if i != own {
          ghost var before := View();
          MoreToTry(c, s, before, t, own, tried, i);
          ok := AllocRes(t, i);
          Snoc(c, s, trace, before, LTryAlloc(t, i));
          NextAttempt(c, s, before, t, own, tried, i);
          trace := trace + [LTryAlloc(t, i)];
          tried := tried + {i};
        }
        i := i + 1;
      }
      AllTried(c, s, View(), t, own, tried, ok);
    }

    // --------------------------------------------------------------------------- collector

    /** lbz_find_victim_zone: the lightest full zone, if it has a block to win and, in
        regular mode, at most one percent of its blocks are valid. */
    method FindVictim(emergency: bool) returns (victim: Option<nat>)
      requires Valid() && gc.None?
      modifies this
      ensures Valid() && WellFormed(c, old(View()))
      ensures forall i :: 0 <= i < |old(full)| ==> old(full)[i] < |old(zones)|
      ensures victim.None? <==> forall i :: 0 <= i < |old(full)| ==>
                old(zones)[old(full)[i]].weight >= c.cap
                || (!emergency && old(zones)[old(full)[i]].weight > c.cap / 100)
      ensures victim.None? ==> View() == old(View())
      ensures victim.Some? ==> IsVictim(c, old(View()), victim.value) && View() == Select(c, old(View()), victim.value)
      ensures victim.Some? ==> exists i :: 0 <= i < |old(full)| && old(full)[i] == victim.value
                                           && FirstLightest(old(zones), old(full), i)
      ensures victim.Some? ==> old(zones)[victim.value].weight < c.cap
      ensures victim.Some? ==> emergency || old(zones)[victim.value].weight <= c.cap / 100
    {
      hide Sound, WellFormed, Release;
      ghost var s := View();
      SoundShape(c, s);
      ListsInRange(c, s);
      if full == [] {
        return None;
      }
      var min := LightestFull();
      ghost var first :| 0 <= first < |full| && full[first] == min && FirstLightest(zones, full, first);
      if zones[min].weight >= c.cap || (!emergency && zones[min].weight > c.cap / 100) {
        return None;
      }
      SelectStep(c, s, min);
      TakeVictim(min);
      victim := Some(min);
    }

    method TakeVictim(z: nat)
      requires |zones| == c.zones && z < c.zones && z in full && Counted()
      modifies this`full, this`fullCount, this`zones, this`gc
      ensures View() == Select(c, old(View()), z) && Counted()
    {
      WithoutOne(full, z);
      full := Without(full, z);
      fullCount := fullCount - 1;
      zones := zones[z := zones[z].(refs := zones[z].refs + 1, phase := Gc)];
      gc := Some(Scan(z, 0, true));
    }

    method LightestFull() returns (min: nat)
      requires full != [] && forall i :: 0 <= i < |full| ==> full[i] < |zones|
      ensures min < |zones| && exists i :: 0 <= i < |full| && full[i] == min && FirstLightest(zones, full, i)
    {
      min := full[0];
      ghost var at := 0;
      var i := 1;
      while i < |full|
        invariant 0 <= at < i <= |full| && min == full[at]
        invariant forall j :: 0 <= j < at ==> zones[min].weight < zones[full[j]].weight
        invariant forall j :: at <= j < i ==> zones[min].weight <= zones[full[j]].weight
      {
        if zones[full[i]].weight < zones[min].weight { min, at := full[i], i; }
        i := i + 1;
      }
    }

    // An identity that no operation in flight has, as an allocator hands out.
    method NewTaskId() returns (t: nat)
      ensures t !in ios
    {
      t := 0;
      while t in ios
        invariant forall k: nat :: k < t ==> k in ios
        invariant t <= |ios|
        decreases |ios| - t
      {
        InitialSegment(ios, t + 1);
        t := t + 1;
      }
    }

    /** One turn of the loop in __gc_one_zone with lbz_submit_gc_to_iosched. */
    method VisitEntry(t: nat)
      requires Valid() && t !in ios && CanVisit(c, View())
      modifies this
      ensures Valid() && View() == Visit(c, old(View()), t)
    {
      hide Sound, WellFormed, Enabled, Apply, Visit;
      VisitStep(c, View(), t);
      IssueNext(t);
    }

    method IssueNext(t: nat)
      requires t !in ios && CanVisit(c, View())
      modifies this`zones, this`gcInflight, this`ios, this`gc
      ensures View() == Visit(c, old(View()), t)
    {
      var v, pos := gc.value.zone, gc.value.pos;
      if pos in zones[v].rmap {
        var blk := zones[v].rmap[pos];
        zones := zones[v := zones[v].(refs := zones[v].refs + 1)];
        gcInflight := gcInflight + 1;
        ios := ios[t := Task(Mover, blk, 0, Pbid(v, pos), Reading, None, 1)];
      }
      gc := Some(Scan(v, pos + 1, gc.value.base));
    }

    /** __gc_one_zone: every block still mapped into the victim gets its own GC task, and
        the collector's own reference is dropped at the end. */
    method GcOneZone() returns (ghost trace: seq<Label>)
      requires Valid() && gc.Some? && gc.value.base && gc.value.pos == 0
      modifies this
      ensures Valid() && Run(c, old(View()), trace) == Some(View())
      ensures mapping == old(mapping) && gc == Some(Scan(old(gc).value.zone, c.cap, false))
      ensures old(gc).value.zone < |old(zones)|
      ensures forall o <- old(zones)[old(gc).value.zone].rmap ::
                Issued(ios, old(gc).value.zone, o, old(zones)[old(gc).value.zone].rmap[o])
      ensures forall t <- old(ios) :: t in ios && ios[t] == old(ios)[t]
      ensures sched == old(sched) && WalkOnly(trace)
    {
      hide Sound, Release, Visit, WellFormed, Run, Enabled, Apply, Issued;
      ghost var s := View();
      ScanStart(c, s);
      var v := gc.value.zone;
      EmptyRun(c, s);
      trace := [];
      while gc.value.pos < zones[v].wp
        invariant Valid() && Run(c, s, trace) == Some(View()) && sched == s.sched
        invariant gc.Some? && gc.value.zone == v && gc.value.base && gc.value.pos <= c.cap
        invariant v < |zones| && zones[v].rmap == s.zones[v].rmap && mapping == s.mapping
        invariant forall t <- s.ios :: t in ios && ios[t] == s.ios[t]
        invariant forall o <- s.zones[v].rmap :: o < gc.value.pos ==> Issued(ios, v, o, s.zones[v].rmap[o])
        invariant forall i :: 0 <= i < |trace| ==> trace[i].LVisit?
        decreases c.cap - gc.value.pos
      {
        var t := NewTaskId();
        ghost var before := View();
        VisitStep(c, before, t);
        Snoc(c, s, trace, before, LVisit(t));
        VisitShape(c, before, t);
        VisitEntry(t);
        trace := trace + [LVisit(t)];
      }
      ghost var walked := View();
      EndScanStep(c, walked);
      Snoc(c, s, trace, walked, LEndScan);
      trace := trace + [LEndScan];
      PutZone(v);
      gc := Some(gc.value.(base := false));
      assert View() == EndScan(c, walked);
    }

    // ----------------------------------------------------------------------- task submission

    /** insert_task_to_tree */
    method InsertTask(t: nat) returns (conflict: bool)
      requires Valid() && CanInsert(View(), t) && InTurn(sched, t)
      modifies this
      ensures Valid() && WellFormed(c, old(View())) && Enabled(c, old(View()), LInsert(t))
      ensures View() == Apply(c, old(View()), LInsert(t)) && sched == old(sched) && |active| == |old(active)|
      ensures conflict <==> old(ios)[t].blk in old(tree)
      ensures t in ios && ios[t] == old(ios)[t].(st := ios[t].st, rc := ios[t].rc)
      ensures View() == Outside(old(View()), View())
      ensures ios[t].st == if conflict then Conflict(old(tree)[old(ios)[t].blk])
                           else if ios[t].kind.User? then Alloc({}) else Inserted
      ensures tree == if conflict then old(tree) else old(tree)[old(ios)[t].blk := t]
    {
      hide Sound, WellFormed, Release;
      ghost var s := View();
      InsertStep(c, s, t);
      var io := ios[t];
      conflict := io.blk in tree;
      if conflict {
        var h := tree[io.blk];
        ios := ios[h := ios[h].(rc := ios[h].rc + 1)];
        ios := ios[t := io.(st := Conflict(h))];
      } else {
        tree := tree[io.blk := t];
        ios := ios[t := io.(st := if io.kind.User? then Alloc({}) else Inserted, rc := io.rc + 1)];
      }
    }

    /** The conflict branches of __submit_write_task and __submit_gc_task. */
    method ResolveConflict(t: nat)
      requires Valid() && CanResolve(View(), t) && InTurn(sched, t)
      modifies this
      ensures Valid() && WellFormed(c, old(View())) && Enabled(c, old(View()), LResolve(t))
      ensures View() == Apply(c, old(View()), LResolve(t))
      ensures sched == AfterConflict(old(sched), t, old(ios)[t].kind)
      ensures if old(ios)[t].kind.User? then t in ios && ios[t] == old(ios)[t].(st := Init) else Carried(ios, t)
    {
      hide Sound, WellFormed, Release, Enabled, Apply;
      ghost var s := View();
      ResolveStep(c, s, t);
      var io := ios[t];
      var h := io.st.host;
      if io.kind.User? {
        ios := ios[t := io.(st := Init)];
      } else {
        ios := ios[t := io.(st := Parked(h))];
        ios := ios[h := ios[h].(pendingGc := Some(t))];
      }
      TaskPut(h);
      sched := AfterConflict(sched, t, io.kind);
    }

    /** The look-up that __submit_gc_task makes once it owns the block's tree slot. */
    method RecheckTask(t: nat) returns (stale: bool)
      requires Valid() && CanRecheck(View(), t) && InTurn(sched, t)
      modifies this
      ensures Valid() && WellFormed(c, old(View())) && Enabled(c, old(View()), LRecheck(t))
      ensures View() == Apply(c, old(View()), LRecheck(t)) && |active| == |old(active)|
      ensures stale <==> !(old(ios)[t].blk in mapping && mapping[old(ios)[t].blk] == old(ios)[t].src)
      ensures t in ios && ios[t] == old(ios)[t].(st := if stale then Finishing else Alloc({}), rc := ios[t].rc)
      ensures View() == Outside(old(View()), View())
      ensures sched == if stale then EndTurn(old(sched), t) else old(sched)
    {
      hide Sound, WellFormed, Enabled, Apply;
      ghost var s := View();
      RecheckStep(c, s, t);
      var io := ios[t];
      stale := io.blk !in mapping || mapping[io.blk] != io.src;
      if stale {
        tree := tree - {io.blk};
        ios := ios[t := io.(st := Finishing, rc := io.rc - 1)];
        sched := EndTurn(sched, t);
      } else {
        ios := ios[t := io.(st := Alloc({}))];
      }
    }

    /** The tail of __gc_task_callback. */
    method FinishTask(t: nat)
      requires Valid() && CanFinish(View(), t)
      modifies this
      ensures Valid() && WellFormed(c, old(View())) && View() == Finish(c, old(View()), t)
      ensures !(t in ios && IsMove(ios[t])) && sched == old(sched)
    {
      hide Sound, WellFormed, Release, Live;
      ghost var s := View();
      FinishStep(c, s, t);
      var v := ios[t].src.zone;
      PutZone(v);
      ios := ios[t := ios[t].(st := Done)];
      TaskPut(t);
      gcInflight := gcInflight - 1;
      NotLive(ios, t);
    }

    /** __submit_write_task, entered with a fresh task or with one queued for space: ok is
        false when it has to go back to the retry queue.  A write that carries a GC task is never
        sent back for space. */
    method SubmitWrite(t: nat, own: nat) returns (ok: bool, ghost trace: seq<Label>)
      requires Valid() && t in sched.turns && sched.turns[t] == Going({}) && AtRest(FaceOf(ios, t)) && own < |active|
      modifies this
      ensures Valid() && Run(c, old(View()), trace) == Some(View()) && OwnTurn(trace, t)
      ensures ok <==> Passable(c, old(View()), t)
      ensures t in ios && IsUser(ios[t]) && ios[t].blk == old(ios)[t].blk && ios[t].data == old(ios)[t].data
      ensures ok ==> ios[t].st.Writing? && LandsIn(old(View()), own, ios[t].st.zone)
      ensures !ok ==> AtRest(FaceOf(ios, t))
      ensures sched == AfterTurn(old(sched), t, ok)
      ensures old(ios)[t].st.Alloc? && old(ios)[t].pendingGc.Some? ==> ok
    {
      hide Sound, WellFormed, Release, Enabled, Apply, Run, Effect, LandsIn;
      ghost var s := View();
      EmptyRun(c, s);
      trace := [];
      if ios[t].st.Init? {
        var conflict := InsertTask(t);
        Snoc(c, s, trace, s, LInsert(t));
        trace := trace + [LInsert(t)];
        if conflict {
          ghost var s1 := View();
          ResolveConflict(t);
          Snoc(c, s, trace, s1, LResolve(t));
          return false, trace + [LResolve(t)];
        }
      }
      ghost var s2, rest := View(), [];
      SameAdmission(c, s, s2, t, own);
      ok, rest := AllocAnyStream(t, own);
      RunConcat(c, s, trace, s2, rest);
      trace := trace + rest;
    }

    /** __add_task_to_retry */
    method AddToRetry(t: nat)
      requires Valid() && t in sched.turns && sched.turns[t].Failed? && t in ios && IsUser(ios[t])
      modifies this
      ensures Valid() && WellFormed(c, old(View())) && Enabled(c, old(View()), LRequeue(t))
      ensures View() == Apply(c, old(View()), LRequeue(t)) && sched == Enqueue(old(sched), t)
      ensures pending == old(pending) + [t]
      ensures t in ios && ios[t] == old(ios)[t].(st := if old(ios)[t].st.Alloc? then Alloc({}) else old(ios)[t].st)
    {
      hide Sound, WellFormed, Enabled, Apply;
      ghost var s := View();
      RequeueStep(c, s, t);
      if ios[t].st.Alloc? {
        ios := ios[t := ios[t].(st := Alloc({}))];
      }
      sched := Enqueue(sched, t);
      pendingCount, pending := pendingCount + 1, pending + [t];
    }

    // The count of writes in flight and the new task, in its submitter's hand.
    method NewTask(t: nat, b: nat, d: Page)
      requires Valid() && t !in ios && b < c.blocks
      modifies this`ios, this`sched, this`userInflight
      ensures Valid() && WellFormed(c, old(View())) && Enabled(c, old(View()), LSubmit(t, b, d))
      ensures View() == Apply(c, old(View()), LSubmit(t, b, d)) && sched == BeginTurn(old(sched), t)
      ensures ios == old(ios)[t := Task(User, b, d, Pbid(0, 0), Init, None, 1)]
      ensures t !in old(sched).turns && old(sched).busy != Some(t)
    {
      hide Sound, WellFormed, Enabled, Apply;
      SubmitStep(c, View(), t, b, d);
      userInflight := userInflight + 1;
      ios := ios[t := Task(User, b, d, Pbid(0, 0), Init, None, 1)];
      sched := BeginTurn(sched, t);
    }

    /** The write branch of lbz_submit_io_to_iosched: a new task with the caller's block and page is
        dispatched at once, or waits at the end of the retry queue if its block has a writer or it
        gets no block.  An observer sees exactly one write more. */
    method SubmitUser(t: nat, b: nat, d: Page, own: nat) returns (ok: bool, ghost trace: seq<Label>)
      requires Valid() && t !in ios && b < c.blocks && own < |active|
      modifies this
      ensures Valid() && Run(c, old(View()), trace) == Some(View())
      ensures trace != [] && trace[0] == LSubmit(t, b, d)
      ensures forall i :: 1 <= i < |trace| ==> OwnStep(trace[i], t) || trace[i] == LRequeue(t)
      ensures OneMoreWrite(old(View()), View(), t, b, d)
      ensures t in ios && IsUser(ios[t]) && ios[t].blk == b && ios[t].data == d
      ensures mapping == old(mapping) && userInflight == old(userInflight) + 1
      ensures ok <==> b !in old(tree) && c.cap <= old(allocable)
                      && (old(empty) != [] || exists k :: 0 <= k < |old(active)| && old(active)[k].Some?)
      ensures ok ==> ios[t].st.Writing? && LandsIn(old(View()), own, ios[t].st.zone) && sched == old(sched)
      ensures !ok ==> sched == old(sched).(pending := old(pending) + [t]) && AtRest(FaceOf(ios, t))
    {
      hide Sound, WellFormed, Enabled, Apply, Run, LandsIn, OneMoreWrite, AllQuiet, Passable;
      ghost var s := View();
      NewTask(t, b, d);
      OneStep(c, s, LSubmit(t, b, d));
      ghost var s1, rest := View(), [];
      SameLanding(s, s1, own);
      FreshWrite(c, s, s1, t, b);
      TurnGone(s.sched, t);
      ok, rest := SubmitWrite(t, own);
      if !ok {
        ghost var s2 := View();
        AddToRetry(t);
        Snoc(c, s1, rest, s2, LRequeue(t));
        rest := rest + [LRequeue(t)];
      }
      trace := [LSubmit(t, b, d)] + rest;
      RunConcat(c, s, [LSubmit(t, b, d)], s1, rest);
      OwnIsQuiet(rest, t);
      SoundInv(c, s);
      SubmitRun(c, s, t, b, d, rest, View());
    }

    /** __submit_gc_task after the read, as the retry worker runs it to the end of one turn:
        park, skip or dispatch.  The dispatch cannot be refused. */
    method SubmitGc(t: nat, own: nat) returns (outcome: Outcome, ghost trace: seq<Label>)
      requires Valid() && t in sched.turns && sched.turns[t] == Going({}) && PageRead(FaceOf(ios, t)) && own < |active|
      modifies this
      ensures Valid() && Run(c, old(View()), trace) == Some(View()) && OwnTurn(trace, t)
      ensures Verdict(old(View()), t, outcome) && Ended(ios, t, outcome)
      ensures outcome.ParkedOnWriter? <==> old(ios)[t].blk in old(tree)
      ensures outcome.Dispatched? ==>
                old(ios)[t].blk in old(mapping) && old(mapping)[old(ios)[t].blk] == old(ios)[t].src
      ensures outcome.Dispatched? ==> LandsIn(old(View()), own, ios[t].st.zone)
      ensures sched == EndTurn(old(sched), t)
    {
      hide Sound, WellFormed, Release, Enabled, Apply, Run, Effect, LandsIn, Admitted;
      ghost var s := View();
      EmptyRun(c, s);
      var conflict := InsertTask(t);
      Snoc(c, s, [], s, LInsert(t));
      trace := [] + [LInsert(t)];
      ghost var s1 := View();
      if conflict {
        ResolveConflict(t);
        Snoc(c, s, trace, s1, LResolve(t));
        return ParkedOnWriter, trace + [LResolve(t)];
      }
      var stale := RecheckTask(t);
      Snoc(c, s, trace, s1, LRecheck(t));
      trace := trace + [LRecheck(t)];
      ghost var s2 := View();
      if stale {
        FinishIsStep(c, s2, t);
        FinishTask(t);
        Snoc(c, s, trace, s2, LFinish(t));
        return Skipped, trace + [LFinish(t)];
      }
      ghost var rest;
      var ok;
      SameAdmission(c, s, s2, t, own);
      ok, rest := AllocAnyStream(t, own);
      RunConcat(c, s, trace, s2, rest);
      return Dispatched, trace + rest;
    }

    // ------------------------------------------------------------------------------- worker

    /** zone_state_wk_fn, with the decision to send a zone command made per zone. */
    method ZoneStateWork() returns (ghost trace: seq<Label>)
      requires Valid()
      modifies this
      ensures Valid() && Run(c, old(View()), trace) == Some(View())
      ensures mapping == old(mapping) && ios == old(ios) && sched == old(sched)
      ensures |zones| == |old(zones)| && forall z :: 0 <= z < |zones| ==> zones[z] == Attended(old(zones)[z])
      ensures forall z :: !CanClose(View(), z) && !CanReset(View(), z)
      ensures forall i :: 0 <= i < |trace| ==> trace[i].LClose? || trace[i].LReset?
    {
      hide Sound, WellFormed, Release, Enabled, Apply, Run;
      ghost var s := View();
      EmptyRun(c, s);
      trace := [];
      var i := 0;
      while i < |zones|
        invariant i <= |zones| && Valid() && Run(c, s, trace) == Some(View())
        invariant mapping == s.mapping && ios == s.ios && sched == s.sched && |zones| == |s.zones|
        invariant forall z :: 0 <= z < i ==> zones[z] == Attended(s.zones[z]) && !Due(zones[z])
        invariant forall z :: i <= z < |zones| ==> zones[z] == s.zones[z]
        invariant forall j :: 0 <= j < |trace| ==> trace[j].LClose? || trace[j].LReset?
        decreases |zones| - i
      {
        ghost var before := View();
        if zones[i].phase.ToFull? {
          if zones[i].cond.CondFull? {
            CloseStep(c, before, i);
            Snoc(c, s, trace, before, LClose(i));
            trace := trace + [LClose(i)];
            CloseZone(i);
          }
        } else if zones[i].refs == 0 && zones[i].phase.Gc? {
          UnreferencedIsEmpty(c, before, i);
          ResetStep(c, before, i);
          Snoc(c, s, trace, before, LReset(i));
          trace := trace + [LReset(i)];
          ResetZone(i);
        }
        i := i + 1;
      }
    }

    method CloseZone(z: nat)
      requires CanClose(View(), z) && Counted()
      modifies this`zones, this`full, this`fullCount
      ensures View() == Close(old(View()), z) && Counted() && full == old(full) + [z]
    {
      zones := zones[z := zones[z].(phase := Full, cond := CondClosed)];
      full := full + [z];
      fullCount := fullCount + 1;
    }

    method ResetZone(z: nat)
      requires Valid() && CanReset(View(), z)
      modifies this`zones, this`empty, this`emptyCount, this`gc, this`allocable
      ensures View() == Reset(c, old(View()), z) && Counted()
      ensures empty == old(empty) + [z] && allocable == old(allocable) + c.cap
    {
      hide Sound;
      ResetStep(c, View(), z);
      // panic("reset encounter valid blocks!")
      assert zones[z].weight == 0;
      zones := zones[z := zones[z].(phase := Empty, cond := CondEmpty, wp := 0, rmap := map[], data := [])];
      empty := empty + [z];
      emptyCount := emptyCount + 1;
      gc := None;
      allocable := allocable + c.cap;
    }

    // ------------------------------------------------------------------------- retry worker

    /** The splice at the head of __retry_submit_io_task. */
    method SpliceWrites()
      requires Valid() && sched.pass.Resting?
      modifies this
      ensures Valid() && View() == old(View()).(sched := TakeWrites(old(sched)))
      ensures Run(c, old(View()), [LTakeWrites]) == Some(View())
    {
      hide Sound;
      WorkerIsStep(c, View(), LTakeWrites);
      batch := pending;
      pending := [];
      pendingCount := 0;
      sched := TakeWrites(sched);
    }

    /** The splice at the head of __retry_submit_gc_task. */
    method SpliceCopies()
      requires Valid() && sched.pass.Writes? && batch == [] && sched.busy.None?
      modifies this
      ensures Valid() && View() == old(View()).(sched := TakeCopies(old(sched)))
      ensures Run(c, old(View()), [LTakeCopies]) == Some(View())
    {
      hide Sound;
      WorkerIsStep(c, View(), LTakeCopies);
      batch := gcWrites;
      gcWrites := [];
      gcWriteCount := 0;
      sched := TakeCopies(sched);
    }

    /** list_del_init of the next entry of the spliced list. */
    method NextOfBatch() returns (t: nat)
      requires Valid() && batch != [] && sched.busy.None?
      modifies this
      ensures Valid() && View() == old(View()).(sched := TakeNext(old(sched)))
      ensures t == old(batch)[0] && Run(c, old(View()), [LNext]) == Some(View())
    {
      hide Sound;
      WorkerIsStep(c, View(), LNext);
      t := batch[0];
      batch := batch[1..];
      sched := TakeNext(sched);
    }

    // The worker has gone through both lists.
    ghost method EndPass()
      requires Valid() && sched.pass.Copies? && batch == [] && sched.busy.None?
      modifies this`sched
      ensures Valid() && View() == old(View()).(sched := old(sched).(pass := Resting))
      ensures Run(c, old(View()), [LRest]) == Some(View())
    {
      hide Sound;
      WorkerIsStep(c, View(), LRest);
      sched := sched.(pass := Resting);
    }
  }

  // ------------------------------------------------------------------- specification functions

  // s with the tasks, tree and queues of s'.
  ghost function Outside(s: State, s': State): State {
    s.(ios := s'.ios, tree := s'.tree, sched := s'.sched)
  }

  // No zone of the list weighs less than number i, and none before it weighs as little.
  predicate FirstLightest(zones: seq<Zone>, list: seq<nat>, i: nat)
    requires i < |list| && forall j :: 0 <= j < |list| ==> list[j] < |zones|
  {
    && (forall j :: 0 <= j < |list| ==> zones[list[i]].weight <= zones[list[j]].weight)
    && (forall j :: 0 <= j < i ==> zones[list[i]].weight < zones[list[j]].weight)
  }

  // The collector goes through its victim and lets it go.
  predicate WalkOnly(trace: seq<Label>) {
    && trace != [] && trace[|trace| - 1].LEndScan?
    && forall i :: 0 <= i < |trace| - 1 ==> trace[i].LVisit?
  }

  // A zone after the worker has looked at it.
  function Attended(z: Zone): Zone {
    if z.phase.ToFull? && z.cond.CondFull? then z.(phase := Full, cond := CondClosed)
    else if z.phase.Gc? && z.refs == 0 then z.(phase := Empty, cond := CondEmpty, wp := 0, rmap := map[], data := [])
    else z
  }

  // Every zone after block b has moved from where the mapping has it to p.
  function Remapped(zones: seq<Zone>, mapping: map<nat, Pbid>, b: nat, p: Pbid): (r: seq<Zone>)
    requires p.zone < |zones| && (b in mapping ==> mapping[b].zone < |zones|)
    ensures |r| == |zones|
  {
    var cleared := if b in mapping then Released(zones, mapping[b]) else zones;
    cleared[p.zone := cleared[p.zone].(rmap := cleared[p.zone].rmap[p.off := b])]
  }

  // A parked GC task that t carries is there.
  ghost predicate Linked(ios: map<nat, Io>, t: nat)
    requires t in ios && ios[t].Task?
  {
    ios[t].pendingGc.Some? ==>
      ios[t].pendingGc.value in ios && ios[ios[t].pendingGc.value].Task? && ios[t].pendingGc.value != t
  }

  // The queues once the submission of t has succeeded, or has to be repeated.
  function AfterTurn(q: Sched, t: nat, ok: bool): Sched {
    if ok then EndTurn(q, t) else FailTurn(q, t)
  }

  // A GC task that its host will call back, or already has.
  predicate Carried(ios: map<nat, Io>, t: nat) {
    t in ios && ios[t].Task? && ios[t].kind.Mover? && (ios[t].st.Parked? || ios[t].st.Finishing?)
  }

  // How the turn of a GC task has ended.
  predicate Ended(ios: map<nat, Io>, t: nat, outcome: Outcome) {
    match outcome
    case ParkedOnWriter => Carried(ios, t)
    case Skipped => !(t in ios && IsMove(ios[t]))
    case Dispatched => t in ios && IsMove(ios[t]) && ios[t].st.Writing?
  }

  // A GC task for block b, read from offset o of zone v, has been created.
  ghost predicate Issued(ios: map<nat, Io>, v: nat, o: nat, b: nat) {
    exists t :: t in ios && ios[t] == Task(Mover, b, 0, Pbid(v, o), Reading, None, 1)
  }

  // ------------------------------------------------------------------------- methods as steps

  lemma UnmapStep(c: Config, s: State, b: nat)
    requires Sound(c, s) && b < c.blocks
    ensures WellFormed(c, s) && Sound(c, Unmap(c, s, b))
    ensures b in s.mapping ==> s.mapping[b].zone < |s.zones|
  {
    hide Sound, WellFormed;
    SoundShape(c, s);
    MappedRange(c, s, b);
    StepKeepsSound(c, s, LDiscard(b));
    UnmapKeepsIos(c, s, b);
  }

  lemma MappedRange(c: Config, s: State, b: nat)
    requires WellFormed(c, s)
    ensures |s.zones| == c.zones && (b in s.mapping ==> s.mapping[b].zone < |s.zones|)
  {
  }

  lemma LookupStep(c: Config, s: State, r: nat, b: nat)
    requires Sound(c, s) && r !in s.ios && b < c.blocks
    ensures WellFormed(c, s) && Sound(c, Lookup(c, s, r, b))
    ensures b in s.mapping ==> s.mapping[b].zone < |s.zones|
  {
    hide Sound, WellFormed;
    SoundShape(c, s);
    MappedRange(c, s, b);
    StepKeepsSound(c, s, LLookup(r, b));
  }

  lemma ReadEndioStep(c: Config, s: State, r: nat)
    requires Sound(c, s) && CanReadEndio(s, r)
    ensures WellFormed(c, s) && Sound(c, ReadEndio(c, s, r)) && s.ios[r].from.zone < |s.zones|
  {
    hide Sound, WellFormed;
    SoundShape(c, s);
    ReadRange(c, s, r);
    StepKeepsSound(c, s, LReadEndio(r));
  }

  lemma ReadRange(c: Config, s: State, r: nat)
    requires WellFormed(c, s) && r in s.ios && s.ios[r].Read?
    ensures s.ios[r].from.zone < |s.zones|
  {
  }

  lemma MoveReadStep(c: Config, s: State, t: nat)
    requires Sound(c, s) && CanMoveRead(s, t)
    ensures WellFormed(c, s) && Enabled(c, s, LMoveRead(t)) && Sound(c, Apply(c, s, LMoveRead(t)))
    ensures s.ios[t].src.zone < |s.zones| && s.ios[t].src.off < |s.zones[s.ios[t].src.zone].data|
  {
    hide Sound, WellFormed;
    SoundShape(c, s);
    MoveRange(c, s, t);
    StepKeepsSound(c, s, LMoveRead(t));
  }

  lemma MoveRange(c: Config, s: State, t: nat)
    requires WellFormed(c, s) && t in s.ios && IsMove(s.ios[t])
    ensures s.ios[t].src.zone < |s.zones| && s.ios[t].src.off < |s.zones[s.ios[t].src.zone].data|
  {
    assert IoInRange(c, s.zones, s.ios, s.ios[t]);
  }

  lemma SelectStep(c: Config, s: State, z: nat)
    requires Sound(c, s) && s.gc.None? && WellFormed(c, s) && IsVictim(c, s, z)
    ensures |s.zones| == c.zones && Sound(c, Select(c, s, z))
    ensures Enabled(c, s, LSelect(z)) && Apply(c, s, LSelect(z)) == Select(c, s, z)
  {
    hide Sound, WellFormed;
    MappedRange(c, s, 0);
    StepKeepsSound(c, s, LSelect(z));
  }

  lemma {:induction false} WithoutOne(list: seq<nat>, x: nat)
    requires x in list
    ensures |Without(list, x)| == |list| - 1
  {
    if list[0] != x { WithoutOne(list[1..], x); }
  }

  lemma ListsInRange(c: Config, s: State)
    requires WellFormed(c, s)
    ensures |s.zones| == c.zones && forall i :: 0 <= i < |s.full| ==> s.full[i] < c.zones
  {
  }

  lemma VisitStep(c: Config, s: State, t: nat)
    requires Sound(c, s) && t !in s.ios && CanVisit(c, s)
    ensures WellFormed(c, s) && Enabled(c, s, LVisit(t)) && Apply(c, s, LVisit(t)) == Visit(c, s, t)
    ensures Sound(c, Visit(c, s, t)) && s.gc.value.pos < c.cap
  {
    hide Inv, Placed, WellFormed;
    SoundShape(c, s);
    ScanFacts(c, s);
    ZoneFacts(c, s, s.gc.value.zone);
    StepKeepsSound(c, s, LVisit(t));
  }

  lemma ScanStart(c: Config, s: State)
    requires Sound(c, s) && s.gc.Some?
    ensures s.gc.value.zone < |s.zones| && s.gc.value.pos <= c.cap
  {
    hide Inv, Placed;
    ScanFacts(c, s);
  }

  lemma EndScanStep(c: Config, s: State)
    requires Sound(c, s) && CanEndScan(c, s)
    ensures WellFormed(c, s) && Enabled(c, s, LEndScan) && Apply(c, s, LEndScan) == EndScan(c, s)
    ensures Sound(c, EndScan(c, s)) && s.gc.value.pos == c.cap
    ensures forall o <- s.zones[s.gc.value.zone].rmap :: o < c.cap
  {
    hide Inv, Placed, WellFormed;
    SoundShape(c, s);
    ScanFacts(c, s);
    ZoneFacts(c, s, s.gc.value.zone);
    EntriesInside(c, s, s.gc.value.zone);
    StepKeepsSound(c, s, LEndScan);
  }

  lemma EntriesInside(c: Config, s: State, v: nat)
    requires Inv(c, s) && v < |s.zones|
    ensures forall o <- s.zones[v].rmap :: o < s.zones[v].wp
  {
    hide Inv, LandedPages, LifeCycle, Counts, RefsExact, Tasks, Moves, Coverage, TriedStreams, InRange, Totals, Reserve,
         WellFormed;
    PartsMakeInv(c, s);
    ZoneFacts(c, s, v);
  }

  lemma CloseStep(c: Config, s: State, z: nat)
    requires Sound(c, s) && CanClose(s, z)
    ensures WellFormed(c, s) && Enabled(c, s, LClose(z)) && Apply(c, s, LClose(z)) == Close(s, z)
    ensures Sound(c, Close(s, z))
  {
    hide Sound, WellFormed;
    SoundShape(c, s);
    StepKeepsSound(c, s, LClose(z));
  }

  lemma ResetStep(c: Config, s: State, z: nat)
    requires Sound(c, s) && CanReset(s, z)
    ensures WellFormed(c, s) && Enabled(c, s, LReset(z)) && Apply(c, s, LReset(z)) == Reset(c, s, z)
    ensures Sound(c, Reset(c, s, z)) && s.zones[z].weight == 0
  {
    hide Inv, Placed, WellFormed;
    SoundShape(c, s);
    UnreferencedIsDead(c, s, z);
    StepKeepsSound(c, s, LReset(z));
  }

  lemma UnreferencedIsEmpty(c: Config, s: State, z: nat)
    requires Sound(c, s) && z < |s.zones| && s.zones[z].phase.Gc? && s.zones[z].refs == 0
    ensures CanReset(s, z)
  {
    hide Inv, Placed;
    ZoneFacts(c, s, z);
  }

  // ------------------------------------------------------------------------------- completions

  /** The whole effect of a completion, field by field. */
  lemma EndioFacts(c: Config, s: State, t: nat)
    requires Sound(c, s) && CanEndio(s, t)
    ensures WellFormed(c, s) && Sound(c, Endio(c, s, t))
    ensures CanComplete(s, t) && s.ios[t].rc >= 2 && Endio(c, s, t) == Completed(s, t)
  {
    hide Inv, Placed, WellFormed, Release, Endio, Completed;
    SoundShape(c, s);
    EndioIsStep(c, s, t);
    StepKeepsSound(c, s, LEndio(t));
    LandedFacts(c, s, t);
    TaskFacts(c, s, t);
    ParkFacts(c, s, t);
    MappedRange(c, s, s.ios[t].blk);
    EndioShape(c, s, t);
  }

  // The handlers' own statements are defined.
  ghost predicate CanComplete(s: State, t: nat) {
    && CanEndio(s, t) && s.ios[t].st.at.zone < |s.zones| && Linked(s.ios, t)
    && (s.ios[t].blk in s.mapping ==> s.mapping[s.ios[t].blk].zone < |s.zones|)
  }

  ghost function Completed(s: State, t: nat): State
    requires CanComplete(s, t)
  {
    var io := s.ios[t];
    var p := io.st.at;
    var zs := Remapped(s.zones, s.mapping, io.blk, p);
    s.(mapping := s.mapping[io.blk := p],
       zones := zs[p.zone := PutZone(zs[p.zone].(pending := zs[p.zone].pending - 1))],
       valid := s.valid - Bit(io.blk in s.mapping),
       tree := s.tree - {io.blk},
       userInflight := s.userInflight - Bit(io.kind.User?),
       ios := if io.kind.User? then Release(s.ios[t := io.(st := Done)], t, 2)
              else s.ios[t := io.(st := Finishing, rc := io.rc - 1)])
  }

  lemma EndioShape(c: Config, s: State, t: nat)
    requires WellFormed(c, s) && CanComplete(s, t)
    ensures Endio(c, s, t) == Completed(s, t)
  {
    hide WellFormed, Release;
    assert (s.mapping - {s.ios[t].blk})[s.ios[t].blk := s.ios[t].st.at] == s.mapping[s.ios[t].blk := s.ios[t].st.at];
  }

  // The zones in the order of the GC completion's statements, before its put and after.
  ghost function CopyBound(s: State, t: nat): (r: seq<Zone>)
    requires CanComplete(s, t) && s.ios[t].src.zone < |s.zones|
    ensures |r| == |s.zones|
  {
    var io := s.ios[t];
    var z := io.st.at.zone;
    var z1 := s.zones[z := s.zones[z].(pending := s.zones[z].pending - 1)];
    var z2 := z1[z := z1[z].(rmap := z1[z].rmap[io.st.at.off := io.blk])];
    if io.blk in s.mapping then Released(z2, io.src) else z2
  }

  ghost function GcCompleted(s: State, t: nat): seq<Zone>
    requires CanComplete(s, t) && s.ios[t].src.zone < |s.zones|
  {
    var z := s.ios[t].st.at.zone;
    var zs := CopyBound(s, t);
    zs[z := PutZone(zs[z])]
  }

  /** What BUG_ON demands of a GC completion, and that its order of statements does not matter. */
  lemma MoverFacts(c: Config, s: State, t: nat)
    requires Sound(c, s) && CanEndio(s, t) && s.ios[t].kind.Mover?
    ensures s.ios[t].blk in s.mapping ==> s.mapping[s.ios[t].blk] == s.ios[t].src
    ensures WellFormed(c, s) && CanComplete(s, t) && s.ios[t].src.zone < |s.zones|
    ensures GcCompleted(s, t) == Endio(c, s, t).zones
  {
    hide Inv, Placed, WellFormed, Endio, Completed, GcCompleted, MapsInverse;
    TaskFacts(c, s, t);
    EndioFacts(c, s, t);
    LandedFacts(c, s, t);
    MapPlace(c, s, s.ios[t].blk);
    GcOrder(s, t);
  }

  lemma MapPlace(c: Config, s: State, b: nat)
    requires Inv(c, s)
    ensures b in s.mapping ==> s.mapping[b].zone < |s.zones| && s.mapping[b].off in s.zones[s.mapping[b].zone].rmap
  {
    hide WellFormed, LandedPages, LifeCycle, Counts, Totals, RefsExact, Tasks, Moves, Coverage, Reserve, TriedStreams;
    assert Holds(MapsPart, c, s);
  }

  lemma GcOrder(s: State, t: nat)
    requires CanComplete(s, t) && s.ios[t].src.zone < |s.zones|
    requires s.ios[t].blk in s.mapping ==> s.mapping[s.ios[t].blk] == s.ios[t].src && s.ios[t].src != s.ios[t].st.at
    ensures GcCompleted(s, t) == Completed(s, t).zones
  {
    hide Release, PutZone;
    var io, p := s.ios[t], s.ios[t].st.at;
    if io.src.zone == p.zone && io.blk in s.mapping {
      var r := s.zones[p.zone].rmap;
      assert r[p.off := io.blk] - {io.src.off} == (r - {io.src.off})[p.off := io.blk];
    }
  }

  // Dropping two references one after the other is dropping two.
  lemma ReleaseTwice(ios: map<nat, Io>, h: nat)
    requires h in ios && ios[h].Task? && ios[h].rc >= 2 && Linked(ios, h)
    ensures var once := Release(ios, h, 1);
            && h in once && once[h] == ios[h].(rc := ios[h].rc - 1) && Linked(once, h)
            && Release(once, h, 1) == Release(ios, h, 2)
  {
    var once := ios[h := ios[h].(rc := ios[h].rc - 1)];
    assert Release(ios, h, 1) == once;
    assert Release(once, h, 1) == Release(ios, h, 2);
  }

  lemma ParkFacts(c: Config, s: State, h: nat)
    requires Inv(c, s) && h in s.ios && s.ios[h].Task?
    ensures Linked(s.ios, h)
  {
    hide Inv, MapsInverse, LandedPages, Counts, Moves, Coverage, TriedStreams, InRange, Totals, Reserve, LifeCycle,
         TreeLinks, ConflictLinks, StatusOk, WellFormed, RefsExact;
    PartsMakeInv(c, s);
  }

  // ------------------------------------------------------------------------------- allocation

  lemma AllocRange(c: Config, s: State, stream: nat)
    requires WellFormed(c, s) && stream < |s.active|
    ensures |s.zones| == c.zones
    ensures s.active[stream].Some? ==> s.active[stream].value < |s.zones|
    ensures s.empty != [] ==>
              var o := Open(c, s, stream);
              && o.ios == s.ios && |o.zones| == c.zones && |o.active| == |s.active|
                 && o.active[stream] == Some(s.empty[0])
              && s.empty[0] < c.zones
  {
  }

  lemma TryAllocStep(c: Config, s: State, t: nat, k: nat)
    requires Sound(c, s) && CanAlloc(s, t, k) && InTurn(s.sched, t) && k !in s.sched.turns[t].failed
    ensures WellFormed(c, s) && Enabled(c, s, LTryAlloc(t, k)) && Sound(c, Apply(c, s, LTryAlloc(t, k)))
    ensures TryAlloc(c, s, t, k).sched == s.sched
    ensures t in TryAlloc(c, s, t, k).ios && TryAlloc(c, s, t, k).ios[t].Task?
    ensures !Refused(c, s, t) && HasRoom(s, k) ==> TryAlloc(c, s, t, k).ios[t].st.Writing?
  {
    hide Sound, WellFormed, TryAlloc;
    SoundShape(c, s);
    TryAllocShape(c, s, t, k);
    StepKeepsSound(c, s, LTryAlloc(t, k));
  }

  // What an attempt on one stream makes of the task, and of everything else if it fails.
  lemma AttemptOutcome(c: Config, s: State, t: nat, k: nat)
    requires WellFormed(c, s) && CanAlloc(s, t, k)
    ensures var s' := TryAlloc(c, s, t, k);
            if !Refused(c, s, t) && HasRoom(s, k)
            then && t in s'.ios && s'.allocable == s.allocable - 1
                 && s'.ios[t] == s.ios[t].(st := Writing(if s.active[k].Some? then s.active[k].value else s.empty[0]))
            else s' == s.(ios := s.ios[t := s.ios[t].(st := Alloc(s.ios[t].st.tried
                                                                  + if UsesReserve(s.ios[t]) then {k} else {}))])
  {
    AllocRange(c, s, k);
    hide WellFormed;
    assert s.ios[t := s.ios[t]] == s.ios && s.ios[t].st.tried + {} == s.ios[t].st.tried;
  }

  /** After attempts on the streams in tried, from state s: the task has its block in the zone it
      should, or nothing has changed but the streams it has tried. */
  ghost predicate Attempted(c: Config, s: State, v: State, t: nat, own: nat, tried: set<nat>, ok: bool) {
    && t in s.ios && s.ios[t].Task? && t in v.ios && v.ios[t].Task? && own < |s.active|
    && if ok then && v.ios[t].st.Writing? && v.ios[t] == s.ios[t].(st := v.ios[t].st)
                  && LandsIn(s, own, v.ios[t].st.zone) && !Refused(c, s, t) && v.sched == EndTurn(s.sched, t)
       else && v == s.(ios := s.ios[t := s.ios[t].(st := Alloc(if UsesReserve(s.ios[t]) then tried else {}))],
                       sched := s.sched.(turns := s.sched.turns[t := if Exhausted(c, tried) then Failed
                                                                     else Going(tried)]))
            && (Refused(c, s, t) || forall k <- tried :: k < |s.active| ==> !HasRoom(s, k))
  }

  ghost predicate Exhausted(c: Config, tried: set<nat>) {
    forall k: nat :: k < c.streams ==> k in tried
  }

  lemma FirstAttempt(c: Config, s: State, t: nat, k: nat)
    requires WellFormed(c, s) && Enabled(c, s, LTryAlloc(t, k)) && s.ios[t].st == Alloc({})
             && s.sched.turns[t] == Going({})
    ensures Attempted(c, s, Apply(c, s, LTryAlloc(t, k)), t, k, {k}, !Refused(c, s, t) && HasRoom(s, k))
    ensures |Apply(c, s, LTryAlloc(t, k)).active| == |s.active| == c.streams
  {
    hide WellFormed, TryAlloc;
    TryAllocShape(c, s, t, k);
    AttemptOutcome(c, s, t, k);
    ActiveSize(c, s);
    var none: set<nat> := {};
    assert none + {k} == {k} && none + {} == {};
  }

  lemma MoreToTry(c: Config, s: State, v: State, t: nat, own: nat, tried: set<nat>, k: nat)
    requires Attempted(c, s, v, t, own, tried, false) && k !in tried && k < c.streams == |v.active|
    ensures CanAlloc(v, t, k) && InTurn(v.sched, t) && k !in v.sched.turns[t].failed
  {
  }

  lemma NextAttempt(c: Config, s: State, v: State, t: nat, own: nat, tried: set<nat>, k: nat)
    requires Attempted(c, s, v, t, own, tried, false) && k !in tried && k < c.streams
    requires WellFormed(c, v) && Enabled(c, v, LTryAlloc(t, k)) && own in tried && forall i: nat :: i < k ==> i in tried
    ensures Attempted(c, s, Apply(c, v, LTryAlloc(t, k)), t, own, tried + {k}, !Refused(c, v, t) && HasRoom(v, k))
    ensures |Apply(c, v, LTryAlloc(t, k)).active| == |v.active|
  {
    hide WellFormed, TryAlloc;
    TryAllocShape(c, v, t, k);
    AttemptOutcome(c, v, t, k);
    assert v.sched.turns - {t} == s.sched.turns - {t} && v.ios[t].st.tried + {} == v.ios[t].st.tried;
    if !Refused(c, v, t) && HasRoom(v, k) {
      assert !HasRoom(s, own) && HasRoom(s, k);
      forall i: nat | i < k
        ensures s.active[i].None?
      {
        assert i in tried && !HasRoom(s, i);
      }
      assert s.active[k].Some?;
    } else {
      var turn := if Exhausted(c, tried + {k}) then Failed else Going(tried + {k});
      var io := s.ios[t].(st := Alloc(if UsesReserve(s.ios[t]) then tried + {k} else {}));
      assert v.sched.turns[t := turn] == s.sched.turns[t := turn] && v.ios[t := io] == s.ios[t := io];
      assert Apply(c, v, LTryAlloc(t, k)).ios == s.ios[t := io];
    }
  }

  lemma AllTried(c: Config, s: State, v: State, t: nat, own: nat, tried: set<nat>, ok: bool)
    requires Sound(c, v) && Attempted(c, s, v, t, own, tried, ok) && (!ok ==> Exhausted(c, tried))
    requires t in s.ios && s.ios[t].Task? && s.ios[t].st == Alloc({}) && own < |s.active| == c.streams
    ensures t in v.ios && v.ios[t].Task? && (ok <==> Admitted(c, s, t))
    ensures UsesReserve(s.ios[t]) ==> ok
    ensures ok ==> v.ios[t] == s.ios[t].(st := v.ios[t].st) && v.ios[t].st.Writing? && LandsIn(s, own, v.ios[t].st.zone)
    ensures ok && s.active[own].Some? ==> v.ios[t].st.zone == s.active[own].value
    ensures ok && s.active[own].None? && s.empty != [] ==> v.ios[t].st.zone == s.empty[0]
    ensures !ok ==> AtRest(FaceOf(v.ios, t)) && v == s.(sched := FailTurn(s.sched, t))
    ensures v.sched == AfterTurn(s.sched, t, ok)
  {
    hide Inv, Placed, WellFormed;
    if ok {
      var k :| 0 <= k < |s.active| && (k == own || s.active[k].Some?) && HasRoom(s, k);
      assert HasRoom(s, k);
    } else {
      if UsesReserve(s.ios[t]) {
        SoundShape(c, v);
        ActiveSize(c, v);
        var k := ReserveIsEnough(c, v, t);
        assert false;
      }
      assert s.ios[t := s.ios[t]] == s.ios;
      assert !Refused(c, s, t) ==> !HasRoom(s, own);
      forall k: nat | k < |s.active| && !Refused(c, s, t)
        ensures s.active[k].None?
      {
        assert k in tried && !HasRoom(s, k);
      }
    }
  }

  // -------------------------------------------------------------------------------- submission

  // The tree has no say in who gets a block, and where.
  lemma SameAdmission(c: Config, s: State, s': State, t: nat, own: nat)
    requires s'.active == s.active && s'.empty == s.empty && s'.allocable == s.allocable
    requires t in s.ios && s.ios[t].Task? && t in s'.ios && s'.ios[t].Task?
    requires s'.ios[t].kind == s.ios[t].kind && s'.ios[t].pendingGc == s.ios[t].pendingGc && own < |s.active|
    ensures Admitted(c, s', t) <==> Admitted(c, s, t)
    ensures forall z: nat :: LandsIn(s', own, z) <==> LandsIn(s, own, z)
  {
  }

  // A new write is dispatched if nobody has its block, a zone's worth is left and a stream has room.
  lemma FreshWrite(c: Config, s: State, s': State, t: nat, b: nat)
    requires s'.tree == s.tree && s'.active == s.active && s'.empty == s.empty && s'.allocable == s.allocable
    requires t in s'.ios && IsUser(s'.ios[t]) && s'.ios[t].st.Init? && s'.ios[t].blk == b && s'.ios[t].pendingGc.None?
    ensures Passable(c, s', t) <==> b !in s.tree && c.cap <= s.allocable
                                    && (s.empty != [] || exists k :: 0 <= k < |s.active| && s.active[k].Some?)
    ensures AtRest(FaceOf(s'.ios, t))
  {
  }

  lemma SameLanding(s: State, s': State, own: nat)
    requires s'.active == s.active && s'.empty == s.empty && own < |s.active|
    ensures forall z: nat :: LandsIn(s', own, z) <==> LandsIn(s, own, z)
  {
  }

  lemma InsertStep(c: Config, s: State, t: nat)
    requires Sound(c, s) && CanInsert(s, t) && InTurn(s.sched, t)
    ensures WellFormed(c, s) && Enabled(c, s, LInsert(t)) && Sound(c, Apply(c, s, LInsert(t)))
    ensures s.ios[t].blk in s.tree ==> var h := s.tree[s.ios[t].blk]; h in s.ios && s.ios[h].Task? && h != t
  {
    hide Inv, Placed, WellFormed;
    SoundShape(c, s);
    if s.ios[t].blk in s.tree { MeetsUser(c, s, t); MeetsOther(c, s, t); }
    StepKeepsSound(c, s, LInsert(t));
  }

  lemma MeetsOther(c: Config, s: State, t: nat)
    requires Inv(c, s) && CanInsert(s, t) && s.ios[t].blk in s.tree
    ensures s.tree[s.ios[t].blk] in s.ios && s.ios[s.tree[s.ios[t].blk]].Task? && s.tree[s.ios[t].blk] != t
  {
    hide Inv, MapsInverse, LandedPages, Counts, Moves, Coverage, TriedStreams, InRange, Totals, Reserve, LifeCycle,
         ConflictLinks, ParkLinks, StatusOk, WellFormed, RefsExact;
    PartsMakeInv(c, s);
  }

  lemma ResolveStep(c: Config, s: State, t: nat)
    requires Sound(c, s) && CanResolve(s, t) && InTurn(s.sched, t)
    ensures WellFormed(c, s) && Enabled(c, s, LResolve(t)) && Sound(c, Apply(c, s, LResolve(t)))
    ensures Apply(c, s, LResolve(t)) == Resolve(c, s, t).(sched := AfterConflict(s.sched, t, s.ios[t].kind))
    ensures var h := s.ios[t].st.host;
            && h in s.ios && s.ios[h].Task? && h != t && Linked(s.ios, h) && Resolve(c, s, t).sched == s.sched
    ensures s.ios[t].kind.User? && s.ios[s.ios[t].st.host].pendingGc.Some? ==>
              s.ios[s.ios[t].st.host].pendingGc.value != t
    ensures if s.ios[t].kind.User?
            then t in Resolve(c, s, t).ios && Resolve(c, s, t).ios[t] == s.ios[t].(st := Init)
            else Carried(Resolve(c, s, t).ios, t)
  {
    hide Inv, Placed, WellFormed, Release;
    SoundShape(c, s);
    ConflictFacts(c, s, t);
    ParkFacts(c, s, s.ios[t].st.host);
    if s.ios[s.ios[t].st.host].pendingGc.Some? { ParkedMover(c, s, s.ios[t].st.host); }
    if s.ios[t].kind.User? { ReleaseElsewhere(s.ios[t := s.ios[t].(st := Init)], s.ios[t].st.host, t); }
    if s.ios[t].kind.Mover? { ReleaseCarries(Park(s.ios, t, s.ios[t].st.host), s.ios[t].st.host, t); }
    StepKeepsSound(c, s, LResolve(t));
  }

  lemma ReleaseElsewhere(ios: map<nat, Io>, h: nat, t: nat)
    requires h in ios && ios[h].Task? && Linked(ios, h) && h != t && t in ios
    requires ios[h].pendingGc.Some? ==> ios[h].pendingGc.value != t
    ensures t in Release(ios, h, 1) && Release(ios, h, 1)[t] == ios[t]
  {
  }

  lemma ReleaseCarries(ios: map<nat, Io>, h: nat, t: nat)
    requires h in ios && ios[h].Task? && Linked(ios, h) && h != t && Carried(ios, t)
    ensures Carried(Release(ios, h, 1), t)
  {
  }

  lemma ParkedMover(c: Config, s: State, h: nat)
    requires Inv(c, s) && h in s.ios && s.ios[h].Task? && s.ios[h].pendingGc.Some?
    ensures var g := s.ios[h].pendingGc.value;
            g in s.ios && s.ios[g].Task? && s.ios[g].kind.Mover? && s.ios[g].st == Parked(h)
  {
    hide Inv, MapsInverse, LandedPages, Counts, Moves, Coverage, TriedStreams, InRange, Totals, Reserve, LifeCycle,
         TreeLinks, ConflictLinks, StatusOk, WellFormed, RefsExact;
    PartsMakeInv(c, s);
  }

  lemma RecheckStep(c: Config, s: State, t: nat)
    requires Sound(c, s) && CanRecheck(s, t) && InTurn(s.sched, t)
    ensures WellFormed(c, s) && Enabled(c, s, LRecheck(t)) && Sound(c, Apply(c, s, LRecheck(t)))
    ensures Apply(c, s, LRecheck(t)) == Recheck(s, t).(sched := if Stale(s, t) then EndTurn(s.sched, t) else s.sched)
  {
    hide Sound, WellFormed;
    SoundShape(c, s);
    StepKeepsSound(c, s, LRecheck(t));
  }

  lemma FinishStep(c: Config, s: State, t: nat)
    requires Sound(c, s) && CanFinish(s, t)
    ensures WellFormed(c, s) && Sound(c, Finish(c, s, t)) && s.ios[t].src.zone < |s.zones|
    ensures Linked(s.ios[t := s.ios[t].(st := Done)], t) && Finish(c, s, t).sched == s.sched
    ensures !Live(Finish(c, s, t).ios, t)
  {
    hide Inv, Placed, WellFormed, Release, Live;
    SoundShape(c, s);
    TaskFacts(c, s, t);
    FinishEnds(c, s, t);
    FinishIsStep(c, s, t);
    StepKeepsSound(c, s, LFinish(t));
  }

  lemma FinishIsStep(c: Config, s: State, t: nat)
    requires Sound(c, s) && CanFinish(s, t)
    ensures WellFormed(c, s) && Enabled(c, s, LFinish(t)) && Apply(c, s, LFinish(t)) == Finish(c, s, t)
  {
    hide Sound, WellFormed, Release;
    SoundShape(c, s);
  }

  lemma NotLive(ios: map<nat, Io>, t: nat)
    requires !Live(ios, t)
    ensures !(t in ios && IsMove(ios[t]))
  {
  }

  lemma RequeueStep(c: Config, s: State, t: nat)
    requires Sound(c, s) && CanEnqueue(s, t)
    ensures WellFormed(c, s) && Enabled(c, s, LRequeue(t)) && Sound(c, Apply(c, s, LRequeue(t)))
    ensures Apply(c, s, LRequeue(t))
            == s.(ios := if s.ios[t].st.Alloc? then s.ios[t := s.ios[t].(st := Alloc({}))] else s.ios,
                  sched := Enqueue(s.sched, t))
    ensures EndTurn(s.sched, t).(pending := s.sched.pending + [t]) == Enqueue(s.sched, t)
  {
    hide Sound, WellFormed;
    SoundShape(c, s);
    StepKeepsSound(c, s, LRequeue(t));
  }

  lemma SubmitStep(c: Config, s: State, t: nat, b: nat, d: Page)
    requires Sound(c, s) && t !in s.ios && b < c.blocks
    ensures WellFormed(c, s) && Enabled(c, s, LSubmit(t, b, d))
    ensures Apply(c, s, LSubmit(t, b, d)) == Submit(s, t, b, d).(sched := BeginTurn(s.sched, t))
    ensures Sound(c, Apply(c, s, LSubmit(t, b, d))) && t !in s.sched.turns && s.sched.busy != Some(t)
  {
    hide Inv, WellFormed, Apart;
    PlacedParts(c.streams, s.ios, s.sched);
    SoundShape(c, s);
    assert FaceOf(s.ios, t).Gone? && !Somewhere(s.sched, t);
    hide Placed;
    StepKeepsSound(c, s, LSubmit(t, b, d));
  }

  // What a submission does after the task is made is quiet.
  lemma OwnIsQuiet(trace: seq<Label>, t: nat)
    requires forall i :: 0 <= i < |trace| ==> OwnStep(trace[i], t) || trace[i] == LRequeue(t)
    ensures AllQuiet(trace)
  {
  }

  // A turn that has come and gone leaves the queues as they were, or with the task at the end.
  lemma TurnGone(q: Sched, t: nat)
    requires t !in q.turns && q.busy != Some(t)
    ensures t in BeginTurn(q, t).turns && BeginTurn(q, t).turns[t] == Going({})
    ensures t in FailTurn(BeginTurn(q, t), t).turns && FailTurn(BeginTurn(q, t), t).turns[t].Failed?
    ensures EndTurn(BeginTurn(q, t), t) == q
    ensures Enqueue(FailTurn(BeginTurn(q, t), t), t) == q.(pending := q.pending + [t])
  {
    assert q.turns[t := Going({})] - {t} == q.turns;
    assert q.turns[t := Going({})][t := Failed] - {t} == q.turns;
  }

  // ------------------------------------------------------------------------------ retry worker

  lemma WorkerIsStep(c: Config, s: State, l: Label)
    requires Sound(c, s)
    requires l.LTakeWrites? || l.LNext? || l.LTakeCopies? || l.LRest?
    requires l.LTakeWrites? ==> s.sched.pass.Resting?
    requires l.LNext? ==> s.sched.busy.None? && s.sched.batch != []
    requires l.LTakeCopies? ==> s.sched.pass.Writes? && s.sched.busy.None? && s.sched.batch == []
    requires l.LRest? ==> s.sched.pass.Copies? && s.sched.busy.None? && s.sched.batch == []
    ensures WellFormed(c, s) && Enabled(c, s, l) && Run(c, s, [l]) == Some(Apply(c, s, l)) && Sound(c, Apply(c, s, l))
    ensures Apply(c, s, l) == s.(sched := if l.LTakeWrites? then TakeWrites(s.sched)
                                          else if l.LNext? then TakeNext(s.sched)
                                          else if l.LTakeCopies? then TakeCopies(s.sched)
                                          else s.sched.(pass := Resting))
  {
    hide Sound, WellFormed, Run;
    SoundShape(c, s);
    OneStep(c, s, l);
    StepKeepsSound(c, s, l);
  }

  // ------------------------------------------------------------------------------- the walk

  lemma InitialSegment(ios: map<nat, Io>, n: nat)
    requires forall k: nat :: k < n ==> k in ios
    ensures n <= |ios|
  {
    var low := set k: nat | k < n && k in ios;
    assert low <= ios.Keys;
    SetSizes(low, ios.Keys);
    RangeSize(n, low);
  }

  lemma {:induction false} RangeSize(n: nat, s: set<nat>)
    requires forall k: nat :: k < n <==> k in s
    ensures |s| == n
  {
    if n == 0 {
      assert s == {};
    } else {
      RangeSize(n - 1, s - {n - 1});
    }
  }

  lemma {:induction false} SetSizes(a: set<nat>, b: set<nat>)
    requires a <= b
    ensures |a| <= |b|
  {
    if a != {} {
      var x :| x in a;
      SetSizes(a - {x}, b - {x});
    }
  }

  lemma VisitShape(c: Config, s: State, t: nat)
    requires CanVisit(c, s) && t !in s.ios
    ensures var s' := Visit(c, s, t);
            var v := s.gc.value.zone;
            && s'.gc == Some(s.gc.value.(pos := s.gc.value.pos + 1)) && |s'.zones| == |s.zones| && s'.sched == s.sched
            && s'.zones[v].rmap == s.zones[v].rmap && s'.mapping == s.mapping
            && (forall u <- s.ios :: u in s'.ios && s'.ios[u] == s.ios[u])
            && (s.gc.value.pos in s.zones[v].rmap ==>
                 Issued(s'.ios, v, s.gc.value.pos, s.zones[v].rmap[s.gc.value.pos]))
            && (forall o, b :: Issued(s.ios, v, o, b) ==> Issued(s'.ios, v, o, b))
  {
    var s' := Visit(c, s, t);
    var v := s.gc.value.zone;
    if s.gc.value.pos in s.zones[v].rmap { assert t in s'.ios; }
    forall o, b | Issued(s.ios, v, o, b)
      ensures Issued(s'.ios, v, o, b)
    {
      var u :| u in s.ios && s.ios[u] == Task(Mover, b, 0, Pbid(v, o), Reading, None, 1);
      assert u in s'.ios;
    }
  }
}
