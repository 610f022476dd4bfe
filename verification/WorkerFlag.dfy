/**
 * The zone worker keeps one flag for its whole pass: once a zone has needed a command, every
 * later zone that the pass looks at gets one too.  The machine decides zone by zone; here is
 * exactly when the flag decides the same, and a reachable state in which it does not.
 */
module WorkerFlag {
  import opened Machine
  import opened Invariant
  import opened Frames
  import opened Runs
  import opened Placement
  import opened Scenes

  // The pass gets as far as the flag for this zone.
  predicate Considered(z: Zone) {
    z.phase.ToFull? || (z.phase.Gc? && z.refs == 0)
  }

  // The pass sends a command to zone i.
  ghost predicate Acts(zones: seq<Zone>, i: nat)
    requires i < |zones|
  {
    Considered(zones[i]) && exists j :: 0 <= j <= i && Due(zones[j])
  }

  /** The pass with its shared flag: which zones get a command. */
  method SharedFlagPass(zones: seq<Zone>) returns (acted: seq<bool>)
    ensures |acted| == |zones| && forall i :: 0 <= i < |zones| ==> (acted[i] <==> Acts(zones, i))
  {
    acted := [];
    var send, i := false, 0;
    while i < |zones|
      invariant 0 <= i <= |zones| && |acted| == i
      invariant send <==> exists j :: 0 <= j < i && Due(zones[j])
      invariant forall k :: 0 <= k < i ==> (acted[k] <==> Acts(zones, k))
    {
      var zone := zones[i];
      var act := false;
      if zone.phase.ToFull? {
        if zone.cond.CondFull? { send := true; }
        act := send;
      } else if zone.refs == 0 && zone.phase.Gc? {
        if zone.cond.CondEmpty? { send := true; }
        act := send;
      }
      acted := acted + [act];
      i := i + 1;
    }
  }

  /** The pass sends commands to exactly the zones that are due if and only if no zone that it
      considers without being due comes after one that is. */
  lemma FlagIsExactIff(zones: seq<Zone>)
    ensures (forall i :: 0 <= i < |zones| ==> (Acts(zones, i) <==> Due(zones[i])))
       <==> (forall i, j :: 0 <= i < j < |zones| && Due(zones[i]) && Considered(zones[j]) ==> Due(zones[j]))
  {
    if forall i :: 0 <= i < |zones| ==> (Acts(zones, i) <==> Due(zones[i])) {
      forall i, j | 0 <= i < j < |zones| && Due(zones[i]) && Considered(zones[j])
        ensures Due(zones[j])
      {
        assert Acts(zones, j);
      }
    }
  }

  // A written-out zone some of whose writes the device has not yet acknowledged.
  predicate StillWriting(z: Zone) {
    z.phase.ToFull? && z.pending > 0
  }

  // In a reachable state the zones considered but not due are those still being written.
  lemma ConsideredNotDue(c: Config, s: State, i: nat)
    requires Inv(c, s) && i < |s.zones|
    ensures Considered(s.zones[i]) && !Due(s.zones[i]) <==> StillWriting(s.zones[i])
  {
    hide Inv;
    ZoneFacts(c, s, i);
  }

  // The zones as a pass sees them: zone i in the state in which the pass gets to it.
  function AsSeen(seen: seq<State>): (zones: seq<Zone>)
    requires forall i :: 0 <= i < |seen| ==> |seen[i].zones| == |seen|
    ensures |zones| == |seen| && forall i :: 0 <= i < |seen| ==> zones[i] == seen[i].zones[i]
  {
    seq(|seen|, i requires 0 <= i < |seen| => seen[i].zones[i])
  }

  /** Whatever happens while a pass is under way, it is right exactly when no zone that is still
      being written when the pass gets to it lies behind one that was due when the pass got there. */
  lemma FlagIsSafeIff(c: Config, seen: seq<State>)
    requires forall i :: 0 <= i < |seen| ==> Reachable(c, seen[i]) && |seen[i].zones| == |seen|
    ensures (forall i :: 0 <= i < |seen| ==> (Acts(AsSeen(seen), i) <==> Due(AsSeen(seen)[i])))
       <==> !exists i, j :: 0 <= i < j < |seen| && Due(AsSeen(seen)[i]) && StillWriting(AsSeen(seen)[j])
  {
    hide Inv, Reachable, Due, Considered, StillWriting, Acts;
    var zones := AsSeen(seen);
    forall j | 0 <= j < |seen|
      ensures Considered(zones[j]) && !Due(zones[j]) <==> StillWriting(zones[j])
    {
      ReachableInv(c, seen[j]);
      ConsideredNotDue(c, seen[j], j);
    }
    FlagIsExactIff(zones);
  }

  // What the closing branch does to a zone that is not due: its condition stays as it was.
  function CloseAnyway(s: State, z: nat): State
    requires z < |s.zones|
  {
    s.(zones := s.zones[z := s.zones[z].(phase := Full)], full := s.full + [z])
  }

  /** Such a close puts a zone with writes in flight on the full list, which no run of the
      machine does: the collector could pick it as its victim. */
  lemma CloseAnywayBreaks(c: Config, s: State, z: nat)
    requires Inv(c, s) && z < |s.zones| && StillWriting(s.zones[z])
    ensures z in CloseAnyway(s, z).full && CloseAnyway(s, z).zones[z].pending > 0
    ensures !Inv(c, CloseAnyway(s, z))
  {
    hide Inv, ZoneCounts;
    var s' := CloseAnyway(s, z);
    assert s'.full[|s.full|] == z;
    if Inv(c, s') {
      ZoneFacts(c, s', z);
      assert false;
    }
  }

  // ------------------------------------------------------------- a reachable example

  // One block per zone, so that every write fills its zone.
  const TINY := Config(1, 3, 1, 2)

  // A zone whose one block has been allocated, and the same zone once the write is complete.
  const BEING_WRITTEN := Zone(ToFull, CondOpen, 1, 1, 1, 1, map[], [])

  function Complete(b: nat): Zone {
    Zone(ToFull, CondFull, 1, 1, 0, 0, map[0 := b], [0])
  }

  lemma FirstDone() returns (s: State)
    ensures Still(TINY, s)
    ensures s == State([Complete(0), FRESH, FRESH], [1, 2], [], [None], map[0 := Pbid(0, 0)], map[], map[], IDLE, None,
                       2, 1, 0, 0, 0)
  {
    hide Inv, WellFormed, Reachable;
    var s0 := Start(TINY);
    assert Allotted(TINY, s0, 0, 0, 0).zones[0] == BEING_WRITTEN;
    s := WriteBlock(TINY, s0, 0, 0, 0);
    assert s.zones[0] == Complete(0) && s.zones[1] == FRESH && s.zones[2] == FRESH;
    assert s.empty == [1, 2] && s.active == [None];
  }

  lemma SecondIssued() returns (s: State)
    ensures Reachable(TINY, s) && s.zones == [Complete(0), BEING_WRITTEN, FRESH]
  {
    hide Inv, WellFormed, Reachable;
    var s0 := FirstDone();
    s := IssueBlock(TINY, s0, 1, 0, 0);
  }

  /** Two writes, the first complete and the second in flight, and the pass closes both zones. */
  lemma FlagClosesTooMuch() returns (c: Config, s: State)
    ensures Reachable(c, s) && |s.zones| == 3
    ensures Due(s.zones[0]) && StillWriting(s.zones[1]) && Acts(s.zones, 1)
    ensures !Inv(c, CloseAnyway(s, 1))
  {
    hide Inv, Reachable, CloseAnyway;
    c := TINY;
    s := SecondIssued();
    ReachableInv(c, s);
    CloseAnywayBreaks(c, s, 1);
  }

  // From there the pass closes zone 0, and a write fills zone 1 before the pass gets to it.
  lemma WriteOvertakes(s: State) returns (run: seq<Label>, s': State)
    requires Reachable(TINY, s) && WellFormed(TINY, s)
    requires s == State([Complete(0), FRESH, FRESH], [1, 2], [], [None], map[0 := Pbid(0, 0)], map[], map[], IDLE, None,
                        2, 1, 0, 0, 0)
    ensures Run(TINY, s, [LClose(0)] + run) == Some(s') && Reachable(TINY, s')
    ensures |s'.zones| == 3 && s'.zones[1] == BEING_WRITTEN
  {
    hide Inv, WellFormed, Reachable, Run;
    var s1 := ReachStep(TINY, s, LClose(0));
    OneStep(TINY, s, LClose(0));
    run, s' := SecondWrite(s1);
    RunConcat(TINY, s, [LClose(0)], s1, run);
  }

  lemma SecondWrite(s: State) returns (run: seq<Label>, s': State)
    requires Reachable(TINY, s) && WellFormed(TINY, s) && s.zones[1..] == [FRESH, FRESH] && |s.zones| == 3
    requires s.empty == [1, 2] && s.active == [None] && s.ios == map[] && s.tree == map[] && s.sched == IDLE
    requires s.allocable == 2
    ensures Run(TINY, s, run) == Some(s') && Reachable(TINY, s')
    ensures |s'.zones| == 3 && s'.zones[1] == BEING_WRITTEN
  {
    hide Inv, WellFormed, Reachable, Run;
    var s2 := ReachStep(TINY, s, LSubmit(1, 1, 0));
    var s3 := ReachStep(TINY, s2, LInsert(1));
    assert s3.ios == map[1 := Writer(1, 0, Alloc({}))];
    assert s.zones[1] == s.zones[1..][0];
    s' := ReachStep(TINY, s3, LTryAlloc(1, 0));
    run := [LSubmit(1, 1, 0), LInsert(1), LTryAlloc(1, 0)];
    hide Enabled, Apply;
    ThreeSteps(TINY, s, run, s2, s3);
  }

  lemma ThreeSteps(c: Config, s: State, run: seq<Label>, s1: State, s2: State)
    requires |run| == 3 && WellFormed(c, s) && Enabled(c, s, run[0]) && s1 == Apply(c, s, run[0])
    requires WellFormed(c, s1) && Enabled(c, s1, run[1]) && s2 == Apply(c, s1, run[1])
    requires WellFormed(c, s2) && Enabled(c, s2, run[2])
    ensures Run(c, s, run) == Some(Apply(c, s2, run[2]))
  {
    hide WellFormed, Enabled, Apply;
    assert run[1..][1..] == [run[2]];
    OneStep(c, s2, run[2]);
  }

  /** A pass that starts in a state in which the flag would do no harm, and that closes a zone
      still being written all the same: it became so while the pass was under way. */
  lemma FlagOutrun() returns (seen: seq<State>, run: seq<Label>)
    ensures |seen| == 3 && forall i :: 0 <= i < 3 ==> Reachable(TINY, seen[i]) && |seen[i].zones| == 3
    ensures forall i :: 0 <= i < 3 ==> (Acts(seen[0].zones, i) <==> Due(seen[0].zones[i]))
    ensures Run(TINY, seen[0], [LClose(0)] + run) == Some(seen[1]) && seen[2] == seen[1]
    ensures Due(AsSeen(seen)[0]) && StillWriting(AsSeen(seen)[1]) && Acts(AsSeen(seen), 1)
    ensures !Inv(TINY, CloseAnyway(seen[1], 1))
  {
    hide Inv, Reachable, CloseAnyway, Run;
    var s := FirstDone();
    var s';
    run, s' := WriteOvertakes(s);
    seen := [s, s', s'];
    ReachableInv(TINY, s');
    CloseAnywayBreaks(TINY, s', 1);
  }
}
