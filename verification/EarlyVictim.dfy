/**
 * A victim chosen between the two halves that cannot be afforded, in a run of the device with two
 * zones of two blocks.  Moving the one valid block of zone 0 takes the last block there is; zone 1,
 * whose one valid block would need another, is chosen before zone 0's blocks are credited.
 */
module EarlyVictim {
  import opened Machine
  import opened Invariant
  import opened Runs
  import opened Placement
  import opened Scenes
  import opened ResetHalves
  import opened EarlyReset
  import opened Starvation

  // ------------------------------------------------------------------------------ a run

  // Two zones of two blocks, and two logical blocks.
  const PAIR := Config(2, 2, 1, 2)

  // Blocks 0 and 1 are written, which fills zone 0, and the zone is put on the full list.
  lemma FirstWritten() returns (s: State)
    ensures Still(PAIR, s)
    ensures s == State([Zone(Active(0), CondOpen, 1, 1, 1, 0, map[0 := 0], [7]), FRESH], [1], [], [Some(0)],
                       map[0 := Pbid(0, 0)], map[], map[], IDLE, None, 3, 1, 0, 0, 0)
  {
    hide Inv, WellFormed, Reachable;
    var s0 := Start(PAIR);
    s := WriteBlock(PAIR, s0, 0, 7, 0);
    assert s.zones[0] == Zone(Active(0), CondOpen, 1, 1, 1, 0, map[0 := 0], [7]) && s.zones[1] == FRESH;
    assert s.empty == [1] && s.active == [Some(0)];
  }

  lemma SecondWritten() returns (s: State)
    ensures Still(PAIR, s)
    ensures s == State([Zone(ToFull, CondFull, 2, 2, 0, 0, map[0 := 0, 1 := 1], [7, 7]), FRESH], [1], [], [None],
                       map[0 := Pbid(0, 0), 1 := Pbid(0, 1)], map[], map[], IDLE, None, 2, 2, 0, 0, 0)
  {
    hide Inv, WellFormed, Reachable;
    var s0 := FirstWritten();
    s := WriteBlock(PAIR, s0, 1, 7, 0);
    assert s.zones[0] == Zone(ToFull, CondFull, 2, 2, 0, 0, map[0 := 0, 1 := 1], [7, 7]) && s.zones[1] == FRESH;
    assert s.active == [None];
  }

  // Zone 0 is put on the full list.
  lemma ZoneListed() returns (s: State)
    ensures Still(PAIR, s)
    ensures s == State([Zone(Full, CondClosed, 2, 2, 0, 0, map[0 := 0, 1 := 1], [7, 7]), FRESH], [1], [0], [None],
                       map[0 := Pbid(0, 0), 1 := Pbid(0, 1)], map[], map[], IDLE, None, 2, 2, 0, 0, 0)
  {
    hide Inv, WellFormed, Reachable;
    var s0 := SecondWritten();
    s := ReachStep(PAIR, s0, LClose(0));
  }

  // Block 0 is written again, into zone 1.
  lemma Rewritten() returns (s: State)
    ensures Still(PAIR, s)
    ensures s == State([Zone(Full, CondClosed, 2, 1, 0, 0, map[1 := 1], [7, 7]),
                        Zone(Active(0), CondOpen, 1, 1, 1, 0, map[0 := 0], [7])], [], [0], [Some(1)],
                       map[0 := Pbid(1, 0), 1 := Pbid(0, 1)], map[], map[], IDLE, None, 1, 2, 0, 0, 0)
  {
    hide Inv, WellFormed, Reachable;
    var s0 := ZoneListed();
    s := WriteBlock(PAIR, s0, 0, 7, 0);
    assert s.zones[0] == Zone(Full, CondClosed, 2, 1, 0, 0, map[1 := 1], [7, 7]);
    assert s.zones[1] == Zone(Active(0), CondOpen, 1, 1, 1, 0, map[0 := 0], [7]);
    assert s.empty == [] && s.active == [Some(1)] && s.mapping == map[0 := Pbid(1, 0), 1 := Pbid(0, 1)];
  }

  function Copier(d: Page, st: Status): Io {
    Task(Mover, 1, d, Pbid(0, 1), st, None, if InTree(st) then 2 else 1)
  }

  // The collector takes zone 0, whose one valid block gets a GC task.
  lemma Collected() returns (s: State)
    ensures Reachable(PAIR, s) && WellFormed(PAIR, s)
    ensures s == State([Zone(Gc, CondClosed, 2, 1, 1, 0, map[1 := 1], [7, 7]),
                        Zone(Active(0), CondOpen, 1, 1, 1, 0, map[0 := 0], [7])], [], [], [Some(1)],
                       map[0 := Pbid(1, 0), 1 := Pbid(0, 1)], map[1 := Copier(0, Reading)], map[], IDLE,
                       Some(Scan(0, 2, false)), 1, 2, 0, 0, 1)
  {
    hide Inv, WellFormed, Reachable;
    var s0 := Rewritten();
    var s1 := ReachStep(PAIR, s0, LSelect(0));
    assert s1.full == [];
    var s2 := ReachStep(PAIR, s1, LVisit(1));
    var s3 := ReachStep(PAIR, s2, LVisit(1));
    s := ReachStep(PAIR, s3, LEndScan);
  }

  // Its page is read and it is in the worker's hand.
  lemma TakenUp() returns (s: State)
    ensures Reachable(PAIR, s) && WellFormed(PAIR, s)
    ensures s == State([Zone(Gc, CondClosed, 2, 1, 1, 0, map[1 := 1], [7, 7]),
                        Zone(Active(0), CondOpen, 1, 1, 1, 0, map[0 := 0], [7])], [], [], [Some(1)],
                       map[0 := Pbid(1, 0), 1 := Pbid(0, 1)], map[1 := Copier(7, ReadDone)], map[],
                       IDLE.(pass := Copies, busy := Some(1), turns := map[1 := Going({})]),
                       Some(Scan(0, 2, false)), 1, 2, 0, 0, 1)
  {
    hide Inv, WellFormed, Reachable;
    var s0 := Collected();
    var s1 := ReachStep(PAIR, s0, LMoveRead(1));
    assert s1.ios == map[1 := Copier(7, ReadDone)];
    var s2 := ReachStep(PAIR, s1, LTakeWrites);
    var s3 := ReachStep(PAIR, s2, LTakeCopies);
    s := ReachStep(PAIR, s3, LNext);
  }

  // It takes the last block.
  lemma CopyIssued() returns (s: State)
    ensures Reachable(PAIR, s) && WellFormed(PAIR, s)
    ensures s == State([Zone(Gc, CondClosed, 2, 1, 1, 0, map[1 := 1], [7, 7]),
                        Zone(ToFull, CondOpen, 2, 2, 1, 1, map[0 := 0], [7])], [], [], [None],
                       map[0 := Pbid(1, 0), 1 := Pbid(0, 1)], map[1 := Copier(7, Writing(1))], map[1 := 1],
                       IDLE.(pass := Copies), Some(Scan(0, 2, false)), 0, 3, 0, 0, 1)
  {
    hide Inv, WellFormed, Reachable;
    var s0 := TakenUp();
    var s1 := ReachStep(PAIR, s0, LInsert(1));
    var s2 := ReachStep(PAIR, s1, LRecheck(1));
    assert s2.ios == map[1 := Copier(7, Alloc({}))] && s2.tree == map[1 := 1];
    s := ReachStep(PAIR, s2, LTryAlloc(1, 0));
    assert s.sched.turns == map[];
  }

  lemma CopyLanded() returns (s: State)
    ensures Reachable(PAIR, s) && WellFormed(PAIR, s)
    ensures s == State([Zone(Gc, CondClosed, 2, 1, 1, 0, map[1 := 1], [7, 7]),
                        Zone(ToFull, CondOpen, 2, 2, 1, 1, map[0 := 0], [7, 7])], [], [], [None],
                       map[0 := Pbid(1, 0), 1 := Pbid(0, 1)], map[1 := Copier(7, Landed(Pbid(1, 1)))], map[1 := 1],
                       IDLE.(pass := Copies), Some(Scan(0, 2, false)), 0, 3, 0, 0, 1)
  {
    hide Inv, WellFormed, Reachable;
    var s0 := CopyIssued();
    s := ReachStep(PAIR, s0, LAppend(1));
    assert s.ios == map[1 := Copier(7, Landed(Pbid(1, 1)))] && s.zones[1].data == [7, 7];
  }

  lemma CopyBound() returns (s: State)
    ensures Reachable(PAIR, s) && WellFormed(PAIR, s)
    ensures s == State([Zone(Gc, CondClosed, 2, 0, 1, 0, map[], [7, 7]),
                        Zone(ToFull, CondFull, 2, 2, 0, 0, map[0 := 0, 1 := 1], [7, 7])], [], [], [None],
                       map[0 := Pbid(1, 0), 1 := Pbid(1, 1)],
                       map[1 := Task(Mover, 1, 7, Pbid(0, 1), Finishing, None, 1)], map[],
                       IDLE.(pass := Copies), Some(Scan(0, 2, false)), 0, 2, 0, 0, 1)
  {
    hide Inv, WellFormed, Reachable;
    var s0 := CopyLanded();
    s := ReachStep(PAIR, s0, LEndio(1));
    assert s.ios == map[1 := Task(Mover, 1, 7, Pbid(0, 1), Finishing, None, 1)] && s.tree == map[];
    assert s.zones[0].rmap == map[] && s.zones[1].rmap == map[0 := 0, 1 := 1];
  }

  lemma CopyDone() returns (s: State)
    ensures Reachable(PAIR, s) && WellFormed(PAIR, s)
    ensures s == State([Zone(Gc, CondEmpty, 2, 0, 0, 0, map[], [7, 7]),
                        Zone(ToFull, CondFull, 2, 2, 0, 0, map[0 := 0, 1 := 1], [7, 7])], [], [], [None],
                       map[0 := Pbid(1, 0), 1 := Pbid(1, 1)], map[], map[],
                       IDLE.(pass := Copies), Some(Scan(0, 2, false)), 0, 2, 0, 0, 0)
  {
    hide Inv, WellFormed, Reachable;
    var s0 := CopyBound();
    s := ReachStep(PAIR, s0, LFinish(1));
    assert s.ios == map[];
  }

  // Zone 0 is due for its reset, nothing can be allocated, and zone 1 is the next victim.
  lemma NothingLeft() returns (s: State)
    ensures Reachable(PAIR, s) && CanReset(s, 0)
    ensures s == State([Zone(Gc, CondEmpty, 2, 0, 0, 0, map[], [7, 7]),
                        Zone(Full, CondClosed, 2, 1, 0, 0, map[1 := 1], [7, 7])], [], [1], [None],
                       map[1 := Pbid(1, 1)], map[], map[], IDLE.(pass := Copies), Some(Scan(0, 2, false)),
                       0, 1, 0, 0, 0)
  {
    hide Inv, WellFormed, Reachable;
    var s0 := CopyDone();
    var s1 := ReachStep(PAIR, s0, LClose(1));
    s := ReachStep(PAIR, s1, LDiscard(0));
    assert s.zones[1].rmap == map[1 := 1] && s.full == [1] && s.mapping == map[1 := Pbid(1, 1)];
  }

  /** A run from the empty device: the reset of zone 0 begins, zone 1 is chosen although it holds
      more valid blocks than can be allocated, and a GC-flagged attempt fails for which no stream
      has room. */
  lemma EarlyVictimStarves() returns (run: seq<Step>, h: Half, t: nat)
    ensures HalfRun(PAIR, Half(Initial(PAIR), None), run) == Some(h)
    ensures exists i :: 0 <= i < |run| && run[i] == Unflag(0)
    ensures CanStep(PAIR, h, Do(LTryAlloc(t, 0))) && Fails(h, Do(LTryAlloc(t, 0)))
    ensures forall k: nat :: k < PAIR.streams ==> !HasRoom(h.s, k)
  {
    hide WellFormed, HalfRun, Sparing, Sound, HasRoom, Reachable;
    var s := NothingLeft();
    var u := Unflagged(PAIR, s, 0);
    var e := ChoiceOpen(s);
    var labels, s', t' := UnaffordableStarves(PAIR, u, 0, 1);
    t := t';
    run, h := TwoHalves(s, labels, s', t');
  }

  lemma ChoiceOpen(s: State) returns (e: Step)
    requires Reachable(PAIR, s) && CanReset(s, 0)
    requires s.full == [1] && |s.zones| == 2 && s.zones[1].weight == 1 && s.ios == map[] && s.allocable == 0
    ensures var u := Unflagged(PAIR, s, 0);
            && WellFormed(PAIR, u) && Enabled(PAIR, u, LSelect(1)) && NoneTried(u.ios) && !Affordable(u, 1)
            && Sound(PAIR, Credited(PAIR, u, 0)) && e == Do(LSelect(1))
  {
    hide Sound, WellFormed, Inv;
    e := Do(LSelect(1));
    ReachableSound(PAIR, s);
    ResetSound(PAIR, s, 0);
    Halves(PAIR, s, 0);
    SoundShape(PAIR, Credited(PAIR, Unflagged(PAIR, s, 0), 0));
    FormedWithout(PAIR, Unflagged(PAIR, s, 0), 0);
  }

  lemma FormedWithout(c: Config, s: State, z: nat)
    requires WellFormed(c, Credited(c, s, z))
    ensures WellFormed(c, s)
  {
    hide InRange;
    assert forall i :: 0 <= i < |s.empty| ==> (s.empty + [z])[i] == s.empty[i];
  }

  lemma TwoHalves(s: State, labels: seq<Label>, s': State, t: nat) returns (run: seq<Step>, h: Half)
    requires Reachable(PAIR, s) && CanReset(s, 0)
    requires var u := Unflagged(PAIR, s, 0);
             && WellFormed(PAIR, u) && Enabled(PAIR, u, LSelect(1))
             && Run(PAIR, Apply(PAIR, u, LSelect(1)), labels) == Some(s') && Doomed(PAIR, s', t)
    requires forall i :: 0 <= i < |labels| ==> Inner(labels[i])
    ensures HalfRun(PAIR, Half(Initial(PAIR), None), run) == Some(h) && h == Half(s', Some(0))
    ensures exists i :: 0 <= i < |run| && run[i] == Unflag(0)
    ensures CanStep(PAIR, h, Do(LTryAlloc(t, 0))) && Fails(h, Do(LTryAlloc(t, 0)))
  {
    hide WellFormed, Enabled, Apply, Reachable, HasRoom, Run, Unflagged, HalfRun, Sparing;
    var u := Unflagged(PAIR, s, 0);
    var before := Splits(s);
    var e := Do(LTryAlloc(t, 0));
    InnerHalfRun(PAIR, Apply(PAIR, u, LSelect(1)), 0, labels, s', e);
    h := Half(s', Some(0));
    FirstTwo(s, u);
    var middle := [Unflag(0), Do(LSelect(1))];
    PlainConcat(PAIR, Half(Initial(PAIR), None), before, Half(s, None), middle);
    var chosen := Half(Apply(PAIR, u, LSelect(1)), Some(0));
    PlainConcat(PAIR, Half(Initial(PAIR), None), before + middle, chosen, Dos(labels));
    run := before + middle + Dos(labels);
    assert run[|before|] == Unflag(0);
  }

  lemma Splits(s: State) returns (before: seq<Step>)
    requires Reachable(PAIR, s)
    ensures HalfRun(PAIR, Half(Initial(PAIR), None), before) == Some(Half(s, None))
  {
    hide HalfRun, Sparing, Run;
    var run :| Run(PAIR, Initial(PAIR), run) == Some(s);
    before := EveryRunSplits(PAIR, Initial(PAIR), run);
  }

  lemma FirstTwo(s: State, u: State)
    requires CanReset(s, 0) && u == Unflagged(PAIR, s, 0) && WellFormed(PAIR, u) && Enabled(PAIR, u, LSelect(1))
    ensures HalfRun(PAIR, Half(s, None), [Unflag(0), Do(LSelect(1))]) == Some(Half(Apply(PAIR, u, LSelect(1)), Some(0)))
  {
    hide WellFormed, Enabled, Apply, Unflagged;
    assert [Unflag(0), Do(LSelect(1))][1..] == [Do(LSelect(1))] && [Do(LSelect(1))][1..] == [];
  }

  lemma {:induction false} PlainConcat(c: Config, h: Half, a: seq<Step>, h1: Half, b: seq<Step>)
    requires HalfRun(c, h, a) == Some(h1)
    ensures HalfRun(c, h, a + b) == HalfRun(c, h1, b)
    decreases |a|
  {
    hide CanStep, After;
    if a == [] {
      assert a + b == b;
    } else {
      assert (a + b)[1..] == a[1..] + b;
      PlainConcat(c, After(c, h, a[0]), a[1..], h1, b);
    }
  }
}
