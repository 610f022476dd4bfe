/**
 * A discard that does not last, in a run of the device.  Block 0 is written twice, which fills a
 * zone of two blocks; the collector takes that zone and its GC task has passed its re-check when
 * the block is discarded.
 */
module LostDiscard {
  import opened Machine
  import opened Invariant
  import opened Runs
  import opened Placement
  import opened Scenes
  import opened Refinement
  import opened Discards

  const SMALL := Config(2, 3, 1, 1)

  // Two writes of block 0 fill zone 0 and leave one valid block in it.
  lemma FirstWrite() returns (s: State)
    ensures Still(SMALL, s)
    ensures s == State([Zone(Active(0), CondOpen, 1, 1, 1, 0, map[0 := 0], [7]), FRESH, FRESH], [1, 2], [], [Some(0)],
                       map[0 := Pbid(0, 0)], map[], map[], IDLE, None, 5, 1, 0, 0, 0)
  {
    hide Inv, WellFormed, Reachable;
    var s0 := Start(SMALL);
    s := WriteBlock(SMALL, s0, 0, 7, 0);
    assert s.zones[0] == Zone(Active(0), CondOpen, 1, 1, 1, 0, map[0 := 0], [7]);
    assert s.zones[1] == FRESH && s.zones[2] == FRESH && s.empty == [1, 2] && s.active == [Some(0)];
  }

  lemma SecondWrite() returns (s: State)
    ensures Still(SMALL, s)
    ensures s == State([Zone(ToFull, CondFull, 2, 1, 0, 0, map[1 := 0], [7, 8]), FRESH, FRESH], [1, 2], [], [None],
                       map[0 := Pbid(0, 1)], map[], map[], IDLE, None, 4, 1, 0, 0, 0)
  {
    hide Inv, WellFormed, Reachable;
    var s0 := FirstWrite();
    s := WriteBlock(SMALL, s0, 0, 8, 0);
    assert s.zones[0] == Zone(ToFull, CondFull, 2, 1, 0, 0, map[1 := 0], [7, 8]);
    assert s.zones[1] == FRESH && s.zones[2] == FRESH && s.active == [None] && s.mapping == map[0 := Pbid(0, 1)];
  }

  function Copier(d: Page, st: Status): Io {
    Task(Mover, 0, d, Pbid(0, 1), st, None, if InTree(st) then 2 else 1)
  }

  // The collector has issued a GC task for it.
  lemma Collected() returns (s: State)
    ensures Reachable(SMALL, s) && WellFormed(SMALL, s)
    ensures s == State([Zone(Gc, CondClosed, 2, 1, 2, 0, map[1 := 0], [7, 8]), FRESH, FRESH], [1, 2], [], [None],
                       map[0 := Pbid(0, 1)], map[1 := Copier(0, Reading)], map[], IDLE, Some(Scan(0, 2, true)),
                       4, 1, 0, 0, 1)
  {
    hide Inv, WellFormed, Reachable;
    var s0 := SecondWrite();
    var s1 := ReachStep(SMALL, s0, LClose(0));
    assert s1.full == [0];
    var s2 := ReachStep(SMALL, s1, LSelect(0));
    assert s2.full == [];
    var s3 := ReachStep(SMALL, s2, LVisit(1));
    s := ReachStep(SMALL, s3, LVisit(1));
  }

  // The GC task has its page and is in the worker's hand.
  lemma TakenUp() returns (s: State)
    ensures Reachable(SMALL, s) && WellFormed(SMALL, s)
    ensures s.mapping == map[0 := Pbid(0, 1)] && s.tree == map[] && s.ios == map[1 := Copier(8, ReadDone)]
    ensures InTurn(s.sched, 1)
  {
    hide Inv, WellFormed, Reachable;
    var s0 := Collected();
    var s1 := ReachStep(SMALL, s0, LMoveRead(1));
    var s2 := ReachStep(SMALL, s1, LTakeWrites);
    var s3 := ReachStep(SMALL, s2, LTakeCopies);
    s := ReachStep(SMALL, s3, LNext);
    assert s.ios == map[1 := Copier(8, ReadDone)];
  }

  // It has the tree slot and has passed its re-check.
  lemma PastRecheck() returns (s: State)
    ensures Reachable(SMALL, s) && WellFormed(SMALL, s)
    ensures s.mapping == map[0 := Pbid(0, 1)] && s.tree == map[0 := 1] && s.ios == map[1 := Copier(8, Alloc({}))]
  {
    hide Inv, WellFormed, Reachable;
    var s0 := TakenUp();
    var s1 := ReachStep(SMALL, s0, LInsert(1));
    assert s1.ios == map[1 := Copier(8, Inserted)];
    s := ReachStep(SMALL, s1, LRecheck(1));
  }

  /** A reachable state of a small device and a run from its discard of block 0 after which the
      block has its page again, although nothing has written it. */
  lemma DiscardUndone() returns (s: State, run: seq<Label>, s': State)
    ensures Reachable(SMALL, s) && WellFormed(SMALL, s) && NoGhost(s) && 0 in s.mapping && !DiscardSafe(s, 0)
    ensures Run(SMALL, Unmap(SMALL, s, 0), run) == Some(s') && NoDiscards(run)
    ensures Readable(s) && Readable(s') && 0 in Abs(s).blocks && 0 in Abs(s').blocks
    ensures Abs(s').blocks[0] == Abs(s).blocks[0]
  {
    hide Inv, WellFormed, Reachable, Sound, Run, Abs, Readable, Unmap, SpecRun;
    s := PastRecheck();
    ReachableSound(SMALL, s);
    run, s' := UnsafeComesBack(SMALL, s, 0);
  }
}
