/**
 * Runs with discards anywhere.  A discard that meets a GC write past its re-check may be
 * undone by that write's completion; nothing else can happen to it.
 */
module Discards {
  import opened Machine
  import opened Invariant
  import opened Frames
  import opened Runs
  import opened Guarantees
  import opened Placement
  import opened MapSteps
  import opened ZoneSteps
  import opened Refinement

  // The page that the last effective discard took from each block.
  function Lost(a: Spec, lost: map<nat, Page>, l: Label): (lost': map<nat, Page>) {
    if l.LDiscard? && l.b in a.blocks then lost[l.b := a.blocks[l.b]] else lost
  }

  // A step of an array whose discards are not final: the completion of a GC write may bring
  // back the page last discarded from an unmapped block.
  ghost predicate LooseStep(a: Spec, lost: map<nat, Page>, l: Label, a': Spec) {
    a' == SpecStep(a, l)
    || (l.LEndio? && l.t !in a.writes && exists b :: b in lost && b !in a.blocks && a' == Revived(a, lost, b))
  }

  function Revived(a: Spec, lost: map<nat, Page>, b: nat): Spec
    requires b in lost
  {
    a.(blocks := a.blocks[b := lost[b]])
  }

  ghost predicate LooseRun(a: Spec, lost: map<nat, Page>, run: seq<Label>, a': Spec)
    decreases |run|
  {
    if run == [] then a' == a
    else exists mid :: LooseStep(a, lost, run[0], mid) && LooseRun(mid, Lost(a, lost, run[0]), run[1..], a')
  }

  // What a GC task would bring back is what was lost.
  ghost predicate Remembered(s: State, lost: map<nat, Page>) {
    forall t :: Ghost(s, t) ==> s.ios[t].blk in lost && lost[s.ios[t].blk] == s.ios[t].data
  }

  // A GC task past its re-check holds the page its block maps to.
  lemma PastHolds(c: Config, s: State, t: nat, b: nat)
    requires Inv(c, s) && Readable(s) && Past(s.ios, t, b)
    ensures b in s.mapping ==> b in Abs(s).blocks && Abs(s).blocks[b] == s.ios[t].data
    ensures b !in s.mapping ==> b !in Abs(s).blocks && Ghost(s, t)
  {
    hide Inv;
    TaskFacts(c, s, t);
  }

  lemma StepRemembers(c: Config, s: State, l: Label, lost: map<nat, Page>)
    requires Inv(c, s) && Enabled(c, s, l) && Readable(s) && Remembered(s, lost)
    ensures Remembered(Apply(c, s, l), Lost(Abs(s), lost, l))
  {
    hide Inv, WellFormed, Apply, Enabled, Abs, Readable;
    InvShape(c, s);
    OnlyRecheckPasses(c, s, l);
    MappingGrows(c, s, l);
    var s', lost' := Apply(c, s, l), Lost(Abs(s), lost, l);
    forall t | Ghost(s', t)
      ensures s'.ios[t].blk in lost' && lost'[s'.ios[t].blk] == s'.ios[t].data
    {
      var b := s'.ios[t].blk;
      assert Past(s'.ios, t, b);
      RecheckKeepsMapping(c, s, l);
      assert Past(s.ios, t, b) && s'.ios[t].data == s.ios[t].data;
      PastHolds(c, s, t, b);
    }
  }

  lemma RecheckKeepsMapping(c: Config, s: State, l: Label)
    requires WellFormed(c, s) && Enabled(c, s, l)
    ensures l.LRecheck? ==> Apply(c, s, l).mapping == s.mapping
  {
    hide WellFormed;
  }

  /** Every step, discards and their undoing included, is a step of the loose array. */
  lemma StepIsLoose(c: Config, s: State, l: Label, lost: map<nat, Page>)
    requires Inv(c, s) && Enabled(c, s, l) && Remembered(s, lost)
    ensures Readable(s) && Readable(Apply(c, s, l)) && LooseStep(Abs(s), lost, l, Abs(Apply(c, s, l)))
  {
    InvReadable(c, s);
    if l.LEndio? && Ghost(s, l.t) {
      var b := s.ios[l.t].blk;
      assert b in lost && lost[b] == s.ios[l.t].data;
      hide Inv, WellFormed, Endio, Remembered, Readable;
      EndioAbs(c, s, l.t);
      LandedAbs(c, s, l.t);
      PastHolds(c, s, l.t, b);
      hide Abs;
      assert Abs(Apply(c, s, l)) == Revived(Abs(s), lost, b);
    } else {
      hide Inv, WellFormed, Apply, Enabled, Abs, Readable, Ghost, Remembered;
      StepRefines(c, s, l);
    }
  }

  /** Every run of the device, with discards anywhere in it, is a run of the loose array. */
  lemma {:induction false} RunIsLoose(c: Config, s: State, lost: map<nat, Page>, run: seq<Label>)
    requires Inv(c, s) && Remembered(s, lost)
    ensures Run(c, s, run).Some? ==>
              && Readable(s) && Readable(Run(c, s, run).value)
              && LooseRun(Abs(s), lost, run, Abs(Run(c, s, run).value))
    decreases |run|
  {
    hide Inv, WellFormed, Abs, Readable, Apply, Enabled, LooseStep, Remembered, Lost;
    InvReadable(c, s);
    if run != [] && WellFormed(c, s) && Enabled(c, s, run[0]) {
      StepKeepsInv(c, s, run[0]);
      StepIsLoose(c, s, run[0], lost);
      StepRemembers(c, s, run[0], lost);
      RunIsLoose(c, Apply(c, s, run[0]), Lost(Abs(s), lost, run[0]), run[1..]);
    }
  }

  // The reads in flight that have found block b in the plain array.
  function ReadsOn(x: Spec, on: set<nat>, l: Label, b: nat): set<nat> {
    match l
    case LLookup(r, y) => if y == b && b in x.blocks then on + {r} else on - {r}
    case LReadEndio(r) => on - {r}
    case _ => on
  }

  function ReadsAfter(x: Spec, on: set<nat>, run: seq<Label>, b: nat): set<nat>
    decreases |run|
  {
    if run == [] then on else ReadsAfter(SpecStep(x, run[0]), ReadsOn(x, on, run[0], b), run[1..], b)
  }

  // Both arrays say the same of block b.
  ghost predicate SameBlock(a: Spec, x: Spec, b: nat) {
    (b in a.blocks <==> b in x.blocks) && (b in a.blocks ==> a.blocks[b] == x.blocks[b])
  }

  // Both arrays agree on block b, on the reads of it in flight and on the writes in flight.
  ghost predicate Agree(a: Spec, x: Spec, b: nat, on: set<nat>) {
    && a.writes == x.writes && SameBlock(a, x, b)
    && forall r <- on :: r in a.fetches && r in x.fetches && a.fetches[r] == x.fetches[r]
  }

  lemma StepAgrees(a: Spec, x: Spec, lost: map<nat, Page>, l: Label, a': Spec, b: nat, on: set<nat>)
    requires LooseStep(a, lost, l, a') && Agree(a, x, b, on) && b !in lost && l != LDiscard(b)
    ensures Agree(a', SpecStep(x, l), b, ReadsOn(x, on, l, b)) && b !in Lost(a, lost, l)
  {
  }

  /** In a loose run, a block that is never discarded, and every read of it, is exactly what the
      plain array says. */
  lemma {:induction false} UndiscardedIsExact(a: Spec, x: Spec, lost: map<nat, Page>, run: seq<Label>, a': Spec, b: nat,
                                              on: set<nat>)
    requires LooseRun(a, lost, run, a') && Agree(a, x, b, on) && b !in lost
    requires forall i :: 0 <= i < |run| ==> run[i] != LDiscard(b)
    ensures Agree(a', SpecRun(x, run), b, ReadsAfter(x, on, run, b))
    decreases |run|
  {
    hide LooseStep, Agree, Lost, SpecStep, ReadsOn;
    if run != [] {
      var mid :| LooseStep(a, lost, run[0], mid) && LooseRun(mid, Lost(a, lost, run[0]), run[1..], a');
      StepAgrees(a, x, lost, run[0], mid, b, on);
      UndiscardedIsExact(mid, SpecStep(x, run[0]), Lost(a, lost, run[0]), run[1..], a', b, ReadsOn(x, on, run[0], b));
    }
  }

  /** So on the device: whatever else is discarded, a block that is never discarded is what the
      plain array says, and a read of it that completes delivers what the array had at its lookup. */
  lemma UndiscardedBlocks(c: Config, run: seq<Label>, s: State, b: nat)
    requires c.Valid() && Run(c, Initial(c), run) == Some(s)
    requires forall i :: 0 <= i < |run| ==> run[i] != LDiscard(b)
    ensures Readable(s) && SameBlock(Abs(s), SpecRun(Spec(map[], map[], map[]), run), b)
    ensures forall r <- ReadsAfter(Spec(map[], map[], map[]), {}, run, b) ::
              && r in SpecRun(Spec(map[], map[], map[]), run).fetches
              && (CanReadEndio(s, r) ==>
                    s.ios[r].result == Some(SpecRun(Spec(map[], map[], map[]), run).fetches[r]))
  {
    hide Inv, LooseRun, SpecRun, Run, NoGhost, ReadsAfter;
    InitialInv(c);
    InitialAbs(c);
    RunIsLoose(c, Initial(c), map[], run);
    UndiscardedIsExact(Abs(Initial(c)), Spec(map[], map[], map[]), map[], run, Abs(s), b, {});
  }

  // ------------------------------------------------------- when exactly a discard is final

  predicate NoDiscards(run: seq<Label>) {
    forall i :: 0 <= i < |run| ==> !run[i].LDiscard?
  }

  predicate NeverDiscards(run: seq<Label>, b: nat) {
    forall i :: 0 <= i < |run| ==> run[i] != LDiscard(b)
  }

  /** The discard of b in s is final: however the device goes on, whatever else is discarded, until
      the next discard of b the block, and every read of it made since, is what the plain array
      with b discarded says. */
  ghost predicate DiscardFinal(c: Config, s: State, b: nat)
    requires WellFormed(c, s)
  {
    var d := Unmap(c, s, b);
    forall run :: NeverDiscards(run, b) && Run(c, d, run).Some? ==>
      && Readable(d) && Readable(Run(c, d, run).value)
      && Agree(Abs(Run(c, d, run).value), SpecRun(Abs(d), run), b, ReadsAfter(Abs(d), {}, run, b))
  }

  // The pages that GC tasks still carry of blocks discarded under them.
  ghost function StillHeld(s: State): map<nat, Page> {
    map b | b in s.tree && Ghost(s, s.tree[b]) && s.ios[s.tree[b]].blk == b :: s.ios[s.tree[b]].data
  }

  lemma HeldIsRemembered(c: Config, s: State)
    requires Inv(c, s)
    ensures Remembered(s, StillHeld(s))
  {
    hide Inv, Past;
    TreeOwner(c, s);
  }

  lemma SafeNotHeld(c: Config, s: State, b: nat)
    requires Inv(c, s) && DiscardSafe(s, b) && WellFormed(c, s)
    ensures b !in StillHeld(Unmap(c, s, b))
  {
    hide Inv, WellFormed, Unmap;
    UnmapKeepsIos(c, s, b);
    UnmapKeepsTree(c, s, b);
  }

  lemma UnmapKeepsTree(c: Config, s: State, b: nat)
    requires WellFormed(c, s)
    ensures Unmap(c, s, b).tree == s.tree && b !in Unmap(c, s, b).mapping
    ensures b !in s.mapping ==> Unmap(c, s, b) == s
  {
    hide WellFormed;
  }

  lemma SafeIsFinal(c: Config, s: State, b: nat)
    requires Inv(c, s) && DiscardSafe(s, b)
    ensures WellFormed(c, s) && DiscardFinal(c, s, b)
  {
    hide Inv, WellFormed, Unmap, Abs, Readable, Run, SpecRun, NeverDiscards, StillHeld, LooseRun, Remembered,
         DiscardSafe, Agree, ReadsAfter;
    InvShape(c, s);
    UnmapInv(c, s, b);
    var d := Unmap(c, s, b);
    HeldIsRemembered(c, d);
    SafeNotHeld(c, s, b);
    forall run | NeverDiscards(run, b) && Run(c, d, run).Some?
      ensures Readable(d) && Readable(Run(c, d, run).value)
      ensures Agree(Abs(Run(c, d, run).value), SpecRun(Abs(d), run), b, ReadsAfter(Abs(d), {}, run, b))
    {
      RunIsLoose(c, d, StillHeld(d), run);
      NeverDiscarded(run, b);
      AgreesWithItself(Abs(d), b);
      UndiscardedIsExact(Abs(d), Abs(d), StillHeld(d), run, Abs(Run(c, d, run).value), b, {});
    }
  }

  lemma NeverDiscarded(run: seq<Label>, b: nat)
    requires NeverDiscards(run, b)
    ensures forall i :: 0 <= i < |run| ==> run[i] != LDiscard(b)
  {
  }

  lemma AgreesWithItself(a: Spec, b: nat)
    ensures Agree(a, a, b, {})
  {
  }

  // The next step of a ghost on its way to the device.
  lemma GhostStep(c: Config, s: State, t: nat) returns (l: Label)
    requires Sound(c, s) && Ghost(s, t) && !s.ios[t].st.Landed?
    ensures WellFormed(c, s) && Enabled(c, s, l) && (l.LTryAlloc? || l.LAppend?)
    ensures var s' := Apply(c, s, l);
            && Ghost(s', t) && s'.ios[t].blk == s.ios[t].blk && s'.ios[t].data == s.ios[t].data
            && Distance(s'.ios[t].st) < Distance(s.ios[t].st)
  {
    hide Inv, Placed, WellFormed, TryAlloc;
    InvShape(c, s);
    if s.ios[t].st.Alloc? {
      MoverInHand(c, s, t);
      var k := ReserveIsEnough(c, s, t);
      l := LTryAlloc(t, k);
      TryAllocShape(c, s, t, k);
    } else {
      l := LAppend(t);
    }
  }

  lemma MoverInHand(c: Config, s: State, t: nat)
    requires Sound(c, s) && t in s.ios && IsMove(s.ios[t]) && s.ios[t].st.Alloc?
    ensures InTurn(s.sched, t) && s.sched.turns[t].failed == s.ios[t].st.tried
  {
    hide Inv, Apart;
    PlacedParts(c.streams, s.ios, s.sched);
    assert FaceOf(s.ios, t) == Face(Mover, s.ios[t].st) && Somewhere(s.sched, t);
    assert TurnOk(c.streams, FaceOf(s.ios, t), s.sched.turns[t]);
  }

  function Distance(st: Status): nat {
    if st.Alloc? then 2 else if st.Writing? then 1 else 0
  }

  /** A ghost comes to its callback by steps of its own, and brings its page back, while the
      array stays as it was. */
  lemma {:induction false} GhostReturns(c: Config, s: State, t: nat) returns (run: seq<Label>, s': State)
    requires Sound(c, s) && Ghost(s, t)
    ensures Run(c, s, run) == Some(s') && NoDiscards(run)
    ensures Readable(s) && Readable(s') && SpecRun(Abs(s), run) == Abs(s) && s.ios[t].blk !in Abs(s).blocks
    ensures s.ios[t].blk in Abs(s').blocks && Abs(s').blocks[s.ios[t].blk] == s.ios[t].data
    decreases Distance(s.ios[t].st)
  {
    hide Inv, Placed, WellFormed, Abs, Readable, Enabled, Apply, Endio;
    InvReadable(c, s);
    SoundShape(c, s);
    if s.ios[t].st.Landed? {
      GhostUndoesDiscard(c, s, t);
      EndioIsStep(c, s, t);
      OneStep(c, s, LEndio(t));
      run, s' := [LEndio(t)], Endio(c, s, t);
      LandedAbs(c, s, t);
      assert run[1..] == [];
    } else {
      var l := GhostStep(c, s, t);
      StepRefines(c, s, l);
      StepKeepsSound(c, s, l);
      var rest, last := GhostReturns(c, Apply(c, s, l), t);
      run, s' := [l] + rest, last;
      assert run[1..] == rest;
    }
  }

  /** A discard that meets a GC task past its re-check is not final: some run without any further
      discard brings the very page back that was discarded, and the array does not. */
  lemma UnsafeComesBack(c: Config, s: State, b: nat) returns (run: seq<Label>, s': State)
    requires Sound(c, s) && b in s.mapping && !DiscardSafe(s, b)
    ensures WellFormed(c, s) && Run(c, Unmap(c, s, b), run) == Some(s') && NoDiscards(run)
    ensures Readable(s) && Readable(Unmap(c, s, b)) && Readable(s')
    ensures b !in SpecRun(Abs(Unmap(c, s, b)), run).blocks
    ensures b in Abs(s').blocks && b in Abs(s).blocks && Abs(s').blocks[b] == Abs(s).blocks[b]
  {
    hide Inv, Placed, WellFormed, Abs, Readable, Enabled, Apply, Unmap, Ghost, NoGhost, NoDiscards, Run, SpecRun;
    DiscardIsStep(c, s, b);
    StepKeepsSound(c, s, LDiscard(b));
    UnsafeDiscard(c, s, b);
    UnmapKeepsIos(c, s, b);
    InvReadable(c, s);
    var t := s.tree[b];
    PastOwner(c, s, b);
    PastHolds(c, s, t, b);
    run, s' := GhostReturns(c, Unmap(c, s, b), t);
  }

  lemma PastOwner(c: Config, s: State, b: nat)
    requires Inv(c, s) && !DiscardSafe(s, b)
    ensures b in s.tree && s.tree[b] in s.ios && Past(s.ios, s.tree[b], b)
  {
    hide Inv;
    OwnerInTree(c, s);
  }

  // The run that brings block b back after an unsafe discard, mapped at the time or not.
  lemma UnsafeIsNotFinal(c: Config, s: State, b: nat) returns (run: seq<Label>, s': State)
    requires Sound(c, s) && !DiscardSafe(s, b)
    ensures WellFormed(c, s) && Run(c, Unmap(c, s, b), run) == Some(s') && NoDiscards(run)
    ensures Readable(Unmap(c, s, b)) && Readable(s')
    ensures b !in SpecRun(Abs(Unmap(c, s, b)), run).blocks && b in Abs(s').blocks
  {
    hide Inv, Placed, WellFormed, Abs, Readable, Enabled, Apply, Unmap, NoGhost, NoDiscards, Run, SpecRun, DiscardSafe,
         Past;
    SoundShape(c, s);
    if b in s.mapping {
      run, s' := UnsafeComesBack(c, s, b);
    } else {
      UnmapKeepsTree(c, s, b);
      PastOwner(c, s, b);
      PastIsGhost(s, s.tree[b], b);
      run, s' := GhostReturns(c, s, s.tree[b]);
    }
  }

  lemma PastIsGhost(s: State, t: nat, b: nat)
    requires Past(s.ios, t, b) && b !in s.mapping
    ensures Ghost(s, t) && s.ios[t].blk == b
  {
  }

  /** Exactly when a discard is final: no GC task holds the block past its re-check, whatever GC
      tasks hold of blocks discarded before. */
  lemma DiscardFinalIff(c: Config, s: State, b: nat)
    requires Sound(c, s)
    ensures WellFormed(c, s) && (DiscardFinal(c, s, b) <==> DiscardSafe(s, b))
  {
    hide Inv, Placed, WellFormed, Abs, Readable, Unmap, Run, SpecRun, ReadsAfter, DiscardSafe;
    if DiscardSafe(s, b) {
      hide Agree;
      SafeIsFinal(c, s, b);
    } else {
      var run, s' := UnsafeIsNotFinal(c, s, b);
      assert NeverDiscards(run, b) && Run(c, Unmap(c, s, b), run).Some?;
    }
  }
}
