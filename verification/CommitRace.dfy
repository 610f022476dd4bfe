/**
 * The commit of a transaction while writers go on recording blocks and the device goes on with its
 * work.  The commit walks the chain of pages without the lock that writers take: it reads a page's
 * entry count once, when it gets to the page, and an entry added to that page afterwards is passed
 * over and dropped with the chain.
 */
module CommitRace {
  import opened Machine
  import opened Invariant
  import opened Frames
  import opened MapSteps
  import opened Runs
  import opened Paging
  import opened NatSit
  import Tables

  /** The walk has reached entry next of page number page, of which it read that it holds count.
      reached are the blocks unmapped so far, and late those added to a page behind its count.
      trace holds the steps of the device, the walk's own discards among them, and bound the blocks
      of which a write has completed and that nobody has unmapped since. */
  datatype Walk = Walk(pages: seq<seq<Word>>, page: nat, count: nat, next: nat, reached: seq<Word>, late: seq<Word>,
                       ended: bool, s: State, trace: seq<Label>, bound: set<nat>)

  // The walk, a writer that records a block, or a step of the device.
  datatype Move = Reach | Turn | End | Add(b: Word) | Dev(l: Label)

  function Begin(pages: seq<seq<Word>>, s: State): Walk
    requires pages != []
  {
    Walk(pages, 0, |pages[0]|, 0, [], [], false, s, [], {})
  }

  ghost predicate CanMove(c: Config, w: Walk, m: Move) {
    !w.ended && match m
                case Reach => w.next < w.count && w.page < |w.pages| && w.next < |w.pages[w.page]| && WellFormed(c, w.s)
                case Turn => w.next == w.count && w.page + 1 < |w.pages|
                case End => w.next == w.count && w.page + 1 == |w.pages|
                case Add(_) => w.pages != []
                case Dev(l) => Enabled(c, w.s, l)
  }

  // The walk's discard of b; a recorded block outside the device is not mapped anyway.
  function Discarding(c: Config, b: Word): seq<Label> {
    if b < c.blocks then [LDiscard(b)] else []
  }

  // The blocks still bound after a step of the device.
  function BoundBy(s: State, bound: set<nat>, l: Label): set<nat> {
    if l.LEndio? && CanEndio(s, l.t) then bound + {s.ios[l.t].blk}
    else if l.LDiscard? then bound - {l.b}
    else bound
  }

  // A writer's entry goes to the last page, or to a new one if that is full.
  ghost function Moved(c: Config, entries: nat, w: Walk, m: Move): Walk
    requires CanMove(c, w, m)
  {
    match m
    case Reach =>
      var b := w.pages[w.page][w.next];
      w.(reached := w.reached + [b], next := w.next + 1, s := Unmap(c, w.s, b),
         trace := w.trace + Discarding(c, b), bound := w.bound - {b})
    case Turn => w.(page := w.page + 1, count := |w.pages[w.page + 1]|, next := 0)
    case End => w.(ended := true)
    case Add(b) =>
      var last := |w.pages| - 1;
      if |w.pages[last]| == entries then w.(pages := w.pages + [[b]])
      else w.(pages := w.pages[last := w.pages[last] + [b]], late := if last == w.page then w.late + [b] else w.late)
    case Dev(l) => w.(s := Apply(c, w.s, l), trace := w.trace + [l], bound := BoundBy(w.s, w.bound, l))
  }

  ghost function WalkOn(c: Config, entries: nat, w: Walk, run: seq<Move>): Option<Walk>
    decreases |run|
  {
    if run == [] then Some(w)
    else if CanMove(c, w, run[0]) then WalkOn(c, entries, Moved(c, entries, w, run[0]), run[1..])
    else None
  }

  // The entries recorded so far: reached, late, or still ahead of the walk.
  ghost predicate Accounted(w: Walk) {
    && w.page < |w.pages| && w.next <= w.count <= |w.pages[w.page]|
    && multiset(Flatten(w.pages))
       == multiset(w.reached) + multiset(w.late) + multiset(w.pages[w.page][w.next..w.count])
          + multiset(Flatten(w.pages[w.page + 1..]))
    && (w.ended ==> w.next == w.count && w.page + 1 == |w.pages|)
  }

  ghost predicate Unmapped(c: Config, s0: State, w: Walk) {
    Inv(c, s0) && w.s == UnmapAll(c, s0, w.reached)
  }

  /** The device has taken a run of the machine, and of the blocks reached exactly those are mapped
      of which a write has completed after the walk came by. */
  ghost predicate Followed(c: Config, s0: State, w: Walk) {
    && Inv(c, w.s) && Run(c, s0, w.trace) == Some(w.s)
    && forall b <- w.reached :: b in w.s.mapping <==> b in w.bound
  }

  // What a step of the device makes of the mapping.
  lemma StepBinds(c: Config, s: State, l: Label)
    requires Inv(c, s) && Enabled(c, s, l)
    ensures Apply(c, s, l).mapping.Keys == BoundBy(s, s.mapping.Keys, l)
  {
    hide Inv, WellFormed, Endio, Unmap, Reset;
    if l.LEndio? {
      LandedFacts(c, s, l.t);
      MappedThere(c, s, s.ios[l.t].blk);
      Tables.EndioTables(c, s, l.t);
    } else if l.LDiscard? {
      UnmapEffect(c, s, l.b);
    } else if l.LReset? {
      Tables.ResetTables(c, s, l.z);
    } else {
      Tables.OtherTables(c, s, l);
      hide Enabled, Apply;
    }
  }

  lemma MappedThere(c: Config, s: State, b: nat)
    requires Inv(c, s)
    ensures b in s.mapping ==> b < c.blocks && s.mapping[b].zone < |s.zones|
  {
    assert Holds(MapsPart, c, s);
  }

  lemma DevFollowed(c: Config, entries: nat, s0: State, w: Walk, l: Label)
    requires Followed(c, s0, w) && CanMove(c, w, Dev(l))
    ensures Followed(c, s0, Moved(c, entries, w, Dev(l)))
  {
    assert WellFormed(c, w.s);
    hide Inv, Enabled, Apply, Run;
    StepKeepsInv(c, w.s, l);
    StepBinds(c, w.s, l);
    OneStep(c, w.s, l);
    RunConcat(c, s0, w.trace, w.s, [l]);
  }

  lemma ReachFollowed(c: Config, entries: nat, s0: State, w: Walk)
    requires Followed(c, s0, w) && CanMove(c, w, Reach)
    ensures Followed(c, s0, Moved(c, entries, w, Reach))
  {
    hide Inv, WellFormed, Run, Unmap;
    var b := w.pages[w.page][w.next];
    UnmapInv(c, w.s, b);
    UnmapEffect(c, w.s, b);
    MappedThere(c, w.s, b);
    if b < c.blocks {
      Discarded(c, w.s, b);
      RunConcat(c, s0, w.trace, w.s, [LDiscard(b)]);
    } else {
      UnmapNothing(c, w.s, b);
      assert w.trace + [] == w.trace;
    }
  }

  lemma Discarded(c: Config, s: State, b: nat)
    requires WellFormed(c, s) && b < c.blocks
    ensures Run(c, s, [LDiscard(b)]) == Some(Unmap(c, s, b))
  {
    hide WellFormed;
    OneStep(c, s, LDiscard(b));
  }

  lemma UnmapNothing(c: Config, s: State, b: nat)
    requires WellFormed(c, s) && b !in s.mapping
    ensures Unmap(c, s, b) == s
  {
  }

  lemma {:induction false} FlattenCons(page: seq<Word>, pages: seq<seq<Word>>)
    ensures Flatten([page] + pages) == page + Flatten(pages)
    decreases |pages|
  {
    if pages == [] {
      assert [page] + pages == [page] && [page][..0] == [];
    } else {
      var all, k := [page] + pages, |pages| - 1;
      assert all[..|all| - 1] == [page] + pages[..k];
      FlattenCons(page, pages[..k]);
    }
  }

  lemma BeginAccounted(c: Config, pages: seq<seq<Word>>, s: State)
    requires pages != [] && Inv(c, s)
    ensures Accounted(Begin(pages, s)) && Unmapped(c, s, Begin(pages, s)) && Followed(c, s, Begin(pages, s))
  {
    hide Inv;
    EmptyRun(c, s);
    assert pages == [pages[0]] + pages[1..] && pages[0][0..|pages[0]|] == pages[0];
    FlattenCons(pages[0], pages[1..]);
    UnmapNone(c, s);
  }

  lemma ReachAccounted(c: Config, entries: nat, w: Walk)
    requires Accounted(w) && CanMove(c, w, Reach)
    ensures Accounted(Moved(c, entries, w, Reach))
  {
    hide WellFormed, Unmap, Flatten;
    var p := w.pages[w.page];
    assert p[w.next..w.count] == [p[w.next]] + p[w.next + 1..w.count];
  }

  lemma TurnAccounted(c: Config, entries: nat, w: Walk)
    requires Accounted(w) && CanMove(c, w, Turn)
    ensures Accounted(Moved(c, entries, w, Turn))
  {
    hide Flatten, WellFormed;
    var rest := w.pages[w.page + 1..];
    assert rest == [rest[0]] + rest[1..] && rest[1..] == w.pages[w.page + 2..];
    FlattenCons(rest[0], rest[1..]);
    assert rest[0][0..|rest[0]|] == rest[0];
    assert w.pages[w.page][w.next..w.count] == [];
  }

  lemma AddAccounted(c: Config, entries: nat, w: Walk, b: Word)
    requires Accounted(w) && CanMove(c, w, Add(b))
    ensures Accounted(Moved(c, entries, w, Add(b)))
  {
    hide Flatten, WellFormed;
    var last, w' := |w.pages| - 1, Moved(c, entries, w, Add(b));
    var rest, rest' := w.pages[w.page + 1..], w'.pages[w.page + 1..];
    if |w.pages[last]| == entries {
      FlattenSnoc(w.pages, [b]);
      FlattenSnoc(rest, [b]);
      assert rest' == rest + [[b]];
    } else {
      GrownAccounted(w, b);
    }
  }

  lemma GrownAccounted(w: Walk, b: Word)
    requires Accounted(w) && w.pages != [] && !w.ended
    ensures var last := |w.pages| - 1;
            Accounted(w.(pages := w.pages[last := w.pages[last] + [b]],
                         late := if last == w.page then w.late + [b] else w.late))
  {
    hide Flatten;
    var last := |w.pages| - 1;
    var pages := w.pages[last := w.pages[last] + [b]];
    var rest, rest' := w.pages[w.page + 1..], pages[w.page + 1..];
    FlattenLast(w.pages, pages, b);
    if last == w.page {
      assert rest' == rest == [];
      assert pages[last][w.next..w.count] == w.pages[last][w.next..w.count];
    } else {
      assert rest'[..|rest| - 1] == rest[..|rest| - 1];
      FlattenLast(rest, rest', b);
    }
  }

  lemma MoveAccounted(c: Config, entries: nat, s0: State, w: Walk, m: Move)
    requires Accounted(w) && Followed(c, s0, w) && CanMove(c, w, m)
    ensures Accounted(Moved(c, entries, w, m)) && Followed(c, s0, Moved(c, entries, w, m))
    ensures Unmapped(c, s0, w) && !m.Dev? ==> Unmapped(c, s0, Moved(c, entries, w, m))
  {
    hide Inv, WellFormed, Unmap, UnmapAll, Accounted, Enabled, Apply, Run;
    match m
    case Reach =>
      ReachAccounted(c, entries, w);
      ReachFollowed(c, entries, s0, w);
      if Unmapped(c, s0, w) { UnmapAllSnoc(c, s0, w.reached, w.pages[w.page][w.next]); }
    case Turn => TurnAccounted(c, entries, w);
    case End => EndAccounted(c, entries, w);
    case Add(b) => AddAccounted(c, entries, w, b);
    case Dev(l) =>
      DevAccounted(c, entries, w, l);
      DevFollowed(c, entries, s0, w, l);
  }

  lemma DevAccounted(c: Config, entries: nat, w: Walk, l: Label)
    requires Accounted(w) && CanMove(c, w, Dev(l))
    ensures Accounted(Moved(c, entries, w, Dev(l)))
  {
    hide Flatten, Enabled, Apply;
  }

  lemma EndAccounted(c: Config, entries: nat, w: Walk)
    requires Accounted(w) && CanMove(c, w, End)
    ensures Accounted(Moved(c, entries, w, End))
  {
    hide Flatten;
  }

  lemma {:induction false} WalkAccounted(c: Config, entries: nat, s0: State, w: Walk, run: seq<Move>)
    requires Accounted(w) && Followed(c, s0, w) && WalkOn(c, entries, w, run).Some?
    ensures var last := WalkOn(c, entries, w, run).value;
            && Accounted(last) && Followed(c, s0, last)
            && (Unmapped(c, s0, w) && (forall m <- run :: !m.Dev?) ==> Unmapped(c, s0, last))
    decreases |run|
  {
    hide Accounted, Unmapped, Followed, CanMove, Moved;
    if run != [] {
      MoveAccounted(c, entries, s0, w, run[0]);
      WalkAccounted(c, entries, s0, Moved(c, entries, w, run[0]), run[1..]);
    }
  }

  /** However writers and the device interleave with the commit: what the device does is a run of
      the machine in which the walk discards the entries it reaches, in order, and a block reached is
      mapped afterwards exactly when a write of it has completed since.  At its end every entry of the
      chain has been reached or came late; so none is lost exactly when none was added to the page at
      hand behind its count.  If the device rests, the commit unmaps exactly the entries reached. */
  lemma CommitReachesAllIff(c: Config, entries: nat, pages: seq<seq<Word>>, s: State, run: seq<Move>)
    requires pages != [] && Inv(c, s)
    ensures var last := WalkOn(c, entries, Begin(pages, s), run);
            last.Some? && last.value.ended ==>
              var w := last.value;
              && Inv(c, w.s) && Run(c, s, w.trace) == Some(w.s)
              && (forall b <- w.reached :: b in w.s.mapping <==> b in w.bound)
              && ((forall m <- run :: !m.Dev?) ==> w.s == UnmapAll(c, s, w.reached))
              && multiset(Flatten(w.pages)) == multiset(w.reached) + multiset(w.late)
              && (multiset(w.reached) == multiset(Flatten(w.pages)) <==> w.late == [])
  {
    hide Inv, UnmapAll, Flatten, CanMove, Moved, Begin, Run;
    BeginAccounted(c, pages, s);
    var last := WalkOn(c, entries, Begin(pages, s), run);
    if last.Some? && last.value.ended {
      WalkAccounted(c, entries, s, Begin(pages, s), run);
      var w := last.value;
      EmptyChain(w.pages[w.page + 1..]);
      assert w.pages[w.page][w.next..w.count] == [];
      if w.late != [] { assert multiset(w.late)[w.late[0]] > 0; }
    }
  }

  lemma EmptyChain(pages: seq<seq<Word>>)
    ensures pages == [] ==> Flatten(pages) == []
  {
  }

  /** An entry that is lost: it is added to the only page behind its count. */
  lemma LateEntryLost(c: Config, s: State)
    requires Inv(c, s)
    ensures var last := WalkOn(c, 1000, Begin([[5]], s), [Add(7), Reach, End]);
            last.Some? && last.value.ended && last.value.pages == [[5, 7]]
            && last.value.reached == [5] && last.value.late == [7]
  {
    hide Inv, WellFormed, Unmap;
    InvShape(c, s);
    var run := [Add(7), Reach, End];
    assert run[1..] == [Reach, End] && run[1..][1..] == [End] && run[1..][1..][1..] == [];
    var w := Moved(c, 1000, Begin([[5]], s), Add(7));
    assert w.pages[0] == [5, 7] && w.pages == [w.pages[0]];
  }
}
