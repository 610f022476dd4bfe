/**
 * Splitting a request of more than one block and collecting the completions of its pieces.
 * The submitting loop and the completions interleave freely: a piece may complete before the
 * next one is cut off.
 */
module LongBio {
  import opened Machine

  // What the loop cuts off at a time: the eight sectors of a 4 KiB block.
  const MAX: nat := 8

  datatype Piece = Piece(sector: nat, len: nat)

  // ------------------------------------------------------------------------ the split

  function Pieces(sector: nat, len: nat): (p: seq<Piece>)
    decreases len
  {
    if len <= MAX then [Piece(sector, len)]
    else [Piece(sector, MAX)] + Pieces(sector + MAX, len - MAX)
  }

  // The while loop: pieces are cut off the front, and what is left goes last.
  method Split(sector: nat, len: nat) returns (pieces: seq<Piece>)
    ensures pieces == Pieces(sector, len)
  {
    pieces := [];
    var next: nat, left: nat := sector, len;
    while left > MAX
      invariant pieces + Pieces(next, left) == Pieces(sector, len)
      decreases left
    {
      pieces := pieces + [Piece(next, MAX)];
      next, left := next + MAX, left - MAX;
    }
    pieces := pieces + [Piece(next, left)];
  }

  lemma {:induction false} PieceAt(sector: nat, len: nat, i: nat)
    requires 0 < len
    ensures |Pieces(sector, len)| == (len - 1) / MAX + 1
    ensures i < |Pieces(sector, len)| ==>
      Pieces(sector, len)[i] == Piece(sector + MAX * i, if len - MAX * i < MAX then len - MAX * i else MAX)
    decreases len
  {
    if len > MAX { PieceAt(sector + MAX, len - MAX, if i > 0 then i - 1 else 0); }
  }

  predicate Inside(p: Piece, x: nat) {
    p.sector <= x < p.sector + p.len
  }

  /** The pieces tile the request: a sector lies in piece i exactly when it lies in the request and
      is in its i-th group of eight. */
  lemma PiecesTile(sector: nat, len: nat, x: nat, i: nat)
    requires 0 < len && i < |Pieces(sector, len)|
    ensures 0 < Pieces(sector, len)[i].len <= 8
    ensures Inside(Pieces(sector, len)[i], x) <==> sector <= x < sector + len && (x - sector) / 8 == i
    ensures sector <= x < sector + len ==> (x - sector) / 8 < |Pieces(sector, len)|
  {
    PieceAt(sector, len, i);
  }

  predicate OneBlock(p: Piece) {
    p.len > 0 ==> p.sector / 8 == (p.sector + p.len - 1) / 8
  }

  /** Every piece lies in one block exactly when the request's first block is not crossed: the
      loop counts sectors from the start of the request, not from a block boundary. */
  lemma PiecesInOneBlockIff(sector: nat, len: nat)
    requires 0 < len
    ensures (forall i :: 0 <= i < |Pieces(sector, len)| ==> OneBlock(Pieces(sector, len)[i]))
       <==> sector % 8 + (if len < 8 then len else 8) <= 8
  {
    PieceAt(sector, len, 0);
    if sector % MAX + (if len < MAX then len else MAX) <= MAX {
      forall i | 0 <= i < |Pieces(sector, len)|
        ensures OneBlock(Pieces(sector, len)[i])
      {
        PieceAt(sector, len, i);
      }
    } else {
      assert !OneBlock(Pieces(sector, len)[0]);
    }
  }

  /** The device announces logical blocks of eight sectors, so that a request starts at a block
      boundary; then piece i is block number i of the request and nothing but that block. */
  lemma AlignedPieces(sector: nat, len: nat, i: nat)
    requires 0 < len && sector % 8 == 0 && i < |Pieces(sector, len)|
    ensures var p := Pieces(sector, len)[i];
            OneBlock(p) && p.sector % 8 == 0 && p.sector / 8 == sector / 8 + i
  {
    PieceAt(sector, len, i);
    PiecesInOneBlockIff(sector, len);
  }

  // A request of two blocks that starts in the middle of one, as the queue limits exclude: its
  // first piece lies in two blocks.
  lemma UnalignedPieces()
    ensures Pieces(4, 16) == [Piece(4, 8), Piece(12, 8)]
    ensures !OneBlock(Pieces(4, 16)[0]) && !OneBlock(Pieces(4, 16)[1])
  {
    assert Pieces(12, 8) == [Piece(12, 8)];
  }

  // ------------------------------------------------------------------- the completions

  datatype PieceState = InFlight | Ended(failed: bool)

  // next and left: the part of the user's bio not yet cut off.  remaining: the counter the
  // pieces share; a short request has none and completes with its only piece.  status: the
  // error mark of the user's bio; lower layers write it only on failure.
  datatype Bio = Bio(long: bool, next: nat, left: nat, submitted: bool, pieces: seq<Piece>, st: seq<PieceState>,
                     remaining: int, status: bool, completions: nat, reported: Option<bool>)

  function Start(sector: nat, len: nat): Bio {
    Bio(len > MAX, sector, len, false, [], [], 1, false, 0, None)
  }

  datatype Step = Cut | Last | End(i: nat, failed: bool)

  predicate Enabled(b: Bio, e: Step) {
    match e
    case Cut => !b.submitted && b.left > MAX
    case Last => !b.submitted && b.left <= MAX
    case End(i, _) => i < |b.st| && b.st[i].InFlight?
  }

  // The user's completion, with the error mark of the user's bio.
  function Complete(b: Bio): Bio {
    b.(completions := b.completions + 1, reported := Some(b.status))
  }

  function Apply(b: Bio, e: Step): Bio
    requires Enabled(b, e)
  {
    match e
    case Cut =>
      b.(next := b.next + MAX, left := b.left - MAX, pieces := b.pieces + [Piece(b.next, MAX)], st := b.st + [InFlight],
         remaining := b.remaining + 1)
    case Last =>
      b.(submitted := true, pieces := b.pieces + [Piece(b.next, b.left)], st := b.st + [InFlight])
    case End(i, failed) =>
      var b1 := b.(st := b.st[i := Ended(failed)], status := b.status || failed);
      if b.long then
        var b2 := b1.(remaining := b.remaining - 1);
        if b2.remaining == 0 then Complete(b2) else b2
      else Complete(b1)
  }

  // None when some step was not enabled.
  function Run(b: Bio, steps: seq<Step>): (r: Option<Bio>)
    decreases |steps|
  {
    if steps == [] then Some(b)
    else if Enabled(b, steps[0]) then Run(Apply(b, steps[0]), steps[1..])
    else None
  }

  function Flying(st: seq<PieceState>): (n: nat)
    ensures n == 0 <==> forall i :: 0 <= i < |st| ==> st[i].Ended?
  {
    if st == [] then 0 else Flying(st[..|st| - 1]) + if st[|st| - 1].InFlight? then 1 else 0
  }

  lemma FlyingSnoc(st: seq<PieceState>)
    ensures Flying(st + [InFlight]) == Flying(st) + 1
  {
    assert (st + [InFlight])[..|st|] == st;
  }

  lemma {:induction false} FlyingEnd(st: seq<PieceState>, i: nat, failed: bool)
    requires i < |st| && st[i].InFlight?
    ensures Flying(st[i := Ended(failed)]) == Flying(st) - 1
  {
    var last := |st| - 1;
    if i < last {
      FlyingEnd(st[..last], i, failed);
      assert st[i := Ended(failed)][..last] == st[..last][i := Ended(failed)];
    } else {
      assert st[i := Ended(failed)][..last] == st[..last];
    }
  }

  predicate SomeFailed(st: seq<PieceState>) {
    exists i :: 0 <= i < |st| && st[i].Ended? && st[i].failed
  }

  ghost predicate AllDone(b: Bio) {
    b.submitted && Flying(b.st) == 0
  }

  ghost predicate Ok(sector: nat, len: nat, b: Bio) {
    && b.long == (len > MAX)
    && |b.st| == |b.pieces|
    && Pieces(sector, len) == b.pieces + (if b.submitted then [] else Pieces(b.next, b.left))
    && (b.long ==> b.remaining == Flying(b.st) + if b.submitted then 0 else 1)
    && (!b.long ==> (if b.submitted then |b.st| == 1 else b.left <= MAX && b.st == []))
    && (b.status <==> SomeFailed(b.st))
    && b.completions == (if AllDone(b) then 1 else 0)
    && b.reported == (if AllDone(b) then Some(b.status) else None)
  }

  lemma CutKeepsOk(sector: nat, len: nat, b: Bio)
    requires Ok(sector, len, b) && Enabled(b, Cut)
    ensures Ok(sector, len, Apply(b, Cut))
  {
    hide SomeFailed, Flying;
    FlyingSnoc(b.st);
    SameFailures(b.st);
    var rest := Pieces(b.next + MAX, b.left - MAX);
    assert Pieces(b.next, b.left) == [Piece(b.next, MAX)] + rest;
    assert b.pieces + ([Piece(b.next, MAX)] + rest) == (b.pieces + [Piece(b.next, MAX)]) + rest;
  }

  lemma LastKeepsOk(sector: nat, len: nat, b: Bio)
    requires Ok(sector, len, b) && Enabled(b, Last)
    ensures Ok(sector, len, Apply(b, Last))
  {
    hide SomeFailed;
    FlyingSnoc(b.st);
    SameFailures(b.st);
    assert Pieces(b.next, b.left) == [Piece(b.next, b.left)];
    hide Pieces, Flying;
    var b' := Apply(b, Last);
    assert b'.pieces + [] == b'.pieces;
    assert Flying(b'.st) > 0;
  }

  lemma SameFailures(st: seq<PieceState>)
    ensures SomeFailed(st + [InFlight]) <==> SomeFailed(st)
  {
    if SomeFailed(st) {
      var i :| 0 <= i < |st| && st[i].Ended? && st[i].failed;
      assert (st + [InFlight])[i].failed;
    }
  }

  lemma EndFailures(st: seq<PieceState>, i: nat, failed: bool)
    requires i < |st| && st[i].InFlight?
    ensures SomeFailed(st[i := Ended(failed)]) <==> SomeFailed(st) || failed
  {
    var st' := st[i := Ended(failed)];
    if SomeFailed(st) {
      var j :| 0 <= j < |st| && st[j].Ended? && st[j].failed;
      assert st'[j].failed;
    }
    if failed { assert st'[i].failed; }
  }

  lemma EndKeepsOk(sector: nat, len: nat, b: Bio, i: nat, failed: bool)
    requires Ok(sector, len, b) && Enabled(b, End(i, failed))
    ensures Ok(sector, len, Apply(b, End(i, failed)))
  {
    FlyingEnd(b.st, i, failed);
    EndFailures(b.st, i, failed);
  }

  lemma StepKeepsOk(sector: nat, len: nat, b: Bio, e: Step)
    requires Ok(sector, len, b) && Enabled(b, e)
    ensures Ok(sector, len, Apply(b, e))
  {
    match e
    case Cut => CutKeepsOk(sector, len, b);
    case Last => LastKeepsOk(sector, len, b);
    case End(i, failed) => EndKeepsOk(sector, len, b, i, failed);
  }

  lemma {:induction false} RunKeepsOk(sector: nat, len: nat, b: Bio, steps: seq<Step>)
    requires Ok(sector, len, b) && Run(b, steps).Some?
    ensures Ok(sector, len, Run(b, steps).value)
    decreases |steps|
  {
    hide Ok, Apply;
    if steps != [] {
      StepKeepsOk(sector, len, b, steps[0]);
      RunKeepsOk(sector, len, Apply(b, steps[0]), steps[1..]);
    }
  }

  /** Safety over every interleaving: the user's completion never runs twice, runs only once every
      piece of the request has been issued and has ended, and carries an error exactly when some
      piece failed. */
  lemma CompletionIsSafe(sector: nat, len: nat, steps: seq<Step>)
    requires Run(Start(sector, len), steps).Some?
    ensures var b := Run(Start(sector, len), steps).value;
      && b.completions <= 1
      && (b.completions == 1 <==> b.pieces == Pieces(sector, len) && forall i :: 0 <= i < |b.st| ==> b.st[i].Ended?)
      && (b.completions == 1 ==> b.reported == Some(exists i :: 0 <= i < |b.st| && b.st[i].Ended? && b.st[i].failed))
      && |b.st| == |b.pieces| <= |Pieces(sector, len)|
  {
    RunKeepsOk(sector, len, Start(sector, len), steps);
    var b := Run(Start(sector, len), steps).value;
    if !b.submitted { assert |Pieces(b.next, b.left)| > 0; }
  }

  // Two steps for each piece.
  ghost function Left(sector: nat, len: nat, b: Bio): (n: int) {
    2 * (|Pieces(sector, len)| - |b.pieces|) + Flying(b.st)
  }

  lemma StepCounts(sector: nat, len: nat, b: Bio, e: Step)
    requires Ok(sector, len, b) && Enabled(b, e)
    ensures Left(sector, len, Apply(b, e)) == Left(sector, len, b) - 1
  {
    match e
    case End(i, failed) => FlyingEnd(b.st, i, failed);
    case _ => FlyingSnoc(b.st);
  }

  lemma {:induction false} RunCounts(sector: nat, len: nat, b: Bio, steps: seq<Step>)
    requires Ok(sector, len, b) && Run(b, steps).Some?
    ensures Left(sector, len, Run(b, steps).value) == Left(sector, len, b) - |steps|
    decreases |steps|
  {
    hide Ok, Apply;
    if steps != [] {
      StepCounts(sector, len, b, steps[0]);
      StepKeepsOk(sector, len, b, steps[0]);
      RunCounts(sector, len, Apply(b, steps[0]), steps[1..]);
    }
  }

  lemma SomeFlying(st: seq<PieceState>) returns (i: nat)
    requires Flying(st) > 0
    ensures i < |st| && st[i].InFlight?
  {
    i :| 0 <= i < |st| && st[i].InFlight?;
  }

  /** Liveness: a run has no step left exactly when it has made two for each piece, and then the
      user's completion has run exactly once. */
  lemma CompletionHappens(sector: nat, len: nat, steps: seq<Step>)
    requires Run(Start(sector, len), steps).Some?
    ensures var b := Run(Start(sector, len), steps).value;
      && |steps| <= 2 * |Pieces(sector, len)|
      && (b.completions == 1 <==> |steps| == 2 * |Pieces(sector, len)|)
      && (b.completions == 0 <==> exists e :: Enabled(b, e))
  {
    RunKeepsOk(sector, len, Start(sector, len), steps);
    RunCounts(sector, len, Start(sector, len), steps);
    CompletionIsSafe(sector, len, steps);
    var b := Run(Start(sector, len), steps).value;
    if b.submitted {
      if Flying(b.st) > 0 {
        var i := SomeFlying(b.st);
        assert Enabled(b, End(i, false));
      }
    } else {
      assert Enabled(b, if b.left > MAX then Cut else Last);
      assert |Pieces(b.next, b.left)| > 0;
    }
  }
}
