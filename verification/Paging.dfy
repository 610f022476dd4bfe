/**
 * A table of unsigned ints kept in pages of equal size, as the partial map that
 * holds its entries other than the "unmapped" mark.
 */
module Paging {
  import opened Division

  // The C code's unsigned int, and its mark for an unmapped block, which is the largest of them.  What
  // the tables promise is stated with the number itself.
  type Word = x: int | 0 <= x <= 0xFFFF_FFFF
  const INVALID: Word := 0xFFFF_FFFF

  ghost predicate Paged(pages: seq<seq<Word>>, size: nat, max: nat)
  {
    size > 0 && |pages| == Ceil(max, size) && forall k :: 0 <= k < |pages| ==> |pages[k]| == size
  }

  ghost function Slot(pages: seq<seq<Word>>, size: nat, b: nat): (p: Word)
    requires size > 0 && 0 <= b / size < |pages| && b % size < |pages[b / size]|
  {
    pages[b / size][b % size]
  }

  ghost function Stored(pages: seq<seq<Word>>, size: nat, b: nat, pbid: Word): (next: seq<seq<Word>>)
    requires size > 0 && 0 <= b / size < |pages| && b % size < |pages[b / size]|
  {
    var page: seq<Word> := pages[b / size][b % size := pbid];
    pages[b / size := page]
  }

  // The flat map that the leaves' pages hold.
  ghost function Flat(pages: seq<seq<Word>>, size: nat, max: nat): (m: map<nat, Word>)
    requires Paged(pages, size, max)
  {
    map b: nat | b < max && (DivBelow(b, max, size); Slot(pages, size, b) != 0xFFFF_FFFF) ::
      (DivBelow(b, max, size); Slot(pages, size, b))
  }

  /** Writing one slot changes that block's entry and no other. */
  lemma OneSlot(pages: seq<seq<Word>>, size: nat, max: nat, b: nat, pbid: Word)
    requires Paged(pages, size, max) && b < max && 0 <= b / size < |pages|
    ensures Paged(Stored(pages, size, b, pbid), size, max)
    ensures Flat(Stored(pages, size, b, pbid), size, max)
      == if pbid == 0xFFFF_FFFF then Flat(pages, size, max) - {b} else Flat(pages, size, max)[b := pbid]
  {
    var next := Stored(pages, size, b, pbid);
    forall d: nat | d < max
      ensures 0 <= d / size < |pages|
      ensures Slot(next, size, d) == if d == b then pbid else Slot(pages, size, d)
    {
      DivBelow(d, max, size);
      DivMod(d, size);
      DivMod(b, size);
    }
  }

  // Pages that hold only the mark hold nothing.
  lemma NothingMapped(pages: seq<seq<Word>>, size: nat, max: nat)
    requires Paged(pages, size, max)
    requires forall k, x :: 0 <= k < |pages| && 0 <= x < size ==> pages[k][x] == INVALID
    ensures Flat(pages, size, max) == map[]
  {
    forall b: nat | b < max
      ensures 0 <= b / size < |pages| && Slot(pages, size, b) == INVALID
    {
      DivBelow(b, max, size);
      DivMod(b, size);
    }
  }
}
