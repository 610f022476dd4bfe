/**
 * The file system's node and segment tables live in pairs of segments, of which one is
 * current.  Writing a block of such a table records its twin in the other segment; the
 * checkpoint that completes the transaction unmaps the recorded twins.
 */
module NatSit {
  import opened Machine
  import opened Counting
  import opened Invariant
  import opened MapSteps
  import opened Placement
  import opened Paging
  import opened Driver

  // Blocks per segment: 2 MiB of 4 KiB blocks.
  const SEGMENT: nat := 512

  // ------------------------------------------------------------------------- the twin

  function ToFree(b: nat): (twin: nat) {
    var segment := b / SEGMENT;
    var other := if segment % 2 == 1 then segment - 1 else segment + 1;
    other * SEGMENT + b % SEGMENT
  }

  // The twin lies one segment up or down within the pair of segments.
  lemma TwinShift(b: nat)
    ensures ToFree(b) == if b % 1024 < 512 then b + 512 else b - 512
  {
  }

  /** Twins come in pairs, no block is its own twin, both are at the same place of neighbouring
      segments, and the twin of an unsigned int is one. */
  lemma TwinPairs(b: nat)
    ensures ToFree(ToFree(b)) == b != ToFree(b)
    ensures ToFree(b) % 512 == b % 512
    ensures ToFree(b) / 1024 == b / 1024
    ensures b <= 0xFFFF_FFFF ==> ToFree(b) <= 0xFFFF_FFFF
  {
    TwinShift(b);
    TwinShift(ToFree(b));
    hide ToFree;
  }

  ghost predicate TwinClosed(lo: nat, hi: nat) {
    forall b: nat :: lo <= b < hi ==> lo <= ToFree(b) < hi
  }

  // A pair of segments stays on one side of a boundary between pairs.
  lemma TwinKeepsSide(b: nat, edge: nat)
    requires edge % 1024 == 0
    ensures ToFree(b) < edge <==> b < edge
  {
    TwinShift(b);
    hide ToFree;
  }

  // A region that ends inside a pair of segments has a block whose twin lies beyond the end.
  lemma Stray(lo: nat, hi: nat) returns (b: nat)
    requires lo < hi && lo % 1024 == 0 && hi % 1024 != 0
    ensures lo <= b < hi <= ToFree(b)
  {
    hide ToFree;
    var p, q, r := lo / 1024, hi / 1024, hi % 1024;
    assert lo == 1024 * p && hi == 1024 * q + r;
    var x := if r <= SEGMENT then 0 else r - SEGMENT;
    b := 1024 * q + x;
    TwinShift(b);
  }

  /** A region that starts at a segment holds the twins of all its blocks exactly when it is
      empty or starts and ends at a pair of segments. */
  lemma TwinClosedIff(lo: nat, hi: nat)
    requires lo % 512 == 0
    ensures TwinClosed(lo, hi) <==> hi <= lo || (lo % 1024 == 0 && hi % 1024 == 0)
  {
    hide ToFree;
    if lo < hi {
      if lo % (2 * SEGMENT) != 0 {
        TwinShift(lo);
      } else if hi % (2 * SEGMENT) != 0 {
        var b := Stray(lo, hi);
      } else {
        forall b: nat | lo <= b < hi
          ensures lo <= ToFree(b) < hi
        {
          TwinKeepsSide(b, lo);
          TwinKeepsSide(b, hi);
        }
      }
    }
  }

  // The layout the file system announces.
  datatype Rule = Rule(cp: nat, sit: nat, nat_: nat, natBlocks: nat)

  // What lbz_nat_sit_add_rule checks.
  predicate Accepted(r: Rule) {
    r.sit % SEGMENT == 0 && r.nat_ % SEGMENT == 0
  }

  predicate IsDup(r: Rule, b: nat) {
    r.sit <= b < r.nat_ + r.natBlocks
  }

  /** An accepted layout whose first table block has its twin outside the tables. */
  lemma AcceptedNotClosed()
    ensures var r := Rule(0, 512, 1536, 1024); Accepted(r) && IsDup(r, 512) && !IsDup(r, ToFree(512))
  {
  }

  // ---------------------------------------------------------- the commit, on the machine

  ghost predicate InDevice(c: Config, blks: seq<nat>) {
    forall i :: 0 <= i < |blks| ==> blks[i] < c.blocks
  }

  // The tables lie in the device and hold the twins of all their blocks.
  ghost predicate TablesFit(r: Rule, blocks: nat) {
    r.nat_ + r.natBlocks <= blocks && TwinClosed(r.sit, r.nat_ + r.natBlocks)
  }

  // Then every twin is a block of the device.
  lemma TwinInDevice(r: Rule, blocks: nat, b: nat)
    requires TablesFit(r, blocks) && IsDup(r, b)
    ensures ToFree(b) < blocks && IsDup(r, ToFree(b))
  {
    hide ToFree;
  }

  function Members(blks: seq<nat>): (m: set<nat>) {
    set b | b in blks
  }

  // Unmapping one block after another.
  ghost function UnmapAll(c: Config, s: State, blks: seq<nat>): (s': State)
    requires Inv(c, s)
    ensures Inv(c, s')
  {
    if blks == [] then s else
      var before := UnmapAll(c, s, blks[..|blks| - 1]);
      UnmapInv(c, before, blks[|blks| - 1]);
      Unmap(c, before, blks[|blks| - 1])
  }

  /** A commit unmaps exactly the recorded blocks, gives up exactly one valid block for each
      that was mapped, and touches neither the allocator's lists nor any operation in flight. */
  lemma {:induction false} UnmapAllExact(c: Config, s: State, blks: seq<nat>)
    requires Inv(c, s)
    ensures var s' := UnmapAll(c, s, blks);
      && s'.mapping == s.mapping - Members(blks)
      && s'.valid == s.valid - |s.mapping.Keys * Members(blks)|
      && s'.allocable == s.allocable && s'.ios == s.ios && s'.tree == s.tree && s'.gc == s.gc
      && s'.empty == s.empty && s'.full == s.full && s'.active == s.active
  {
    hide Inv, Unmap, UnmapAll, WellFormed, Members;
    if blks == [] {
      UnmapNone(c, s);
      assert s.mapping.Keys * {} == {};
    } else {
      var b, rest := blks[|blks| - 1], blks[..|blks| - 1];
      UnmapAllExact(c, s, rest);
      assert blks == rest + [b];
      UnmapAllSnoc(c, s, rest, b);
      UnmapEffect(c, UnmapAll(c, s, rest), b);
      MembersSnoc(rest, b);
      MeetSnoc(s.mapping.Keys, Members(rest), b);
      RemoveSnoc(s.mapping, Members(rest), b);
    }
  }

  lemma UnmapNone(c: Config, s: State)
    requires Inv(c, s)
    ensures UnmapAll(c, s, []) == s && Members([]) == {}
  {
    hide Inv;
  }

  lemma UnmapAllSnoc(c: Config, s: State, rest: seq<nat>, b: nat)
    requires Inv(c, s)
    ensures WellFormed(c, UnmapAll(c, s, rest))
    ensures UnmapAll(c, s, rest + [b]) == Unmap(c, UnmapAll(c, s, rest), b)
  {
    hide Unmap;
    MappedRange(c, UnmapAll(c, s, rest), b);
    hide Inv, WellFormed;
    var blks := rest + [b];
    assert blks[..|blks| - 1] == rest && blks[|blks| - 1] == b;
  }

  lemma UnmapEffect(c: Config, s: State, b: nat)
    requires WellFormed(c, s)
    ensures var s' := Unmap(c, s, b);
      && s'.mapping == s.mapping - {b}
      && s'.valid == s.valid - (if b in s.mapping then 1 else 0)
      && s'.allocable == s.allocable && s'.ios == s.ios && s'.tree == s.tree && s'.gc == s.gc
      && s'.empty == s.empty && s'.full == s.full && s'.active == s.active
  {
    hide WellFormed;
  }

  lemma MembersSnoc(rest: seq<nat>, b: nat)
    ensures Members(rest + [b]) == Members(rest) + {b}
  {
  }

  lemma MeetSnoc(keys: set<nat>, met: set<nat>, b: nat)
    ensures |keys * (met + {b})| == |keys * met| + if b in keys - met then 1 else 0
  {
    if b in keys - met {
      assert keys * (met + {b}) == keys * met + {b};
    } else {
      assert keys * (met + {b}) == keys * met;
    }
  }

  lemma RemoveSnoc(m: map<nat, Pbid>, gone: set<nat>, b: nat)
    ensures m - (gone + {b}) == m - gone - {b}
  {
  }

  function Twins(written: seq<nat>): (t: seq<nat>)
    ensures |t| == |written| && forall i :: 0 <= i < |t| ==> t[i] == ToFree(written[i])
  {
    seq(|written|, i requires 0 <= i < |written| => ToFree(written[i]))
  }

  /** After the commit of a transaction that wrote these blocks, a written block is still mapped
      exactly when its twin was not written too; every other block is kept unless it is a twin. */
  lemma CommitKeepsWritten(c: Config, s: State, written: seq<nat>, b: nat)
    requires Inv(c, s)
    ensures b in UnmapAll(c, s, Twins(written)).mapping <==> b in s.mapping && ToFree(b) !in written
    ensures b in UnmapAll(c, s, Twins(written)).mapping ==> UnmapAll(c, s, Twins(written)).mapping[b] == s.mapping[b]
  {
    hide Inv, ToFree, UnmapAll;
    UnmapAllExact(c, s, Twins(written));
    var twins := Twins(written);
    TwinPairs(b);
    if ToFree(b) in written {
      var i :| 0 <= i < |written| && written[i] == ToFree(b);
      assert twins[i] == b;
    } else if b in twins {
      var i :| 0 <= i < |twins| && twins[i] == b;
      TwinPairs(written[i]);
      assert written[i] == ToFree(b);
    }
  }

  /** No newly written copy is lost exactly when no pair was written on both sides. */
  lemma CommitLosesNothingIff(c: Config, s: State, written: seq<nat>)
    requires Inv(c, s) && forall b <- written :: b in s.mapping
    ensures (forall b <- written :: b in UnmapAll(c, s, Twins(written)).mapping)
       <==> (forall b <- written :: ToFree(b) !in written)
  {
    hide Inv, ToFree, Twins, UnmapAll;
    forall b | b in written
      ensures b in UnmapAll(c, s, Twins(written)).mapping <==> ToFree(b) !in written
    {
      CommitKeepsWritten(c, s, written, b);
    }
  }

  // -------------------------------------------------------------------- the page chain

  function Flatten(pages: seq<seq<Word>>): (all: seq<Word>) {
    if pages == [] then [] else Flatten(pages[..|pages| - 1]) + pages[|pages| - 1]
  }

  lemma FlattenSnoc(pages: seq<seq<Word>>, page: seq<Word>)
    ensures Flatten(pages + [page]) == Flatten(pages) + page
  {
    assert (pages + [page])[..|pages|] == pages;
  }

  // The last page has b at its end.
  ghost predicate Grown(pages: seq<seq<Word>>, next: seq<seq<Word>>, b: Word) {
    && |next| == |pages| > 0
    && next[..|pages| - 1] == pages[..|pages| - 1]
    && next[|pages| - 1] == pages[|pages| - 1] + [b]
  }

  lemma FlattenLast(pages: seq<seq<Word>>, next: seq<seq<Word>>, b: Word)
    requires Grown(pages, next, b)
    ensures Flatten(next) == Flatten(pages) + [b]
  {
  }

  lemma {:induction false} FlattenPrefix(pages: seq<seq<Word>>, k: nat)
    requires k <= |pages|
    ensures |Flatten(pages[..k])| <= |Flatten(pages)| && Flatten(pages[..k]) == Flatten(pages)[..|Flatten(pages[..k])|]
    decreases |pages|
  {
    if k == |pages| {
      assert pages[..k] == pages;
    } else {
      FlattenPrefix(pages[..|pages| - 1], k);
      assert pages[..|pages| - 1][..k] == pages[..k];
    }
  }

  // The next page of the chain holds the next recorded blocks.
  lemma NextPage(pages: seq<seq<Word>>, k: nat)
    requires k < |pages|
    ensures Flatten(pages[..k + 1]) == Flatten(pages[..k]) + pages[k]
    ensures forall b <- pages[k] :: b in Flatten(pages)
  {
    hide Flatten;
    assert pages[..k + 1] == pages[..k] + [pages[k]];
    FlattenSnoc(pages[..k], pages[k]);
    FlattenPrefix(pages, k + 1);
    InPrefix(Flatten(pages), Flatten(pages[..k]), pages[k]);
  }

  lemma InPrefix(all: seq<Word>, before: seq<Word>, page: seq<Word>)
    requires |before| + |page| <= |all| && before + page == all[..|before| + |page|]
    ensures forall b <- page :: b in all
  {
    forall i | 0 <= i < |page|
      ensures page[i] in all
    {
      assert (before + page)[|before| + i] == page[i];
    }
  }

  lemma PageInDevice(c: Config, pages: seq<seq<Word>>, k: nat)
    requires k < |pages| && InDevice(c, Flatten(pages))
    ensures InDevice(c, pages[k])
  {
    NextPage(pages, k);
    hide Flatten;
    forall i | 0 <= i < |pages[k]|
      ensures pages[k][i] < c.blocks
    {
      assert pages[k][i] in pages[k];
      var j :| 0 <= j < |Flatten(pages)| && Flatten(pages)[j] == pages[k][i];
    }
  }

  // s2 is what unmapping these blocks makes of s.
  ghost predicate Drained(c: Config, s: State, s2: State, done: seq<nat>) {
    Inv(c, s) && s2 == UnmapAll(c, s, done)
  }

  lemma DrainNothing(page: array<Word>, done: seq<Word>)
    ensures done + page[..0] == done
  {
  }

  lemma DrainStart(c: Config, s: State, pages: seq<seq<Word>>)
    requires Inv(c, s)
    ensures Drained(c, s, s, Flatten(pages[..0])) && Flatten([]) == []
  {
    hide Inv;
    UnmapNone(c, s);
    assert pages[..0] == [];
  }

  lemma DrainStep(c: Config, s: State, s2: State, done: seq<nat>, b: nat)
    requires Drained(c, s, s2, done)
    ensures Inv(c, s2) && WellFormed(c, s2)
    ensures Drained(c, s, Unmap(c, s2, b), done + [b])
    ensures |Unmap(c, s2, b).mapping| == |s2.mapping| - Bit(b in s2.mapping)
  {
    hide Inv, WellFormed, Unmap, UnmapAll;
    UnmapAllSnoc(c, s, done, b);
    UnmapEffect(c, s2, b);
    SizeRemove(s2.mapping, b);
  }

  lemma DrainEnd(c: Config, s: State, s2: State, done: seq<nat>)
    requires Drained(c, s, s2, done)
    ensures Inv(c, s) && Inv(c, s2) && s2 == UnmapAll(c, s, done)
    ensures |s2.mapping| == |s.mapping| - |s.mapping.Keys * Members(done)|
  {
    hide Inv, UnmapAll;
    UnmapAllExact(c, s, done);
  }

  datatype Node = Node(cursor: nat, blkids: array<Word>)

  // Every page but the last is full, and the last is not empty.
  ghost predicate NodesOk(nodes: seq<Node>, entries: nat) {
    && 0 < entries
    && (forall k :: 0 <= k < |nodes| ==> nodes[k].blkids.Length == entries && 0 < nodes[k].cursor <= entries)
    && (forall k :: 0 <= k < |nodes| - 1 ==> nodes[k].cursor == entries)
    && (forall j, k :: 0 <= j < k < |nodes| ==> nodes[j].blkids != nodes[k].blkids)
  }

  ghost function Arrays(nodes: seq<Node>): (f: set<array<Word>>) {
    set k | 0 <= k < |nodes| :: nodes[k].blkids
  }

  ghost function Pages(nodes: seq<Node>, entries: nat): (p: seq<seq<Word>>)
    requires NodesOk(nodes, entries)
    reads Arrays(nodes)
  {
    seq(|nodes|, k requires 0 <= k < |nodes| && NodesOk(nodes, entries) reads Arrays(nodes) =>
      nodes[k].blkids[..nodes[k].cursor])
  }

  class Mgmt {
    const rule: Rule
    const entries: nat
    const dev: Lbz
    var nodes: seq<Node>
    var toFreeCount: nat
    var totalFreed: nat

    ghost predicate Valid()
      reads this`nodes
    {
      NodesOk(nodes, entries)
    }

    ghost function Footprint(): (f: set<array<Word>>)
      reads this`nodes
    {
      Arrays(nodes)
    }

    // The blocks recorded since the last commit, in order.
    ghost function Recorded(): (r: seq<Word>)
      requires Valid()
      reads this`nodes, Footprint()
    {
      Flatten(Pages(nodes, entries))
    }

    constructor (layout: Rule, pageEntries: nat, device: Lbz)
      requires 0 < pageEntries && Accepted(layout)
      ensures Valid() && Recorded() == [] && toFreeCount == 0 && totalFreed == 0
      ensures rule == layout && entries == pageEntries && dev == device
    {
      rule, entries, dev := layout, pageEntries, device;
      nodes, toFreeCount, totalFreed := [], 0, 0;
    }

    // A new page at the end of the chain, with b in its first entry.
    method StartPage(b: Word)
      requires Valid() && (nodes == [] || nodes[|nodes| - 1].cursor == entries)
      modifies this`nodes
      ensures Valid() && fresh(Footprint() - old(Footprint()))
      ensures Pages(nodes, entries) == old(Pages(nodes, entries)) + [[b]]
    {
      ghost var pages := Pages(nodes, entries);
      var page := new Word[entries];
      page[0] := b;
      nodes := nodes + [Node(1, page)];
      ghost var now := Pages(nodes, entries);
      assert now[..|pages|] == pages;
      assert now[|pages|] == [b];
    }

    // The next entry of the current page.
    method FillSlot(b: Word)
      requires Valid() && nodes != [] && nodes[|nodes| - 1].cursor < entries
      modifies this`nodes, nodes[|nodes| - 1].blkids
      ensures Valid() && |nodes| == |old(nodes)|
      ensures forall k :: 0 <= k < |nodes| ==> nodes[k].blkids == old(nodes)[k].blkids
      ensures Grown(old(Pages(nodes, entries)), Pages(nodes, entries), b)
    {
      ghost var pages := Pages(nodes, entries);
      var last := |nodes| - 1;
      var node := nodes[last];
      node.blkids[node.cursor] := b;
      nodes := nodes[last := node.(cursor := node.cursor + 1)];
      ghost var now := Pages(nodes, entries);
      assert now[..last] == pages[..last];
      assert now[last] == pages[last] + [b];
    }

    /** lbz_nat_sit_add_blkid */
    method AddBlkid(b: Word)
      requires Valid()
      modifies this, Footprint()
      ensures Valid() && fresh(Footprint() - old(Footprint()))
      ensures Recorded() == old(Recorded()) + [b]
      ensures toFreeCount == old(toFreeCount) + 1 && totalFreed == old(totalFreed)
    {
      hide Pages, Flatten, Grown;
      ghost var pages := Pages(nodes, entries);
      toFreeCount := toFreeCount + 1;
      if nodes == [] || nodes[|nodes| - 1].cursor == entries {
        StartPage(b);
        FlattenSnoc(pages, [b]);
      } else {
        FillSlot(b);
        FlattenLast(pages, Pages(nodes, entries), b);
      }
    }

    /** The bookkeeping of a write to block b: a table block records its twin. */
    method RecordWrite(b: Word)
      requires Valid()
      modifies this, Footprint()
      ensures Valid() && fresh(Footprint() - old(Footprint()))
      ensures Recorded() == old(Recorded()) + if IsDup(rule, b) then [ToFree(b)] else []
      ensures toFreeCount == old(toFreeCount) + if IsDup(rule, b) then 1 else 0
      ensures TablesFit(rule, dev.c.blocks) && InDevice(dev.c, old(Recorded())) ==> InDevice(dev.c, Recorded())
    {
      hide ToFree, TablesFit;
      if IsDup(rule, b) {
        TwinPairs(b);
        if TablesFit(rule, dev.c.blocks) { TwinInDevice(rule, dev.c.blocks, b); }
        AddBlkid(ToFree(b));
      }
    }

    // The inner loop of the commit: unmap the blocks of one page.
    method DrainPage(page: array<Word>, count: nat, ghost s: State, ghost done: seq<Word>)
      requires count <= page.Length && InDevice(dev.c, page[..count])
      requires dev.Valid() && Drained(dev.c, s, dev.View(), done)
      modifies dev, this`totalFreed
      ensures dev.Valid() && Drained(dev.c, s, dev.View(), done + page[..count])
      ensures totalFreed == old(totalFreed) + |old(dev.mapping)| - |dev.mapping|
    {
      hide Inv, Sound, Unmap, WellFormed, Drained;
      DrainNothing(page, done);
      var i := 0;
      while i < count
        invariant 0 <= i <= count
        invariant dev.Valid() && Drained(dev.c, s, dev.View(), done + page[..i])
        invariant totalFreed == old(totalFreed) + |old(dev.mapping)| - |dev.mapping|
      {
        DrainStep(dev.c, s, dev.View(), done + page[..i], page[i]);
        assert done + page[..i + 1] == done + page[..i] + [page[i]];
        var freed := dev.Discard(page[i]);
        if freed { totalFreed := totalFreed + 1; }
        i := i + 1;
      }
    }

    /** lbz_nat_sit_tx_complete */
    method TxComplete()
      requires Valid() && dev.Valid() && InDevice(dev.c, Recorded())
      modifies this, dev
      ensures Valid() && Recorded() == [] && toFreeCount == 0
      ensures dev.Valid() && Inv(dev.c, old(dev.View()))
      ensures dev.View() == UnmapAll(dev.c, old(dev.View()), old(Recorded()))
      ensures totalFreed == old(totalFreed) + |old(dev.mapping).Keys * Members(old(Recorded()))|
    {
      hide Inv, Sound, UnmapAll, WellFormed, Flatten, Drained, Members;
      ghost var s, pages, all := dev.View(), Pages(nodes, entries), Recorded();
      SoundInv(dev.c, s);
      DrainStart(dev.c, s, pages);
      var k := 0;
      while k < |nodes|
        invariant 0 <= k <= |nodes| && nodes == old(nodes)
        invariant dev.Valid() && Drained(dev.c, s, dev.View(), Flatten(pages[..k]))
        invariant totalFreed == old(totalFreed) + |s.mapping| - |dev.mapping|
      {
        NextPage(pages, k);
        PageInDevice(dev.c, pages, k);
        assert nodes[k].blkids[..nodes[k].cursor] == pages[k];
        DrainPage(nodes[k].blkids, nodes[k].cursor, s, Flatten(pages[..k]));
        k := k + 1;
      }
      assert pages[..k] == pages;
      DrainEnd(dev.c, s, dev.View(), all);
      nodes := [];
      toFreeCount := 0;
      assert Pages(nodes, entries) == [];
    }
  }
}
