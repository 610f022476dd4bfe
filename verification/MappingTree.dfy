/**
 * The three-level mapping tree: a root table of internal nodes, each a table
 * of leaves, each a table of physical block ids.  It is proved to be a flat map
 * from logical blocks to physical ones, for every node geometry.
 */
module MappingTree {
  import opened Machine
  import opened Division
  import opened Paging

  datatype Leaf = Leaf(blkid: nat, pbids: array<Word>)
  datatype Internal = Internal(entries: nat, blkid: nat, children: seq<Leaf>)

  // Leaf number k hangs where the index arithmetic looks for it.
  ghost predicate Placed(root: seq<Internal>, width: nat, k: nat, leaf: Leaf)
    requires width > 0
  {
    0 <= k / width < |root| && k % width < |root[k / width].children|
    && root[k / width].children[k % width] == leaf
  }

  ghost predicate AllPlaced(root: seq<Internal>, width: nat, leaves: seq<Leaf>)
    requires width > 0
  {
    forall k :: 0 <= k < |leaves| ==> Placed(root, width, k, leaves[k])
  }

  // Every leaf has its own array of the right size, and its header names its first key.
  ghost predicate LeavesOk(leaves: seq<Leaf>, size: nat)
  {
    (forall k :: 0 <= k < |leaves| ==> leaves[k].pbids.Length == size && leaves[k].blkid == size * k)
    && forall j, k :: 0 <= j < k < |leaves| ==> leaves[j].pbids != leaves[k].pbids
  }

  ghost function LeafCount(root: seq<Internal>): (n: nat)
  {
    if root == [] then 0 else LeafCount(root[..|root| - 1]) + |root[|root| - 1].children|
  }

  // An internal node's header counts its children and names its first key.
  ghost predicate HeadersOk(root: seq<Internal>, width: nat, size: nat)
  {
    forall i :: 0 <= i < |root| ==>
      root[i].entries == |root[i].children| <= width && root[i].blkid == size * (width * i)
  }

  // The tree built so far holds these leaves, in key order.
  ghost predicate Built(root: seq<Internal>, width: nat, size: nat, leaves: seq<Leaf>)
    requires width > 0
  {
    AllPlaced(root, width, leaves) && LeavesOk(leaves, size) && HeadersOk(root, width, size)
    && |leaves| == LeafCount(root)
  }

  // Hanging one more leaf under the last internal node.
  function Hang(root: seq<Internal>, leaf: Leaf): (next: seq<Internal>)
    requires |root| > 0
  {
    var last := root[|root| - 1];
    root[|root| - 1 := Internal(last.entries + 1, last.blkid, last.children + [leaf])]
  }

  lemma HangPlaces(root: seq<Internal>, width: nat, leaves: seq<Leaf>, leaf: Leaf)
    requires width > 0 && |root| > 0 && AllPlaced(root, width, leaves)
    requires |leaves| == width * (|root| - 1) + |root[|root| - 1].children|
    requires |root[|root| - 1].children| < width
    ensures AllPlaced(Hang(root, leaf), width, leaves + [leaf])
    ensures LeafCount(Hang(root, leaf)) == LeafCount(root) + 1
  {
    var next := Hang(root, leaf);
    assert next[..|root| - 1] == root[..|root| - 1];
    DivUnique(|leaves|, width, |root| - 1, |root[|root| - 1].children|);
    forall k | 0 <= k < |leaves + [leaf]|
      ensures Placed(next, width, k, (leaves + [leaf])[k])
    {
      if k < |leaves| { assert Placed(root, width, k, leaves[k]); }
    }
  }

  lemma HangKeepsBuilt(root: seq<Internal>, width: nat, size: nat, leaves: seq<Leaf>, leaf: Leaf)
    requires width > 0 && |root| > 0 && Built(root, width, size, leaves)
    requires |leaves| == width * (|root| - 1) + |root[|root| - 1].children|
    requires |root[|root| - 1].children| < width
    requires leaf.pbids.Length == size && leaf.blkid == size * |leaves|
    requires forall k :: 0 <= k < |leaves| ==> leaves[k].pbids != leaf.pbids
    ensures Built(Hang(root, leaf), width, size, leaves + [leaf])
  {
    HangPlaces(root, width, leaves, leaf);
  }

  /** The index triple of a block, as the tree's search computes it, leads to leaf b / size. */
  lemma TripleHitsLeaf(b: nat, max: nat, size: nat, width: nat)
    requires size > 0 && width > 0 && b < max
    ensures size * width > 0
    ensures b / (size * width) == (b / size) / width
    ensures 0 <= b / size < Ceil(max, size)
    ensures b / (size * width) < Ceil(max, size * width)
  {
    DivDiv(b, size, width);
    DivBelow(b, max, size);
    DivBelow(b, max, size * width);
  }

  /** Two blocks with the same index triple are the same block. */
  lemma TripleIsInjective(a: nat, b: nat, size: nat, width: nat)
    requires size > 0 && width > 0 && size * width > 0
    requires a / (size * width) == b / (size * width)
    requires a / size % width == b / size % width
    requires a % size == b % size
    ensures a == b
  {
    DivDiv(a, size, width);
    DivDiv(b, size, width);
    DivMod(a, size);
    DivMod(b, size);
    DivMod(a / size, width);
    DivMod(b / size, width);
  }

  /** The root table of a fixed size holds every device no larger than the supported maximum. */
  lemma RootFits(max: nat, limit: nat, size: nat, width: nat)
    requires size > 0 && width > 0 && size * width > 0 && max <= limit
    ensures Ceil(Ceil(max, size), width) <= Ceil(limit, size * width)
  {
    CeilCeil(max, size, width);
    CeilMono(max, limit, size * width);
  }

  // A leaf as initialisation leaves it.
  ghost predicate Unmapped(leaf: Leaf)
    reads leaf.pbids
  {
    forall x :: 0 <= x < leaf.pbids.Length ==> leaf.pbids[x] == INVALID
  }

  // Only the last internal node may be short of leaves.
  lemma NodesEnd(total: nat, width: nat, nodes: nat, i: nat)
    requires width > 0 && nodes == Ceil(total, width) && i <= nodes
    ensures i < nodes ==> width * i + width <= width * nodes < total + width
    ensures i == nodes ==> total <= width * i
  {
    CeilBound(total, width);
    if i < nodes { MulStep(width, i, nodes); }
  }

  // The inner loop of initialisation: fill the last internal node with leaves.
  method FillNode(table: seq<Internal>, size: nat, width: nat, total: nat, base: nat, first: nat, ghost hung: seq<Leaf>)
    returns (filled: seq<Internal>, count: nat, start: nat, ghost leaves: seq<Leaf>)
    requires width > 0 && |table| > 0 && base == |hung| <= total && first == size * base
    requires table[|table| - 1].children == [] && base == width * (|table| - 1)
    requires Built(table, width, size, hung)
    ensures Built(filled, width, size, leaves) && |filled| == |table|
    ensures count == |leaves| == (if total - base < width then total else base + width) && start == size * count
    ensures hung <= leaves
    ensures forall k :: base <= k < count ==> fresh(leaves[k].pbids) && Unmapped(leaves[k])
  {
    hide Built;
    filled, leaves := table, hung;
    count, start := base, first;
    var j := 0;
    while j < width && count < total
      invariant 0 <= j <= width && |filled| == |table| && |filled[|table| - 1].children| == j
      invariant count == |leaves| == base + j <= total && start == size * count
      invariant Built(filled, width, size, leaves) && hung <= leaves
      invariant forall k :: base <= k < count ==> fresh(leaves[k].pbids) && Unmapped(leaves[k])
    {
      var page := new Word[size](_ => INVALID);
      var leaf := Leaf(start, page);
      HangKeepsBuilt(filled, width, size, leaves, leaf);
      filled := Hang(filled, leaf);
      leaves := leaves + [leaf];
      DistributeOne(size, count);
      count, start, j := count + 1, start + size, j + 1;
    }
  }

  lemma DistributeOne(n: nat, k: nat)
    ensures n * (k + 1) == n * k + n
  {
  }

  // The outer loop of initialisation: one internal node after another.
  method AllocateNodes(max: nat, size: nat, width: nat) returns (table: seq<Internal>, ghost leaves: seq<Leaf>)
    requires size > 0 && width > 0 && size * width > 0
    ensures Built(table, width, size, leaves)
    ensures |leaves| == Ceil(max, size) && |table| == Ceil(max, size * width)
    ensures forall k :: 0 <= k < |leaves| ==> fresh(leaves[k].pbids) && Unmapped(leaves[k])
  {
    table, leaves := [], [];
    assert Built(table, width, size, leaves);
    hide Built;
    CeilCeil(max, size, width);
    var nodes, total := Ceil(max, size * width), Ceil(max, size);
    NodesEnd(total, width, nodes, 0);
    var i, count, start := 0, 0, 0;
    while i < nodes
      invariant 0 <= i <= nodes && |table| == i
      invariant count == |leaves| == (if i < nodes then width * i else total) <= total && start == size * count
      invariant Built(table, width, size, leaves)
      invariant forall k :: 0 <= k < |leaves| ==> fresh(leaves[k].pbids) && Unmapped(leaves[k])
    {
      var node := Internal(0, start, []);
      DistributeOne(width, i);
      table, count, start, leaves := FillNode(table + [node], size, width, total, count, start, leaves);
      i := i + 1;
      NodesEnd(total, width, nodes, i);
    }
  }

  class Mapping {
    const leafEntries: nat
    const intEntries: nat
    const maxBlkid: nat
    const root: seq<Internal>
    ghost const leaves: seq<Leaf>

    ghost predicate Valid()
    {
      leafEntries > 0 && intEntries > 0 && leafEntries * intEntries > 0
      && |leaves| == Ceil(maxBlkid, leafEntries)
      && |root| == Ceil(maxBlkid, leafEntries * intEntries)
      && AllPlaced(root, intEntries, leaves)
      && LeavesOk(leaves, leafEntries)
    }

    ghost function Footprint(): (f: set<array<Word>>)
    {
      set k | 0 <= k < |leaves| :: leaves[k].pbids
    }

    ghost function Pages(): (p: seq<seq<Word>>)
      reads Footprint()
    {
      seq(|leaves|, k requires 0 <= k < |leaves| reads Footprint() => leaves[k].pbids[..])
    }

    // The flat map the tree stands for.
    ghost function Contents(): (m: map<nat, Word>)
      requires Valid()
      reads Footprint()
    {
      Flat(Pages(), leafEntries, maxBlkid)
    }

    constructor (max: nat, size: nat, width: nat)
      requires size > 0 && width > 0
      ensures Valid() && fresh(Footprint())
      ensures leafEntries == size && intEntries == width && maxBlkid == max
      ensures LeafCount(root) == Ceil(max, size)
      ensures HeadersOk(root, width, size)
      ensures Contents() == map[]
    {
      DivDiv(0, size, width);
      var table, hung := AllocateNodes(max, size, width);
      root := table;
      leaves := hung;
      leafEntries, intEntries, maxBlkid := size, width, max;
      new;
      NothingMapped(Pages(), size, max);
    }

    /** The leaf and the index that hold block b; the leaf's header and the index give b back. */
    method FindNode(b: nat) returns (leaf: Leaf, index: nat)
      requires Valid() && b < maxBlkid
      ensures 0 <= b / leafEntries < |leaves| && leaf == leaves[b / leafEntries]
      ensures index == b % leafEntries < leaf.pbids.Length
      ensures leaf.blkid + index == b
    {
      TripleHitsLeaf(b, maxBlkid, leafEntries, intEntries);
      assert Placed(root, intEntries, b / leafEntries, leaves[b / leafEntries]);
      DivMod(b, leafEntries);
      leaf := root[b / (leafEntries * intEntries)].children[b / leafEntries % intEntries];
      index := b % leafEntries;
    }

    method Lookup(b: nat) returns (r: Option<Word>)
      requires Valid() && b < maxBlkid
      ensures r == if b in Contents() then Some(Contents()[b]) else None
    {
      var leaf, index := FindNode(b);
      var pbid := leaf.pbids[index];
      r := if pbid != INVALID then Some(pbid) else None;
    }

    method Add(b: nat, pbid: Word) returns (was: Word)
      requires Valid() && b < maxBlkid
      modifies Footprint()
      ensures was == if b in old(Contents()) then old(Contents())[b] else 0xFFFF_FFFF
      ensures Contents() == if pbid == 0xFFFF_FFFF then old(Contents()) - {b} else old(Contents())[b := pbid]
      ensures pbid < 0xFFFF_FFFF ==> b in Contents() && Contents()[b] == pbid
    {
      var leaf, index := FindNode(b);
      ghost var pages := Pages();
      was := leaf.pbids[index];
      leaf.pbids[index] := pbid;
      assert Pages() == Stored(pages, leafEntries, b, pbid);
      OneSlot(pages, leafEntries, maxBlkid, b, pbid);
    }

    method Remove(b: nat) returns (was: Word)
      requires Valid() && b < maxBlkid
      modifies Footprint()
      ensures was == if b in old(Contents()) then old(Contents())[b] else 0xFFFF_FFFF
      ensures Contents() == old(Contents()) - {b}
    {
      var leaf, index := FindNode(b);
      ghost var pages := Pages();
      was := leaf.pbids[index];
      leaf.pbids[index] := INVALID;
      assert Pages() == Stored(pages, leafEntries, b, INVALID);
      OneSlot(pages, leafEntries, maxBlkid, b, INVALID);
    }
  }
}
