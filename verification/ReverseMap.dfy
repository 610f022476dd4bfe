/**
 * The per-zone reverse map, kept in separately allocated pages, and the block
 * addresses that connect it to the forward map.
 */
module ReverseMap {
  import opened Machine
  import opened Invariant
  import opened Runs
  import opened Division
  import opened Paging

  // ------------------------------------------------------------------- addresses

  // The flat address of a block; zones lie zoneSize blocks apart and hold cap <= zoneSize blocks.
  function Address(zoneSize: nat, p: Pbid): (a: nat) {
    zoneSize * p.zone + p.off
  }

  function ZoneOf(zoneSize: nat, address: nat): (z: int)
    requires zoneSize > 0
  {
    address / zoneSize
  }

  /** Dividing an address by the zone size finds the zone, and the distance from that zone's
      start is the offset, even where the capacity is below the zone size. */
  lemma AddressRoundTrip(zoneSize: nat, p: Pbid)
    requires p.off < zoneSize
    ensures ZoneOf(zoneSize, Address(zoneSize, p)) == p.zone
    ensures Address(zoneSize, p) - Address(zoneSize, Pbid(p.zone, 0)) == p.off
  {
    DivUnique(Address(zoneSize, p), zoneSize, p.zone, p.off);
  }

  // Blocks of a reachable state lie below their zone's capacity.
  lemma OffsetsBelowCap(c: Config, s: State, p: Pbid)
    requires Inv(c, s) && p.zone < |s.zones| && p.off < |s.zones[p.zone].data|
    ensures p.zone < c.zones && p.off < c.cap
  {
    assert Holds(CountsPart, c, s) && Holds(LifePart, c, s);
    var z := s.zones[p.zone];
    assert ZoneCounts(p.zone, z, s.ios, s.gc);
    assert ZoneLife(c, p.zone, z, s.empty, s.full, s.active, s.gc);
  }

  /** In every reachable state, every mapped address and every address a device append has
      returned resolves to the zone it was allocated in, fits an unsigned int, is never mistaken
      for the "unmapped" mark, and indexes an existing page of that zone's reverse map. */
  lemma AddressesResolve(c: Config, s: State, zoneSize: nat, entries: nat, p: Pbid)
    requires Reachable(c, s) && c.cap <= zoneSize && entries > 0
    requires zoneSize * c.zones <= 0xFFFF_FFFF
    requires (exists b :: b in s.mapping && s.mapping[b] == p)
          || (exists t :: t in s.ios && s.ios[t].Task? && s.ios[t].st == Landed(p))
    ensures p.off < c.cap
    ensures ZoneOf(zoneSize, Address(zoneSize, p)) == p.zone < c.zones
    ensures Address(zoneSize, p) < 0xFFFF_FFFF
    ensures 0 <= p.off / entries < Ceil(c.cap, entries)
  {
    ReachableInv(c, s);
    assert Holds(MapsPart, c, s) && Holds(LandedPart, c, s);
    OffsetsBelowCap(c, s, p);
    AddressRoundTrip(zoneSize, p);
    MulStep(zoneSize, p.zone, c.zones);
    DivBelow(p.off, c.cap, entries);
  }

  // -------------------------------------------------------------------- page count

  /** The number of pages, computed from a size in bytes, is the number that holds cap entries. */
  lemma PageCount(cap: nat, entries: nat, width: nat)
    requires entries > 0 && width > 0
    ensures width * entries > 0 && Ceil(width * cap, width * entries) == Ceil(cap, entries)
  {
    DivDiv(0, width, entries);
    CeilCeil(width * cap, width, entries);
    DivUnique(width * cap + width - 1, width, cap, width - 1);
  }

  // ------------------------------------------------------------------ the iterator

  // Entry i lies in a page of the table.
  ghost predicate InTable(cap: nat, entries: nat, i: nat)
    requires entries > 0
  {
    i / entries < Ceil(cap, entries)
  }

  // The entries that the for-each macro reads when it runs from 0 to wp: it fetches the next
  // entry before it tests its bound, so the last one it reads is number wp.
  ghost predicate MacroReadsInRange(cap: nat, entries: nat, wp: nat)
    requires entries > 0
  {
    forall i: nat :: i <= wp ==> InTable(cap, entries, i)
  }

  // Only the last fetch can leave the table.
  lemma LastFetchDecides(cap: nat, entries: nat, wp: nat)
    requires entries > 0 && wp <= cap
    ensures MacroReadsInRange(cap, entries, wp) <==> InTable(cap, entries, wp)
  {
    forall i: nat | i < wp
      ensures InTable(cap, entries, i)
    {
      DivBelow(i, cap, entries);
    }
  }

  /** The macro stays inside the page table exactly when the zone is not full or the last page
      has a spare entry. */
  lemma MacroInRangeIff(cap: nat, entries: nat, wp: nat)
    requires entries > 0 && 0 < cap && wp <= cap
    ensures MacroReadsInRange(cap, entries, wp) <==> !(wp == cap && cap % entries == 0)
  {
    LastFetchDecides(cap, entries, wp);
    DivMod(cap, entries);
    CeilBound(cap, entries);
    if wp < cap {
      DivBelow(wp, cap, entries);
    } else if cap % entries == 0 {
      CeilLeast(cap, entries, cap / entries);
    } else if Ceil(cap, entries) <= cap / entries {
      MulMono(entries, Ceil(cap, entries), cap / entries);
    }
  }

  /** With the driver's page of 1024 entries, collecting a zone of 1024 blocks reads past the table. */
  lemma MacroOverrun()
    ensures !MacroReadsInRange(1024, 1024, 1024)
  {
    MacroInRangeIff(1024, 1024, 1024);
  }

  // The raw entry w at offset o of the reverse map m.
  ghost predicate EntryIs(m: map<nat, Word>, o: nat, w: Word) {
    if w == 0xFFFF_FFFF then o !in m else o in m && m[o] == w
  }

  datatype Visit = Visit(pbid: nat, blkid: Word)

  // The live entries below wp, in address order.
  ghost function Listed(m: map<nat, Word>, start: nat, wp: nat): (visits: seq<Visit>) {
    if wp == 0 then [] else
      var before := Listed(m, start, wp - 1);
      if wp - 1 in m then before + [Visit(start + wp - 1, m[wp - 1])] else before
  }

  ghost predicate Increasing(visits: seq<Visit>, bound: nat) {
    && (forall i :: 0 <= i < |visits| ==> visits[i].pbid < bound)
    && (forall i, j :: 0 <= i < j < |visits| ==> visits[i].pbid < visits[j].pbid)
  }

  lemma {:induction false} ListedIncreasing(m: map<nat, Word>, start: nat, wp: nat)
    ensures Increasing(Listed(m, start, wp), start + wp)
  {
    if wp > 0 { ListedIncreasing(m, start, wp - 1); }
  }

  /** A visit is made exactly for each live entry below the write pointer. */
  lemma {:induction false} ListedExact(m: map<nat, Word>, start: nat, wp: nat, v: Visit)
    ensures v in Listed(m, start, wp)
      <==> start <= v.pbid < start + wp && v.pbid - start in m && m[v.pbid - start] == v.blkid
  {
    if wp > 0 { ListedExact(m, start, wp - 1, v); }
  }

  class ZoneMap {
    const entries: nat
    const cap: nat
    const start: nat
    const zrms: seq<array<Word>>

    ghost predicate Valid() {
      && 0 < entries && 0 < cap
      && |zrms| == Ceil(cap, entries)
      && (forall k :: 0 <= k < |zrms| ==> zrms[k].Length == entries)
      && (forall j, k :: 0 <= j < k < |zrms| ==> zrms[j] != zrms[k])
    }

    ghost function Footprint(): (f: set<array<Word>>) {
      set k | 0 <= k < |zrms| :: zrms[k]
    }

    ghost function Pages(): (p: seq<seq<Word>>)
      reads Footprint()
    {
      seq(|zrms|, k requires 0 <= k < |zrms| reads Footprint() => zrms[k][..])
    }

    // The partial map from offsets to logical blocks that the pages stand for.
    ghost function Contents(): (m: map<nat, Word>)
      requires Valid()
      reads Footprint()
    {
      Flat(Pages(), entries, cap)
    }

    constructor (zoneStart: nat, capacity: nat, pageEntries: nat)
      requires 0 < capacity && 0 < pageEntries
      ensures Valid() && fresh(Footprint())
      ensures entries == pageEntries && cap == capacity && start == zoneStart
      ensures Contents() == map[]
    {
      var pages: seq<array<Word>> := [];
      while |pages| < Ceil(capacity, pageEntries)
        invariant |pages| <= Ceil(capacity, pageEntries)
        invariant forall k :: 0 <= k < |pages| ==> fresh(pages[k]) && pages[k].Length == pageEntries
        invariant forall j, k :: 0 <= j < k < |pages| ==> pages[j] != pages[k]
        invariant forall j, x :: 0 <= j < |pages| && 0 <= x < pageEntries ==> pages[j][x] == INVALID
      {
        var page := new Word[pageEntries](_ => INVALID);
        pages := pages + [page];
      }
      zrms := pages;
      entries, cap, start := pageEntries, capacity, zoneStart;
      new;
      NothingMapped(Pages(), entries, cap);
    }

    method Update(pbid: nat, blkid: Word)
      requires Valid() && start <= pbid < start + cap
      modifies Footprint()
      ensures Contents() == if blkid == 0xFFFF_FFFF then old(Contents()) - {pbid - start}
                            else old(Contents())[pbid - start := blkid]
      ensures blkid < 0xFFFF_FFFF ==> pbid - start in Contents() && Contents()[pbid - start] == blkid
    {
      var dis := pbid - start;
      DivBelow(dis, cap, entries);
      DivMod(dis, entries);
      ghost var pages := Pages();
      zrms[dis / entries][dis % entries] := blkid;
      assert Pages() == Stored(pages, entries, dis, blkid);
      OneSlot(pages, entries, cap, dis, blkid);
    }

    // The reset path wipes every page.
    method Clear()
      requires Valid()
      modifies Footprint()
      ensures Contents() == map[]
    {
      var k := 0;
      while k < |zrms|
        invariant 0 <= k <= |zrms|
        invariant forall j, x :: 0 <= j < k && 0 <= x < entries ==> zrms[j][x] == INVALID
      {
        forall x | 0 <= x < entries {
          zrms[k][x] := INVALID;
        }
        k := k + 1;
      }
      NothingMapped(Pages(), entries, cap);
    }

    // One fetch of the macro: entry iter, or None where the page table has ended.
    function Fetch(iter: nat): (pos: Option<Word>)
      requires Valid()
      reads Footprint()
      ensures pos.Some? <==> InTable(cap, entries, iter)
      ensures iter < cap ==> pos.Some? && EntryIs(Contents(), iter, pos.value)
      ensures iter < cap ==> pos.value == if iter in Contents() then Contents()[iter] else 0xFFFF_FFFF
    {
      DivMod(iter, entries);
      if iter / entries < |zrms| then
        Some(zrms[iter / entries][iter % entries])
      else
        assert iter < cap ==> false by { if iter < cap { DivBelow(iter, cap, entries); } }
        None
    }

    /** The collector's walk over its victim.  overrun tells whether a fetch left the table. */
    method Walk(wp: nat) returns (visits: seq<Visit>, overrun: bool)
      requires Valid() && wp <= cap
      ensures visits == Listed(Contents(), start, wp)
      ensures overrun <==> !MacroReadsInRange(cap, entries, wp)
    {
      ghost var m := Contents();
      hide Flat, Paged, Ceil, InTable, MacroReadsInRange;
      var iter, pbid := 0, start;
      visits := [];
      LastFetchDecides(cap, entries, wp);
      var pos := Fetch(0);
      overrun := pos.None?;
      while iter < wp
        invariant 0 <= iter <= wp && pbid == start + iter
        invariant iter < cap ==> pos.Some? && EntryIs(m, iter, pos.value)
        invariant overrun == pos.None? == !InTable(cap, entries, iter)
        invariant visits == Listed(m, start, iter)
      {
        if pos.value != INVALID {
          visits := visits + [Visit(pbid, pos.value)];
        }
        pbid := pbid + 1;
        iter := iter + 1;
        pos := Fetch(iter);
        overrun := overrun || pos.None?;
      }
    }
  }
}
