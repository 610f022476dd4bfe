/**
 * The forward and the reverse tables under the machine.  The tree of leaves stands for the
 * machine's mapping and the reverse-map pages of each zone for that zone's entries; what a
 * completion, a discard and a reset do to the tables is what the machine's step does to the maps.
 */
module Tables {
  import opened Machine
  import opened Invariant
  import opened Frames
  import opened MapSteps
  import opened Division
  import opened Paging
  import opened ReverseMap
  import MappingTree

  // ------------------------------------------------------------------------ flat contents

  // The mapping with every physical block as its address.
  function Addresses(zoneSize: nat, mapping: map<nat, Pbid>): (m: map<nat, nat>)
    ensures m.Keys == mapping.Keys
  {
    map b | b in mapping :: Address(zoneSize, mapping[b])
  }

  function Rmaps(zones: seq<Zone>): (r: seq<map<nat, nat>>)
    ensures |r| == |zones| && forall z :: 0 <= z < |zones| ==> r[z] == zones[z].rmap
  {
    seq(|zones|, z requires 0 <= z < |zones| => zones[z].rmap)
  }

  // The reverse entries once block b has moved to p.
  function Rebound(maps: seq<map<nat, nat>>, was: Option<Pbid>, b: nat, p: Pbid): (r: seq<map<nat, nat>>)
    requires p.zone < |maps| && (was.Some? ==> was.value.zone < |maps|)
    ensures |r| == |maps|
  {
    var given := Given(maps, was);
    Entered(given, b, p)
  }

  function Entered(maps: seq<map<nat, nat>>, b: nat, p: Pbid): (r: seq<map<nat, nat>>)
    requires p.zone < |maps|
    ensures |r| == |maps|
  {
    var entries: map<nat, nat> := maps[p.zone][p.off := b];
    maps[p.zone := entries]
  }

  // The reverse entries without the one of a copy that is given up.
  function Given(maps: seq<map<nat, nat>>, was: Option<Pbid>): (r: seq<map<nat, nat>>)
    requires was.Some? ==> was.value.zone < |maps|
    ensures |r| == |maps|
  {
    if was.None? then maps else maps[was.value.zone := maps[was.value.zone] - {was.value.off}]
  }

  function Was(mapping: map<nat, Pbid>, b: nat): Option<Pbid> {
    if b in mapping then Some(mapping[b]) else None
  }

  lemma AddressesUpdate(zoneSize: nat, mapping: map<nat, Pbid>, b: nat, p: Pbid)
    ensures Addresses(zoneSize, mapping[b := p]) == Addresses(zoneSize, mapping)[b := Address(zoneSize, p)]
    ensures Addresses(zoneSize, mapping - {b}) == Addresses(zoneSize, mapping) - {b}
  {
  }

  // ------------------------------------------------------------------ what the steps do to them

  // Mapped blocks and landed writes are at places that the tables have.
  lemma MappedPlaces(c: Config, s: State, b: nat)
    requires Inv(c, s) && b in s.mapping
    ensures b < c.blocks && s.mapping[b].zone < |s.zones| == c.zones && s.mapping[b].off < c.cap
    ensures s.mapping[b].off in s.zones[s.mapping[b].zone].rmap
  {
    hide Inv, LandedPages, LifeCycle, Counts, RefsExact, Tasks, Moves, Coverage, TriedStreams, InRange, Totals, Reserve,
         WellFormed;
    PartsMakeInv(c, s);
    ZoneCount(c, s);
    OffsetsBelowCap(c, s, s.mapping[b]);
  }

  lemma ZoneCount(c: Config, s: State)
    requires Inv(c, s)
    ensures |s.zones| == c.zones
  {
    hide MapsInverse, LandedPages, LifeCycle, Counts, RefsExact, Tasks, Moves, Coverage, TriedStreams, Totals, Reserve;
  }

  lemma LandedPlace(c: Config, s: State, t: nat)
    requires Inv(c, s) && CanEndio(s, t)
    ensures WellFormed(c, s) && |s.zones| == c.zones
    ensures s.ios[t].blk < c.blocks && s.ios[t].st.at.zone < c.zones && s.ios[t].st.at.off < c.cap
    ensures var p := s.ios[t].st.at; p.off !in s.zones[p.zone].rmap
  {
    hide Inv, WellFormed;
    InvShape(c, s);
    ZoneCount(c, s);
    LandedFacts(c, s, t);
    OffsetsBelowCap(c, s, s.ios[t].st.at);
    BlockInRange(c, s, t);
  }

  lemma BlockInRange(c: Config, s: State, t: nat)
    requires WellFormed(c, s) && t in s.ios && s.ios[t].Task?
    ensures s.ios[t].blk < c.blocks
  {
    assert IoInRange(c, s.zones, s.ios, s.ios[t]);
  }

  /** A completion moves the block in both tables. */
  lemma EndioTables(c: Config, s: State, t: nat)
    requires Inv(c, s) && WellFormed(c, s) && CanEndio(s, t) && s.ios[t].st.at.zone < |s.zones|
    requires s.ios[t].blk in s.mapping ==> s.mapping[s.ios[t].blk].zone < |s.zones|
    ensures var b, p := s.ios[t].blk, s.ios[t].st.at;
            && Endio(c, s, t).mapping == s.mapping[b := p]
            && Rmaps(Endio(c, s, t).zones) == Rebound(Rmaps(s.zones), Was(s.mapping, b), b, p)
  {
    hide Inv, WellFormed, Release;
    var b, p := s.ios[t].blk, s.ios[t].st.at;
    assert (s.mapping - {b})[b := p] == s.mapping[b := p];
  }

  // A discard takes the block out of both.
  lemma UnmapTables(c: Config, s: State, b: nat)
    requires WellFormed(c, s) && (b in s.mapping ==> s.mapping[b].zone < |s.zones|)
    ensures Unmap(c, s, b).mapping == s.mapping - {b}
    ensures Rmaps(Unmap(c, s, b).zones) == Given(Rmaps(s.zones), Was(s.mapping, b))
  {
    hide WellFormed;
  }

  // A reset wipes the reverse entries of its zone.
  lemma ResetTables(c: Config, s: State, z: nat)
    requires CanReset(s, z)
    ensures Reset(c, s, z).mapping == s.mapping && Rmaps(Reset(c, s, z).zones) == Rmaps(s.zones)[z := map[]]
  {
  }

  predicate Untabled(l: Label) {
    !l.LEndio? && !l.LDiscard? && !l.LReset?
  }

  /** No other step touches the tables. */
  lemma OtherTables(c: Config, s: State, l: Label)
    requires WellFormed(c, s) && Enabled(c, s, l) && Untabled(l)
    ensures Apply(c, s, l).mapping == s.mapping && Rmaps(Apply(c, s, l).zones) == Rmaps(s.zones)
  {
    assert |s.zones| == c.zones;
    hide WellFormed, Rmaps, TryAlloc, Append, Insert, Resolve, Finish, Lookup, ReadEndio, Select, EndScan, Close,
         Machine.Visit, Queues;
    match l
    case LTryAlloc(t, k) => AllocTables(c, s, t, k);
    case LAppend(t) => AppendTables(c, s, t);
    case LFinish(t) => FinishTables(c, s, t);
    case LInsert(t) => TreeTables(c, s, t);
    case LResolve(t) => TreeTables(c, s, t);
    case LLookup(r, b) => ReadTables(c, s, r, b);
    case LReadEndio(r) => ReadTables(c, s, r, 0);
    case LSelect(_) => PhaseTables(c, s, l);
    case LVisit(_) => PhaseTables(c, s, l);
    case LEndScan => PhaseTables(c, s, l);
    case LClose(_) => PhaseTables(c, s, l);
    case _ =>
  }

  lemma ReadTables(c: Config, s: State, r: nat, b: nat)
    requires WellFormed(c, s)
    ensures Lookup(c, s, r, b).mapping == s.mapping && Rmaps(Lookup(c, s, r, b).zones) == Rmaps(s.zones)
    ensures CanReadEndio(s, r) ==>
              ReadEndio(c, s, r).mapping == s.mapping && Rmaps(ReadEndio(c, s, r).zones) == Rmaps(s.zones)
  {
    assert b in s.mapping ==> s.mapping[b].zone < |s.zones|;
    assert CanReadEndio(s, r) ==> s.ios[r].from.zone < |s.zones|;
    hide WellFormed;
  }

  // The steps that change the phase of a zone or walk over one.
  lemma PhaseTables(c: Config, s: State, l: Label)
    requires WellFormed(c, s) && Enabled(c, s, l) && (l.LSelect? || l.LVisit? || l.LEndScan? || l.LClose?)
    ensures Effect(c, s, l).mapping == s.mapping && Rmaps(Effect(c, s, l).zones) == Rmaps(s.zones)
  {
    assert |s.zones| == c.zones;
    hide WellFormed;
  }

  lemma TreeTables(c: Config, s: State, t: nat)
    requires WellFormed(c, s)
    ensures CanInsert(s, t) ==> Insert(c, s, t).mapping == s.mapping && Insert(c, s, t).zones == s.zones
    ensures CanResolve(s, t) ==> Resolve(c, s, t).mapping == s.mapping && Resolve(c, s, t).zones == s.zones
  {
    hide Release;
  }

  lemma AllocTables(c: Config, s: State, t: nat, k: nat)
    requires WellFormed(c, s) && CanAlloc(s, t, k)
    ensures TryAlloc(c, s, t, k).mapping == s.mapping && Rmaps(TryAlloc(c, s, t, k).zones) == Rmaps(s.zones)
  {
    assert |s.zones| == c.zones && (s.active[k].Some? ==> s.active[k].value < c.zones);
    assert s.empty != [] ==> s.empty[0] < c.zones;
    hide WellFormed;
  }

  lemma AppendTables(c: Config, s: State, t: nat)
    requires WellFormed(c, s) && CanAppend(s, t)
    ensures Append(c, s, t).mapping == s.mapping && Rmaps(Append(c, s, t).zones) == Rmaps(s.zones)
  {
    assert |s.zones| == c.zones && s.ios[t].st.zone < c.zones;
    hide WellFormed;
  }

  lemma FinishTables(c: Config, s: State, t: nat)
    requires WellFormed(c, s) && CanFinish(s, t)
    ensures Finish(c, s, t).mapping == s.mapping && Rmaps(Finish(c, s, t).zones) == Rmaps(s.zones)
  {
    assert |s.zones| == c.zones && s.ios[t].src.zone < c.zones;
    hide WellFormed, Release;
  }

  // Giving up the old copy and entering the new one can be done in either order.
  lemma EitherOrder(maps: seq<map<nat, nat>>, was: Option<Pbid>, b: nat, p: Pbid)
    requires p.zone < |maps| && p.off !in maps[p.zone]
    requires was.Some? ==> was.value.zone < |maps| && was.value.off in maps[was.value.zone]
    ensures Given(Entered(maps, b, p), was) == Rebound(maps, was, b, p)
  {
    if was.Some? && was.value.zone == p.zone {
      var m, o := maps[p.zone], was.value.off;
      assert m[p.off := b] - {o} == (m - {o})[p.off := b];
    }
  }

  // ------------------------------------------------------------------------- the tables

  class Store {
    const zoneSize: nat
    const cap: nat
    const tree: MappingTree.Mapping
    const zmaps: seq<ZoneMap>

    ghost predicate Valid() {
      && 0 < cap <= zoneSize && zoneSize * |zmaps| <= 0xFFFF_FFFF
      && tree.Valid() && tree.maxBlkid <= 0xFFFF_FFFF
      && (forall k :: 0 <= k < |zmaps| ==>
            zmaps[k].Valid() && zmaps[k].cap == cap && zmaps[k].start == zoneSize * k
            && tree.Footprint() !! zmaps[k].Footprint())
      && (forall j, k :: 0 <= j < k < |zmaps| ==> zmaps[j].Footprint() !! zmaps[k].Footprint())
    }

    ghost function Footprint(): set<array<Word>> {
      tree.Footprint() + set k, a | 0 <= k < |zmaps| && a in zmaps[k].Footprint() :: a
    }

    ghost function Forward(): map<nat, nat>
      requires Valid()
      reads Footprint()
    {
      tree.Contents()
    }

    ghost function Reverse(): (r: seq<map<nat, nat>>)
      requires Valid()
      reads Footprint()
      ensures |r| == |zmaps|
    {
      seq(|zmaps|, k requires 0 <= k < |zmaps| && Valid() reads Footprint() => zmaps[k].Contents())
    }

    // The tables are those of a machine of this geometry in this state.
    ghost predicate Holds(c: Config, s: State)
      requires Valid()
      reads Footprint()
    {
      && c.cap == cap && c.zones == |zmaps| && c.blocks == tree.maxBlkid
      && Forward() == Addresses(zoneSize, s.mapping) && Reverse() == Rmaps(s.zones)
    }

    constructor (c: Config, size: nat, leafEntries: nat, intEntries: nat, pageEntries: nat)
      requires c.Valid() && c.cap <= size && size * c.zones <= 0xFFFF_FFFF && c.blocks <= 0xFFFF_FFFF
      requires 0 < leafEntries && 0 < intEntries && 0 < pageEntries
      ensures Valid() && fresh(Footprint()) && Holds(c, Initial(c)) && zoneSize == size
    {
      var maps: seq<ZoneMap> := [];
      while |maps| < c.zones
        invariant |maps| <= c.zones
        invariant forall k :: 0 <= k < |maps| ==>
                    maps[k].Valid() && maps[k].cap == c.cap && maps[k].start == size * k
                    && fresh(maps[k].Footprint()) && maps[k].Contents() == map[]
        invariant forall j, k :: 0 <= j < k < |maps| ==> maps[j].Footprint() !! maps[k].Footprint()
      {
        var zmap := new ZoneMap(size * |maps|, c.cap, pageEntries);
        maps := maps + [zmap];
      }
      zoneSize, cap, zmaps := size, c.cap, maps;
      tree := new MappingTree.Mapping(c.blocks, leafEntries, intEntries);
      new;
      hide Flat, Paged;
      assert Forward() == Addresses(zoneSize, map[]);
      assert Reverse() == Rmaps(Initial(c).zones);
    }

    // get_zone_by_pbid, and the distance from the start of that zone.
    function Place(pbid: nat): (p: Pbid)
      requires zoneSize > 0
    {
      DivMod(pbid, zoneSize);
      Pbid(pbid / zoneSize, pbid % zoneSize)
    }

    /** lbz_mapping_lookup: the tree alone gives back the machine's physical block. */
    method Lookup(b: nat, ghost c: Config, ghost s: State) returns (r: Option<Pbid>)
      requires Valid() && Inv(c, s) && Holds(c, s) && b < c.blocks
      ensures r == Was(s.mapping, b)
    {
      hide Inv, Holds, Place, Flat, Address;
      InDevice(c, s);
      Copy(c, s, b);
      ghost var pages := tree.Pages();
      var pbid := tree.Lookup(b);
      assert tree.Pages() == pages;
      r := if pbid.Some? then Some(Place(pbid.value)) else None;
    }

    lemma PlaceOfAddress(p: Pbid)
      requires p.off < zoneSize
      ensures Place(Address(zoneSize, p)) == p
    {
      DivUnique(Address(zoneSize, p), zoneSize, p.zone, p.off);
    }

    lemma AddressFits(p: Pbid)
      requires Valid() && p.zone < |zmaps| && p.off < cap
      ensures Address(zoneSize, p) < 0xFFFF_FFFF && Place(Address(zoneSize, p)) == p
    {
      PlaceOfAddress(p);
      MulStep(zoneSize, p.zone, |zmaps|);
    }

    // One entry of zone p.zone's reverse map, as lbz_zone_update_reverse_map stores it.
    method SetReverse(p: Pbid, w: Word)
      requires Valid() && p.zone < |zmaps| && p.off < cap
      modifies zmaps[p.zone].Footprint()
      ensures Forward() == old(Forward())
      ensures Reverse() == if w == 0xFFFF_FFFF then Given(old(Reverse()), Some(p)) else Entered(old(Reverse()), w, p)
    {
      hide Flat, Paged;
      ghost var before := Reverse();
      zmaps[p.zone].Update(Address(zoneSize, p), w);
      assert forall k :: 0 <= k < |zmaps| && k != p.zone ==> zmaps[k].Contents() == before[k];
    }

    // One entry of the tree; the copy it replaces, if any.
    method SetForward(b: nat, p: Option<Pbid>) returns (was: Word)
      requires Valid() && b < tree.maxBlkid && (p.Some? ==> p.value.zone < |zmaps| && p.value.off < cap)
      modifies tree.Footprint()
      ensures was == if b in old(Forward()) then old(Forward())[b] else 0xFFFF_FFFF
      ensures Forward() == if p.Some? then old(Forward())[b := Address(zoneSize, p.value)] else old(Forward()) - {b}
      ensures Reverse() == old(Reverse())
    {
      ghost var before := Reverse();
      if p.Some? {
        AddressFits(p.value);
        was := tree.Add(b, Address(zoneSize, p.value));
      } else {
        was := tree.Remove(b);
      }
      assert forall k :: 0 <= k < |zmaps| ==> zmaps[k].Contents() == before[k];
    }

    // The reverse entry of the copy that the tree had, if any.
    method GiveUp(was: Word, ghost copy: Option<Pbid>)
      requires Valid() && (copy.Some? ==> copy.value.zone < |zmaps| && copy.value.off < cap)
      requires was == if copy.Some? then Address(zoneSize, copy.value) else 0xFFFF_FFFF
      modifies Footprint()
      ensures Forward() == old(Forward()) && Reverse() == Given(old(Reverse()), copy)
    {
      if copy.Some? { AddressFits(copy.value); }
      if was != INVALID {
        SetReverse(Place(was), INVALID);
      }
    }

    lemma InDevice(c: Config, s: State)
      requires Valid() && Holds(c, s)
      ensures c.blocks == tree.maxBlkid
    {
    }

    lemma Copy(c: Config, s: State, b: nat)
      requires Valid() && Inv(c, s) && Holds(c, s)
      ensures var copy := Was(s.mapping, b);
              && (copy.Some? ==> copy.value.zone < |zmaps| && copy.value.off < cap && b in Forward()
                                 && Forward()[b] == Address(zoneSize, copy.value) != 0xFFFF_FFFF
                                 && Place(Forward()[b]) == copy.value)
              && (copy.None? ==> b !in Forward())
    {
      hide Inv;
      if b in s.mapping { MappedPlaces(c, s, b); AddressFits(s.mapping[b]); }
    }

    /** The success branch of lbz_write_io_endio on the tables is the machine's completion. */
    method CompleteWrite(b: nat, p: Pbid, ghost c: Config, ghost s: State, ghost t: nat)
      requires Valid() && Inv(c, s) && Holds(c, s) && CanEndio(s, t) && b == s.ios[t].blk && p == s.ios[t].st.at
      modifies Footprint()
      ensures WellFormed(c, s) && Holds(c, Endio(c, s, t))
    {
      hide Inv, WellFormed, Endio;
      LandedPlace(c, s, t);
      Copy(c, s, b);
      var was := SetForward(b, Some(p));
      GiveUp(was, Was(s.mapping, b));
      SetReverse(p, b);
      EndioTables(c, s, t);
      AddressesUpdate(zoneSize, s.mapping, b, p);
    }

    /** The GC callback enters the new copy first and gives its source up afterwards; the tables
        end as the machine's completion has them all the same. */
    method CompleteCopy(b: nat, p: Pbid, src: Pbid, ghost c: Config, ghost s: State, ghost t: nat)
      requires Valid() && Inv(c, s) && Holds(c, s) && CanEndio(s, t) && b == s.ios[t].blk && p == s.ios[t].st.at
      requires s.ios[t].kind.Mover? && src == s.ios[t].src
      modifies Footprint()
      ensures WellFormed(c, s) && Holds(c, Endio(c, s, t))
    {
      hide Inv, WellFormed, Endio;
      LandedPlace(c, s, t);
      Copy(c, s, b);
      OwnSource(c, s, t);
      if b in s.mapping { MappedPlaces(c, s, b); }
      SetReverse(p, b);
      var was := SetForward(b, Some(p));
      if was != INVALID {
        SetReverse(src, INVALID);
      }
      EitherOrder(Rmaps(s.zones), Was(s.mapping, b), b, p);
      EndioTables(c, s, t);
      AddressesUpdate(zoneSize, s.mapping, b, p);
    }

    /** The body of lbz_nat_sit_tx_complete's loop, for one block. */
    method Discard(b: nat, ghost c: Config, ghost s: State) returns (freed: bool)
      requires Valid() && Inv(c, s) && Holds(c, s) && b < c.blocks
      modifies Footprint()
      ensures WellFormed(c, s) && Holds(c, Unmap(c, s, b)) && (freed <==> b in s.mapping)
    {
      hide Inv, WellFormed, Unmap;
      InvShape(c, s);
      Copy(c, s, b);
      if b in s.mapping { MappedPlaces(c, s, b); }
      ZoneCount(c, s);
      var was := SetForward(b, None);
      GiveUp(was, Was(s.mapping, b));
      freed := was != INVALID;
      UnmapTables(c, s, b);
      AddressesUpdate(zoneSize, s.mapping, b, Pbid(0, 0));
    }

    /** The memset of a reset. */
    method WipeZone(z: nat, ghost c: Config, ghost s: State)
      requires Valid() && Holds(c, s) && CanReset(s, z)
      modifies Footprint()
      ensures Holds(c, Reset(c, s, z))
    {
      hide Reset;
      ghost var before := Reverse();
      zmaps[z].Clear();
      assert forall k :: 0 <= k < |zmaps| && k != z ==> zmaps[k].Contents() == before[k];
      ResetTables(c, s, z);
      assert Reverse() == Rmaps(s.zones)[z := map[]];
    }
  }

  // What BUG_ON demands: a landed GC task's block is at its source, if anywhere.
  lemma OwnSource(c: Config, s: State, t: nat)
    requires Inv(c, s) && CanEndio(s, t) && s.ios[t].kind.Mover?
    ensures s.ios[t].blk in s.mapping ==> s.mapping[s.ios[t].blk] == s.ios[t].src
    ensures s.ios[t].src.zone < |s.zones|
  {
    hide Inv;
    TaskFacts(c, s, t);
  }
}
