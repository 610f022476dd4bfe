/** A writer refused for lack of space does not wait forever: a victim exists, and the
    collection of that one victim can always be driven to its end and leaves a zone's
    worth of blocks. */
module Progress {
  import opened Machine
  import opened Counting
  import opened Invariant
  import opened Frames
  import opened Runs
  import opened Guarantees

  // ------------------------------------------------------------------------ a victim exists

  // Nothing is under way on the device and the worker has caught up.
  ghost predicate Settled(s: State) {
    && s.gc.None?
    && forall z :: 0 <= z < |s.zones| ==> s.zones[z].pending == 0 && !s.zones[z].phase.ToFull?
  }

  function ActiveZones(zones: seq<Zone>, n: nat): nat
    requires n <= |zones|
  {
    if n == 0 then 0 else ActiveZones(zones, n - 1) + Bit(zones[n - 1].phase.Active?)
  }

  // The streams that the first n zones are active for.
  function Streams(zones: seq<Zone>, n: nat): set<nat>
    requires n <= |zones|
  {
    if n == 0 then {}
    else if zones[n - 1].phase.Active? then Streams(zones, n - 1) + {zones[n - 1].phase.stream}
    else Streams(zones, n - 1)
  }

  lemma {:induction false} StreamsCount(zones: seq<Zone>, active: seq<Option<nat>>, n: nat)
    requires n <= |zones|
    requires forall i :: 0 <= i < n && zones[i].phase.Active? ==>
               zones[i].phase.stream < |active| && active[zones[i].phase.stream] == Some(i)
    ensures |Streams(zones, n)| == ActiveZones(zones, n)
    ensures forall k <- Streams(zones, n) :: k < |active| && active[k].Some? && active[k].value < n
  {
    if n > 0 { StreamsCount(zones, active, n - 1); }
  }

  lemma {:induction false} BelowCount(s: set<nat>, n: nat)
    requires forall k <- s :: k < n
    ensures |s| <= n
  {
    if n == 0 {
      assert s == {};
    } else {
      BelowCount(s - {n - 1}, n - 1);
      assert |s| <= |s - {n - 1}| + 1;
    }
  }

  // At most one active zone per stream.
  lemma ActiveBound(c: Config, s: State)
    requires Inv(c, s)
    ensures ActiveZones(s.zones, |s.zones|) <= c.streams
  {
    hide Inv, MapsInverse, LandedPages, LifeCycle, Counts, RefsExact, Tasks, Moves, Coverage, TriedStreams, InRange,
         Totals, Reserve, WellFormed;
    PartsMakeInv(c, s);
    forall i | 0 <= i < |s.zones| && s.zones[i].phase.Active?
      ensures s.zones[i].phase.stream < |s.active| && s.active[s.zones[i].phase.stream] == Some(i)
    {
      ZoneFacts(c, s, i);
    }
    StreamsCount(s.zones, s.active, |s.zones|);
    BelowCount(Streams(s.zones, |s.zones|), |s.active|);
  }

  // If every zone that is not active is fully valid, the weights add up to many zones.
  lemma {:induction false} HeavyZones(cap: nat, zones: seq<Zone>)
    requires forall i :: 0 <= i < |zones| ==> zones[i].weight >= 0 && (zones[i].phase.Active? || zones[i].weight >= cap)
    ensures Total(cap, Weight, zones) >= cap * (|zones| - ActiveZones(zones, |zones|))
  {
    if zones != [] {
      var n := |zones| - 1;
      HeavyZones(cap, zones[..n]);
      TotalSnoc(cap, Weight, zones);
      ActivePrefix(zones, n);
      var light := n - ActiveZones(zones, n);
      if zones[n].phase.Active? {
        assert |zones| - ActiveZones(zones, |zones|) == light;
      } else {
        assert |zones| - ActiveZones(zones, |zones|) == light + 1;
        assert cap * (light + 1) == cap * light + cap;
      }
    }
  }

  lemma {:induction false} TotalSnoc(cap: nat, m: Measure, zones: seq<Zone>)
    requires zones != []
    ensures Total(cap, m, zones) == Total(cap, m, zones[..|zones| - 1]) + Measured(cap, m, zones[|zones| - 1])
  {
    var n := |zones| - 1;
    if n > 0 {
      assert zones[1..][..n - 1] == zones[..n][1..];
      TotalSnoc(cap, m, zones[1..]);
    }
  }

  lemma {:induction false} ActivePrefix(zones: seq<Zone>, n: nat)
    requires n < |zones|
    ensures ActiveZones(zones[..n], n) == ActiveZones(zones, n)
  {
    ActivePrefixUpTo(zones, n, n);
  }

  lemma {:induction false} ActivePrefixUpTo(zones: seq<Zone>, n: nat, k: nat)
    requires k <= n < |zones|
    ensures ActiveZones(zones[..n], k) == ActiveZones(zones, k)
  {
    if k > 0 { ActivePrefixUpTo(zones, n, k - 1); }
  }

  lemma {:induction false} FreeBound(cap: nat, zones: seq<Zone>, z: nat)
    requires z < |zones| && forall i :: 0 <= i < |zones| ==> zones[i].wp <= cap
    ensures Total(cap, Free, zones) >= cap - zones[z].wp
  {
    FreeNonNegative(cap, zones[1..]);
    if z > 0 { FreeBound(cap, zones[1..], z - 1); }
  }

  lemma {:induction false} FreeNonNegative(cap: nat, zones: seq<Zone>)
    requires forall i :: 0 <= i < |zones| ==> zones[i].wp <= cap
    ensures Total(cap, Free, zones) >= 0
  {
    if zones != [] { FreeNonNegative(cap, zones[1..]); }
  }

  // The mapping has no more entries than the device has logical blocks.
  lemma MappingBound(c: Config, s: State)
    requires MapsInverse(c, s.zones, s.mapping)
    ensures |s.mapping| <= c.blocks
  {
    BelowCount(s.mapping.Keys, c.blocks);
  }

  // A settled zone, when space is short: not empty, and either active or full.
  lemma ShortOfSpace(c: Config, s: State, z: nat)
    requires Inv(c, s) && Settled(s) && s.allocable < c.cap && z < |s.zones|
    ensures s.zones[z].phase.Active? || s.zones[z].phase.Full?
    ensures s.zones[z].weight == |s.zones[z].rmap|
  {
    hide Inv, MapsInverse, LandedPages, LifeCycle, Counts, RefsExact, Tasks, Moves, Coverage, TriedStreams, InRange,
         Reserve, WellFormed;
    PartsMakeInv(c, s);
    ZoneFacts(c, s, z);
    forall i | 0 <= i < |s.zones|
      ensures s.zones[i].wp <= c.cap
    {
      ZoneFacts(c, s, i);
    }
    FreeBound(c.cap, s.zones, z);
  }

  lemma {:induction false} LightestOf(s: State, list: seq<nat>) returns (z: nat)
    requires list != [] && forall i :: 0 <= i < |list| ==> list[i] < |s.zones|
    ensures z in list && z < |s.zones|
    ensures forall i :: 0 <= i < |list| ==> s.zones[z].weight <= s.zones[list[i]].weight
  {
    z := list[0];
    if |list| > 1 {
      var y := LightestOf(s, list[1..]);
      assert forall i :: 1 <= i < |list| ==> list[i] == list[1..][i - 1];
      if s.zones[y].weight < s.zones[z].weight { z := y; }
    }
  }

  /** If the device exports fewer logical blocks than its zones beyond the active ones
      hold, a settled state in which user writes are refused always has a victim. */
  lemma RefusedHasVictim(c: Config, s: State) returns (z: nat)
    requires Inv(c, s) && Settled(s) && s.allocable < c.cap
    requires c.blocks < (c.zones - c.streams) * c.cap
    ensures WellFormed(c, s) && Enabled(c, s, LSelect(z))
  {
    hide Inv, MapsInverse, LandedPages, LifeCycle, Counts, RefsExact, Tasks, Moves, Coverage, TriedStreams, InRange,
         Reserve, Totals;
    PartsMakeInv(c, s);
    var w := SomeLightZone(c, s);
    ZoneFacts(c, s, w);
    z := LightestOf(s, s.full) by { PartsSize(c, s); }
    PartsSize(c, s);
    var i :| 0 <= i < |s.full| && s.full[i] == w;
  }

  lemma SomeLightZone(c: Config, s: State) returns (z: nat)
    requires Inv(c, s) && Settled(s) && s.allocable < c.cap
    requires c.blocks < (c.zones - c.streams) * c.cap
    ensures z < |s.zones| && s.zones[z].phase.Full? && s.zones[z].weight < c.cap
  {
    hide Inv, MapsInverse, LandedPages, LifeCycle, Counts, RefsExact, Tasks, Moves, Coverage, TriedStreams, InRange,
         Reserve, WellFormed;
    PartsMakeInv(c, s);
    PartsSize(c, s);
    MappingBound(c, s);
    ActiveBound(c, s);
    forall i | 0 <= i < |s.zones|
      ensures s.zones[i].phase.Active? || s.zones[i].phase.Full?
      ensures s.zones[i].weight == |s.zones[i].rmap| + s.zones[i].pending && s.zones[i].pending == 0
    {
      ShortOfSpace(c, s, i);
    }
    WeightSplits(c.cap, s.zones);
    NoPending(c.cap, s.zones);
    if forall i :: 0 <= i < |s.zones| ==> s.zones[i].phase.Active? || s.zones[i].weight >= c.cap {
      HeavyZones(c.cap, s.zones);
      Scale(c.cap, c.zones - c.streams, |s.zones| - ActiveZones(s.zones, |s.zones|));
      assert false;
    }
    z :| 0 <= z < |s.zones| && !s.zones[z].phase.Active? && s.zones[z].weight < c.cap;
  }

  lemma Scale(cap: nat, a: int, b: int)
    requires a <= b
    ensures cap * a <= cap * b && a * cap == cap * a
  {
  }

  lemma {:induction false} NoPending(cap: nat, zones: seq<Zone>)
    requires forall i :: 0 <= i < |zones| ==> zones[i].pending == 0
    ensures Total(cap, Pending, zones) == 0
  {
    if zones != [] { NoPending(cap, zones[1..]); }
  }

  /** A reset always leaves enough for a user write to be admitted. */
  lemma ResetAdmitsWriters(c: Config, s: State, z: nat)
    requires Reachable(c, s) && CanReset(s, z)
    ensures Reset(c, s, z).allocable >= c.cap
    ensures forall t :: t in s.ios && s.ios[t].Task? ==> !Refused(c, Reset(c, s, z), t)
  {
    hide Inv, WellFormed, Reachable;
    ReachableInv(c, s);
    GlobalLedger(c, s);
  }
}
