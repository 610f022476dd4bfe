/**
Counting in-flight operations by what they hold, and summing a measure over the
zones.  Both are first order: a query or a measure is a value, not a function.
*/
module Counting {
  import opened Machine

  function Holders(ios: map<nat, Io>, q: Query): set<nat> {
    set t | t in ios && Match(q, ios[t])
  }

  function Count(ios: map<nat, Io>, q: Query): nat {
    |Holders(ios, q)|
  }

  function Bit(b: bool): nat {
    if b then 1 else 0
  }

  /** Changing or adding one operation moves every count by that operation alone. */
  lemma CountUpdate(ios: map<nat, Io>, t: nat, io: Io)
    ensures forall q :: Count(ios[t := io], q)
                        == Count(ios, q) - Bit(t in ios && Match(q, ios[t])) + Bit(Match(q, io))
  {
    forall q
      ensures Count(ios[t := io], q) == Count(ios, q) - Bit(t in ios && Match(q, ios[t])) + Bit(Match(q, io))
    {
      var rest := Holders(ios, q) - {t};
      assert Holders(ios[t := io], q) == if Match(q, io) then rest + {t} else rest;
    }
  }

  predicate Meets(io: Io, u: nat) {
    io.Task? && io.st.Conflict? && io.st.host == u
  }

  // CountUpdate for the tasks that met u in the tree.
  lemma ConflictUpdate(ios: map<nat, Io>, t: nat, io: Io)
    ensures forall u :: Count(ios[t := io], ConflictsOn(u))
                        == Count(ios, ConflictsOn(u)) - Bit(t in ios && Meets(ios[t], u)) + Bit(Meets(io, u))
  {
    CountUpdate(ios, t, io);
  }

  lemma CountRemove(ios: map<nat, Io>, t: nat)
    ensures forall q :: Count(ios - {t}, q) == Count(ios, q) - Bit(t in ios && Match(q, ios[t]))
  {
    forall q
      ensures Count(ios - {t}, q) == Count(ios, q) - Bit(t in ios && Match(q, ios[t]))
    {
      assert Holders(ios - {t}, q) == Holders(ios, q) - {t};
    }
  }

  lemma CountPositive(ios: map<nat, Io>, t: nat, q: Query)
    requires t in ios && Match(q, ios[t])
    ensures Count(ios, q) > 0
  {
    assert t in Holders(ios, q);
  }

  lemma CountZero(ios: map<nat, Io>, q: Query)
    requires Count(ios, q) == 0
    ensures forall t :: t in ios ==> !Match(q, ios[t])
  {
    assert forall t :: t in ios && Match(q, ios[t]) ==> t in Holders(ios, q);
  }

  lemma CountWitness(ios: map<nat, Io>, q: Query) returns (t: nat)
    requires Count(ios, q) > 0
    ensures t in ios && Match(q, ios[t])
  {
    t :| t in Holders(ios, q);
  }

  // ----------------------------------------------------------------------------- sums

  datatype Measure = Free | Weight | Mapped | Pending

  function Measured(cap: nat, m: Measure, z: Zone): int {
    match m
    case Free => cap - z.wp
    case Weight => z.weight
    case Mapped => |z.rmap|
    case Pending => z.pending
  }

  function Total(cap: nat, m: Measure, zones: seq<Zone>): int {
    if zones == [] then 0 else Measured(cap, m, zones[0]) + Total(cap, m, zones[1..])
  }

  lemma {:induction false} TotalUpdateOne(cap: nat, m: Measure, zones: seq<Zone>, i: nat, z: Zone)
    requires i < |zones|
    ensures Total(cap, m, zones[i := z])
            == Total(cap, m, zones) - Measured(cap, m, zones[i]) + Measured(cap, m, z)
  {
    if i == 0 {
      assert zones[i := z][1..] == zones[1..];
    } else {
      assert zones[i := z][1..] == zones[1..][i - 1 := z];
      TotalUpdateOne(cap, m, zones[1..], i - 1, z);
    }
  }

  lemma TotalUpdate(cap: nat, zones: seq<Zone>, i: nat, z: Zone)
    requires i < |zones|
    ensures forall m :: Total(cap, m, zones[i := z])
                        == Total(cap, m, zones) - Measured(cap, m, zones[i]) + Measured(cap, m, z)
  {
    forall m
      ensures Total(cap, m, zones[i := z])
              == Total(cap, m, zones) - Measured(cap, m, zones[i]) + Measured(cap, m, z)
    {
      TotalUpdateOne(cap, m, zones, i, z);
    }
  }

  // The reverse entries the collector has still to visit.
  function Ahead(rmap: map<nat, nat>, pos: nat): set<nat> {
    set o | o in rmap && pos <= o
  }

  function Unvisited(rmap: map<nat, nat>, pos: nat): nat {
    |Ahead(rmap, pos)|
  }

  lemma UnvisitedStep(rmap: map<nat, nat>, pos: nat)
    ensures Unvisited(rmap, pos) == Unvisited(rmap, pos + 1) + Bit(pos in rmap)
  {
    if pos in rmap {
      assert Ahead(rmap, pos) == Ahead(rmap, pos + 1) + {pos};
    } else {
      assert Ahead(rmap, pos) == Ahead(rmap, pos + 1);
    }
  }

  lemma UnvisitedRemove(rmap: map<nat, nat>, pos: nat, o: nat)
    ensures Unvisited(rmap - {o}, pos) <= Unvisited(rmap, pos)
  {
    assert Ahead(rmap - {o}, pos) == Ahead(rmap, pos) - {o};
  }

  lemma UnvisitedAll(rmap: map<nat, nat>)
    ensures Unvisited(rmap, 0) == |rmap|
  {
    assert Ahead(rmap, 0) == rmap.Keys;
  }

  lemma SizeRemove<V>(m: map<nat, V>, k: nat)
    ensures |m - {k}| == |m| - Bit(k in m)
  {
    assert (m - {k}).Keys == m.Keys - {k};
  }
}
