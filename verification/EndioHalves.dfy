/**
 * The completion of a GC write in two halves.  The handler counts its write off before it updates
 * the maps, leaves the tree and drops its zone reference.  In between, the end of a read may mark
 * the zone as written out and the worker may close it; here is why that does no harm.
 */
module EndioHalves {
  import opened Machine
  import opened Counting
  import opened Invariant
  import opened Frames
  import opened ReadSteps
  import opened ZoneSteps
  import opened MapSteps

  // The first half: one pending write less.
  function CountedOff(s: State, t: nat): State
    requires CanEndio(s, t) && s.ios[t].st.at.zone < |s.zones|
  {
    var z := s.ios[t].st.at.zone;
    s.(zones := s.zones[z := s.zones[z].(pending := s.zones[z].pending - 1)])
  }

  // The zone that received block b, its write already counted off.
  function BoundZone(z: Zone, off: nat, b: nat): Zone {
    PutZone(z.(rmap := z.rmap[off := b]))
  }

  // The second half: the old copy is released, the new one bound, the tree left and the zone put.
  function Callback(c: Config, s: State, t: nat): State
    requires WellFormed(c, s) && CanEndio(s, t) && s.ios[t].kind.Mover? && s.ios[t].st.at.zone < |s.zones|
  {
    var io := s.ios[t];
    var p, u := io.st.at, Unmap(c, s, io.blk);
    u.(mapping := u.mapping[io.blk := p],
       zones := u.zones[p.zone := BoundZone(u.zones[p.zone], p.off, io.blk)],
       tree := u.tree - {io.blk},
       ios := u.ios[t := io.(st := Finishing, rc := io.rc - 1)])
  }

  // A read of the zone ends, which marks the zone as written out if no write is pending, and the
  // worker closes it.
  function ReadThenClose(c: Config, s: State, r: nat, z: nat): State
    requires WellFormed(c, s) && CanReadEndio(s, r) && CanClose(ReadEndio(c, s, r), z)
  {
    Close(ReadEndio(c, s, r), z)
  }

  // ------------------------------------------------------------------------ well-formedness

  lemma FormedZones(c: Config, s: State, zs: seq<Zone>)
    requires WellFormed(c, s) && |zs| == |s.zones|
    requires forall z :: 0 <= z < |zs| ==> zs[z].data == s.zones[z].data
    ensures WellFormed(c, s.(zones := zs))
  {
    forall t | t in s.ios
      ensures IoInRange(c, zs, s.ios, s.ios[t])
    {
      assert IoInRange(c, s.zones, s.ios, s.ios[t]);
    }
  }

  lemma FormedRead(c: Config, s: State, r: nat)
    requires WellFormed(c, s) && CanReadEndio(s, r)
    ensures s.ios[r].from.zone < |s.zones| && WellFormed(c, ReadEndio(c, s, r))
  {
    var ios := s.ios - {r};
    forall t | t in ios
      ensures IoInRange(c, s.zones, ios, ios[t])
    {
      assert IoInRange(c, s.zones, s.ios, s.ios[t]);
    }
    assert IoInRange(c, s.zones, s.ios, s.ios[r]);
    FormedZones(c, s.(ios := ios), s.zones[s.ios[r].from.zone := PutZone(s.zones[s.ios[r].from.zone])]);
  }

  lemma FormedClose(c: Config, s: State, z: nat)
    requires WellFormed(c, s) && CanClose(s, z)
    ensures WellFormed(c, Close(s, z))
  {
    FormedZones(c, s, s.zones[z := s.zones[z].(phase := Full, cond := CondClosed)]);
    assert |s.zones| == c.zones;
    hide InRange;
  }

  // ------------------------------------------------------------------------------ the halves

  /** With nothing in between, the two halves are the machine's completion. */
  lemma TwoHalves(c: Config, s: State, t: nat)
    requires Inv(c, s) && CanEndio(s, t) && s.ios[t].kind.Mover?
    ensures s.ios[t].st.at.zone < |s.zones| && WellFormed(c, s) && WellFormed(c, CountedOff(s, t))
    ensures Callback(c, CountedOff(s, t), t) == Endio(c, s, t)
  {
    hide Inv, WellFormed, PutZone;
    InvShape(c, s);
    LandedFacts(c, s, t);
    MappedThere(c, s, s.ios[t].blk);
    FormedZones(c, s, CountedOff(s, t).zones);
  }

  lemma MappedThere(c: Config, s: State, b: nat)
    requires WellFormed(c, s)
    ensures b in s.mapping ==> s.mapping[b].zone < |s.zones|
  {
  }

  // The zone alone, before and after a reverse entry may have been taken from it.
  lemma ZoneEitherWay(z: Zone, taken: Zone, off: nat, b: nat)
    requires z.phase.ToFull? && !z.cond.CondFull?
    requires taken == z.(rmap := taken.rmap, weight := taken.weight)
    requires PutZone(z.(pending := z.pending - 1)).cond.CondFull?
    ensures var late := PutZone(LandZone(taken, off, b));
            && late.phase.ToFull? && late.cond.CondFull?
            && BoundZone(EarlyZone(z).(rmap := taken.rmap, weight := taken.weight), off, b)
               == late.(phase := Full, cond := CondClosed)
  {
  }

  lemma PutPhase(z: Zone)
    ensures PutZone(z).phase == z.phase
  {
  }

  lemma PutFields(z: Zone)
    ensures PutZone(z).rmap == z.rmap && PutZone(z).weight == z.weight
  {
  }

  lemma OpenWhilePending(c: Config, s: State, t: nat)
    requires Inv(c, s) && CanEndio(s, t) && s.ios[t].st.at.zone < |s.zones|
    ensures var z := s.zones[s.ios[t].st.at.zone]; z.phase.ToFull? ==> !z.cond.CondFull?
  {
    hide Inv;
    LandedFacts(c, s, t);
    ZoneFacts(c, s, s.ios[t].st.at.zone);
  }

  // The zone once the write is counted off, the read has ended and the worker has closed it.
  function EarlyZone(z: Zone): Zone {
    PutZone(z.(pending := z.pending - 1)).(phase := Full, cond := CondClosed)
  }

  lemma ClosedZones(c: Config, s: State, t: nat, r: nat)
    requires Inv(c, s) && WellFormed(c, s) && CanEndio(s, t) && s.ios[t].kind.Mover? && CanReadEndio(s, r)
    requires s.ios[t].st.at.zone < |s.zones| && s.ios[r].from.zone == s.ios[t].st.at.zone
    requires WellFormed(c, CountedOff(s, t)) && WellFormed(c, Endio(c, s, t))
    requires CanClose(ReadEndio(c, CountedOff(s, t), r), s.ios[t].st.at.zone)
    requires WellFormed(c, ReadThenClose(c, CountedOff(s, t), r, s.ios[t].st.at.zone))
    ensures var z, b := s.ios[t].st.at.zone, s.ios[t].blk;
            var taken, closed := Unmap(c, s, b).zones, ReadThenClose(c, CountedOff(s, t), r, z);
            && |closed.zones| == |s.zones| && |taken| == |s.zones| && s.zones[z].phase.ToFull?
            && taken[z] == s.zones[z].(rmap := taken[z].rmap, weight := taken[z].weight)
            && Unmap(c, closed, b).zones
               == taken[z := EarlyZone(s.zones[z]).(rmap := taken[z].rmap, weight := taken[z].weight)]
            && PutZone(s.zones[z].(pending := s.zones[z].pending - 1)).cond.CondFull?
  {
    hide Inv, WellFormed, PutZone;
    var z, b := s.ios[t].st.at.zone, s.ios[t].blk;
    MappedThere(c, s, b);
    PutPhase(s.zones[z].(pending := s.zones[z].pending - 1));
    PutFields(s.zones[z].(pending := s.zones[z].pending - 1));
    var closed := ReadThenClose(c, CountedOff(s, t), r, z);
    assert closed.zones == s.zones[z := EarlyZone(s.zones[z])];
  }

  lemma CloseCommutes(c: Config, s: State, t: nat, r: nat)
    requires Inv(c, s) && WellFormed(c, s) && CanEndio(s, t) && s.ios[t].kind.Mover? && CanReadEndio(s, r)
    requires s.ios[t].st.at.zone < |s.zones| && s.ios[r].from.zone == s.ios[t].st.at.zone
    requires WellFormed(c, CountedOff(s, t)) && WellFormed(c, Endio(c, s, t))
    requires CanClose(ReadEndio(c, CountedOff(s, t), r), s.ios[t].st.at.zone)
    requires WellFormed(c, ReadThenClose(c, CountedOff(s, t), r, s.ios[t].st.at.zone))
    ensures var z := s.ios[t].st.at.zone;
            var closed := ReadThenClose(c, CountedOff(s, t), r, z);
            && CanEndio(closed, t) && |closed.zones| == |s.zones|
            && CanReadEndio(Endio(c, s, t), r) && CanClose(ReadEndio(c, Endio(c, s, t), r), z)
            && Callback(c, closed, t) == ReadThenClose(c, Endio(c, s, t), r, z)
  {
    hide Inv, WellFormed, PutZone, LandZone, BoundZone, EarlyZone;
    var p, b := s.ios[t].st.at, s.ios[t].blk;
    OpenWhilePending(c, s, t);
    ClosedZones(c, s, t, r);
    ZoneEitherWay(s.zones[p.zone], Unmap(c, s, b).zones[p.zone], p.off, b);
    var done := s.ios[t].(st := Finishing, rc := s.ios[t].rc - 1);
    assert (s.ios - {r})[t := done] == s.ios[t := done] - {r};
    assert (s.mapping - {b})[b := p] == s.mapping[b := p];
  }

  /** If in between the end of a read lets the worker close the zone, the callback still ends in
      the very state in which the machine ends that completes the write, ends the read and closes
      the zone, one after the other. */
  lemma EarlyCloseIsLateClose(c: Config, s: State, t: nat, r: nat)
    requires Inv(c, s) && CanEndio(s, t) && s.ios[t].kind.Mover? && CanReadEndio(s, r)
    requires s.ios[t].st.at.zone < |s.zones| && s.ios[r].from.zone == s.ios[t].st.at.zone
    requires WellFormed(c, CountedOff(s, t))
    requires CanClose(ReadEndio(c, CountedOff(s, t), r), s.ios[t].st.at.zone)
    ensures var z := s.ios[t].st.at.zone;
            var closed := ReadThenClose(c, CountedOff(s, t), r, z);
            && WellFormed(c, closed) && CanEndio(closed, t) && |closed.zones| == |s.zones|
            && WellFormed(c, s) && WellFormed(c, Endio(c, s, t)) && CanReadEndio(Endio(c, s, t), r)
            && CanClose(ReadEndio(c, Endio(c, s, t), r), z)
            && Callback(c, closed, t) == ReadThenClose(c, Endio(c, s, t), r, z)
            && Inv(c, Callback(c, closed, t))
  {
    hide Inv, WellFormed, PutZone;
    var z := s.ios[t].st.at.zone;
    var off := CountedOff(s, t);
    InvShape(c, s);
    LandedFacts(c, s, t);
    FormedRead(c, off, r);
    FormedClose(c, ReadEndio(c, off, r), z);
    EndioInv(c, s, t);
    InvShape(c, Endio(c, s, t));
    CloseCommutes(c, s, t, r);
    ReadEndioInv(c, Endio(c, s, t), r);
    CloseInv(c, ReadEndio(c, Endio(c, s, t), r), z);
  }

  /** Meanwhile nothing can be done to the victim or to the closed zone: the victim still has the GC
      task's reference and is not reset, and no other victim is chosen. */
  lemma VictimHeld(c: Config, s: State, t: nat)
    requires Inv(c, s) && CanEndio(s, t) && s.ios[t].kind.Mover?
    ensures s.ios[t].st.at.zone < |s.zones|
    ensures var off := CountedOff(s, t);
            && off.gc.Some? && off.gc.value.zone == s.ios[t].src.zone < |off.zones|
            && off.zones[off.gc.value.zone].refs > 0
            && forall v :: !CanReset(off, v)
  {
    hide Inv;
    LandedFacts(c, s, t);
    TaskFacts(c, s, t);
    var v := s.ios[t].src.zone;
    ZoneFacts(c, s, v);
    CountPositive(s.ios, t, MovesFrom(v));
    forall u | 0 <= u < |s.zones| && u != v
      ensures !s.zones[u].phase.Gc?
    {
      ZoneFacts(c, s, u);
    }
  }
}
