/** TRestG4Event: the tracks of one simulated Geant4 event, the energy they
    deposit in total and per active volume, and the bookkeeping of the
    active volumes and sub-events. */
module G4Events {
  import opened SeqUtil
  import opened Geometry

  /** One energy deposit of a track: the active volume it fell in and the
      energy left there. */
  datatype G4Hit = G4Hit(volumeID: int, energy: real)

  /** A track as the event sees it: its id, its sub-event and its hits. */
  datatype G4Track = G4Track(trackID: int, subEventID: int, hits: seq<G4Hit>)

  /** GetTotalDepositedEnergy of a track: the energy of all its hits. */
  function Deposited(hs: seq<G4Hit>): real {
    if hs == [] then 0.0 else Deposited(hs[..|hs| - 1]) + hs[|hs| - 1].energy
  }

  /** GetEnergyInVolume of a track: the energy of its hits in one volume. */
  function EnergyIn(hs: seq<G4Hit>, volID: int): real {
    if hs == [] then 0.0
    else EnergyIn(hs[..|hs| - 1], volID) + (if hs[|hs| - 1].volumeID == volID then hs[|hs| - 1].energy else 0.0)
  }

  /** The energy of a track's hits in volumes 0 .. k-1, summed volume by
      volume. */
  function VolumesTotal(hs: seq<G4Hit>, k: nat): real {
    if k == 0 then 0.0 else VolumesTotal(hs, k - 1) + EnergyIn(hs, k - 1)
  }

  /** Adding a hit adds its energy to the volume totals when its volume is
      among the first k. */
  lemma {:induction false} VolumesTotalSnoc(hs: seq<G4Hit>, h: G4Hit, k: nat)
    ensures VolumesTotal(hs + [h], k)
            == VolumesTotal(hs, k) + (if 0 <= h.volumeID < k then h.energy else 0.0)
  {
    assert (hs + [h])[..|hs + [h]| - 1] == hs;
    if k > 0 {
      VolumesTotalSnoc(hs, h, k - 1);
    }
  }

  /** When every hit of a track lies in one of the k active volumes, the
      per-volume energies add up to the track's total energy. */
  lemma {:induction false} EnergySplitsOverVolumes(hs: seq<G4Hit>, k: nat)
    requires forall i :: 0 <= i < |hs| ==> 0 <= hs[i].volumeID < k
    ensures VolumesTotal(hs, k) == Deposited(hs)
  {
    if hs == [] {
      EmptyVolumesTotal(k);
    } else {
      var init := hs[..|hs| - 1];
      EnergySplitsOverVolumes(init, k);
      assert init + [hs[|hs| - 1]] == hs;
      VolumesTotalSnoc(init, hs[|hs| - 1], k);
    }
  }

  lemma {:induction false} EmptyVolumesTotal(k: nat)
    ensures VolumesTotal([], k) == 0.0
  {
    if k > 0 {
      EmptyVolumesTotal(k - 1);
    }
  }

  /** The energy deposited by a list of tracks. */
  function TracksEnergy(ts: seq<G4Track>): real {
    if ts == [] then 0.0 else TracksEnergy(ts[..|ts| - 1]) + Deposited(ts[|ts| - 1].hits)
  }

  /** The number of hits of a list of tracks. */
  function HitCount(ts: seq<G4Track>): nat {
    if ts == [] then 0 else HitCount(ts[..|ts| - 1]) + |ts[|ts| - 1].hits|
  }

  /** The ids of a list of tracks, in order. */
  function TrackIds(ts: seq<G4Track>): (r: seq<int>)
    ensures |r| == |ts|
  {
    seq(|ts|, i requires 0 <= i < |ts| => ts[i].trackID)
  }

  /** Hit counts and energies of two lists of tracks add up. */
  lemma {:induction false} TracksConcat(a: seq<G4Track>, b: seq<G4Track>)
    ensures HitCount(a + b) == HitCount(a) + HitCount(b)
    ensures TracksEnergy(a + b) == TracksEnergy(a) + TracksEnergy(b)
  {
    if b == [] {
      assert a + b == a;
    } else {
      assert (a + b)[..|a + b| - 1] == a + b[..|b| - 1];
      TracksConcat(a, b[..|b| - 1]);
    }
  }

  /** Changing the sub-event of a track changes neither the hit count nor
      the energy of the list. */
  lemma {:induction false} SubEventKeepsTotals(ts: seq<G4Track>, n: nat, id: int)
    requires n < |ts|
    ensures HitCount(ts[n := ts[n].(subEventID := id)]) == HitCount(ts)
    ensures TracksEnergy(ts[n := ts[n].(subEventID := id)]) == TracksEnergy(ts)
  {
    var us := ts[n := ts[n].(subEventID := id)];
    if n < |ts| - 1 {
      SubEventKeepsTotals(ts[..|ts| - 1], n, id);
      assert us[..|us| - 1] == ts[..|ts| - 1][n := ts[n].(subEventID := id)];
    } else {
      assert us[..|us| - 1] == ts[..|ts| - 1];
    }
  }

  /** The largest of m and id: how fMaxSubEventID follows an assigned id. */
  function Raised(m: int, id: int): (r: int)
    ensures r >= m && r >= id && (r == m || r == id)
  {
    if m < id then id else m
  }

  /** The maximum after a series of assignments, starting from m. */
  function RunningMax(m: int, ids: seq<int>): int {
    if ids == [] then m else Raised(RunningMax(m, ids[..|ids| - 1]), ids[|ids| - 1])
  }

  /** After any series of assignments the maximum is at least the start and
      every assigned id, and is the start or one of the ids. */
  lemma {:induction false} RunningMaxIsMaximum(m: int, ids: seq<int>)
    ensures RunningMax(m, ids) >= m
    ensures forall i :: 0 <= i < |ids| ==> RunningMax(m, ids) >= ids[i]
    ensures RunningMax(m, ids) == m || RunningMax(m, ids) in ids
  {
    if ids != [] {
      var init := ids[..|ids| - 1];
      RunningMaxIsMaximum(m, init);
      assert forall i :: 0 <= i < |init| ==> ids[i] == init[i];
      if RunningMax(m, init) in init {
        var j :| 0 <= j < |init| && init[j] == RunningMax(m, init);
        assert ids[j] == RunningMax(m, init);
      }
    }
  }

  /** The first index of a track with the given id, or None. */
  function FirstWithID(ts: seq<G4Track>, id: int): (r: Option<nat>)
    ensures r.Some? ==> r.value < |ts| && ts[r.value].trackID == id
                        && forall j :: 0 <= j < r.value ==> ts[j].trackID != id
    ensures r.None? ==> forall j :: 0 <= j < |ts| ==> ts[j].trackID != id
  {
    var k := IndexOf(TrackIds(ts), id);
    assert forall j :: 0 <= j < |ts| ==> TrackIds(ts)[j] == ts[j].trackID;
    if k == -1 then
      assert forall j :: 0 <= j < |ts| ==> TrackIds(ts)[j] != id;
      None
    else Some(k)
  }

  class G4Event {
    var tracks: seq<G4Track>
    var nTracks: int
    var totalDepositedEnergy: real
    var sensitiveVolumeEnergy: real
    var maxSubEventID: int
    var nVolumes: int
    var volumeStored: seq<int>
    var volumeDepositedEnergy: seq<real>
    var primaryEventDirection: seq<Vec3>
    var primaryEventEnergy: seq<real>
    var primaryEventOrigin: Vec3

    /** The track count is the number of tracks, and there is one stored
        flag and one energy per active volume. */
    predicate Valid()
      reads this
    {
      nTracks == |tracks| && nVolumes == |volumeStored| && nVolumes == |volumeDepositedEnergy|
    }

    /** The event total is the energy of its tracks. */
    predicate TotalsAgree()
      reads this
    {
      totalDepositedEnergy == TracksEnergy(tracks)
    }

    /** Every track's sub-event is at most the recorded maximum. */
    predicate SubEventsBounded()
      reads this
    {
      forall i :: 0 <= i < |tracks| ==> tracks[i].subEventID <= maxSubEventID
    }

    /** The default constructor: no active volume, then Initialize. */
    constructor ()
      ensures Valid() && TotalsAgree() && SubEventsBounded()
      ensures tracks == [] && totalDepositedEnergy == 0.0 && maxSubEventID == 0
      ensures nVolumes == 0 && volumeStored == [] && volumeDepositedEnergy == []
    {
      nVolumes := 0;
      volumeStored := [];
      volumeDepositedEnergy := [];
      tracks := [];
      nTracks := 0;
      totalDepositedEnergy := 0.0;
      sensitiveVolumeEnergy := 0.0;
      maxSubEventID := 0;
      primaryEventDirection := [];
      primaryEventEnergy := [];
      primaryEventOrigin := Vec3(0.0, 0.0, 0.0);
      new;
      Initialize();
    }

    /** Initialize: the primaries, the tracks and the totals are cleared; the
        active volumes are kept. */
    method Initialize()
      modifies this
      ensures tracks == [] && nTracks == 0
      ensures totalDepositedEnergy == 0.0 && sensitiveVolumeEnergy == 0.0 && maxSubEventID == 0
      ensures primaryEventDirection == [] && primaryEventEnergy == [] && primaryEventOrigin == Vec3(0.0, 0.0, 0.0)
      ensures nVolumes == old(nVolumes) && volumeStored == old(volumeStored)
      ensures volumeDepositedEnergy == old(volumeDepositedEnergy)
      ensures old(Valid()) ==> Valid()
      ensures TotalsAgree() && SubEventsBounded()
    {
      primaryEventDirection := [];
      primaryEventEnergy := [];
      primaryEventOrigin := Vec3(0.0, 0.0, 0.0);
      tracks := [];
      nTracks := 0;
      totalDepositedEnergy := 0.0;
      sensitiveVolumeEnergy := 0.0;
      maxSubEventID := 0;
    }

    /** AddActiveVolume: one more volume, stored, with no energy yet. */
    method AddActiveVolume()
      requires Valid()
      modifies this`nVolumes, this`volumeStored, this`volumeDepositedEnergy
      ensures Valid()
      ensures nVolumes == old(nVolumes) + 1
      ensures volumeStored == old(volumeStored) + [1]
      ensures volumeDepositedEnergy == old(volumeDepositedEnergy) + [0.0]
      ensures tracks == old(tracks) && nTracks == old(nTracks)
      ensures totalDepositedEnergy == old(totalDepositedEnergy) && maxSubEventID == old(maxSubEventID)
    {
      nVolumes := nVolumes + 1;
      volumeStored := volumeStored + [1];
      volumeDepositedEnergy := volumeDepositedEnergy + [0.0];
    }

    /** ClearVolumes: no active volume is left. */
    method ClearVolumes()
      modifies this`nVolumes, this`volumeStored, this`volumeDepositedEnergy
      ensures Valid() <==> old(nTracks == |tracks|)
      ensures nVolumes == 0 && volumeStored == [] && volumeDepositedEnergy == []
      ensures tracks == old(tracks) && nTracks == old(nTracks)
      ensures totalDepositedEnergy == old(totalDepositedEnergy) && maxSubEventID == old(maxSubEventID)
    {
      nVolumes := 0;
      volumeStored := [];
      volumeDepositedEnergy := [];
    }

    /** AddEnergyDepositToVolume: the energy is added to one volume. */
    method AddEnergyDepositToVolume(volID: int, eDep: real)
      requires Valid() && 0 <= volID < nVolumes
      modifies this`volumeDepositedEnergy
      ensures Valid()
      ensures volumeDepositedEnergy == old(volumeDepositedEnergy)[volID := old(volumeDepositedEnergy)[volID] + eDep]
      ensures Sum(volumeDepositedEnergy) == old(Sum(volumeDepositedEnergy)) + eDep
      ensures tracks == old(tracks) && totalDepositedEnergy == old(totalDepositedEnergy)
      ensures nVolumes == old(nVolumes) && volumeStored == old(volumeStored)
    {
      SumUpdate(volumeDepositedEnergy, volID, volumeDepositedEnergy[volID] + eDep);
      volumeDepositedEnergy := volumeDepositedEnergy[volID := volumeDepositedEnergy[volID] + eDep];
    }

    /** SetTrackSubEventID: track n moves to sub-event id, and the maximum
        sub-event id is raised to it. */
    method SetTrackSubEventID(n: int, id: int)
      requires Valid() && 0 <= n < nTracks
      modifies this`tracks, this`maxSubEventID
      ensures Valid()
      ensures tracks == old(tracks)[n := old(tracks)[n].(subEventID := id)]
      ensures maxSubEventID == Raised(old(maxSubEventID), id)
      ensures old(SubEventsBounded()) ==> SubEventsBounded()
      ensures old(TotalsAgree()) ==> TotalsAgree()
      ensures HitCount(tracks) == old(HitCount(tracks))
      ensures totalDepositedEnergy == old(totalDepositedEnergy)
      ensures volumeDepositedEnergy == old(volumeDepositedEnergy) && nVolumes == old(nVolumes)
      ensures volumeStored == old(volumeStored)
    {
      SubEventKeepsTotals(tracks, n, id);
      tracks := tracks[n := tracks[n].(subEventID := id)];
      if maxSubEventID < id {
        maxSubEventID := id;
      }
    }

    /** AddTrack: the track is appended, the count follows, and its energy is
        added to the total and, volume by volume, to each active volume. */
    method AddTrack(trk: G4Track)
      requires Valid()
      modifies this`tracks, this`nTracks, this`totalDepositedEnergy, this`volumeDepositedEnergy
      ensures Valid()
      ensures tracks == old(tracks) + [trk] && nTracks == |tracks|
      ensures totalDepositedEnergy == old(totalDepositedEnergy) + Deposited(trk.hits)
      ensures old(TotalsAgree()) ==> TotalsAgree()
      ensures HitCount(tracks) == old(HitCount(tracks)) + |trk.hits|
      ensures |volumeDepositedEnergy| == old(|volumeDepositedEnergy|)
      ensures forall n :: 0 <= n < |volumeDepositedEnergy| ==>
                volumeDepositedEnergy[n] == old(volumeDepositedEnergy[n]) + EnergyIn(trk.hits, n)
      ensures nVolumes == old(nVolumes) && volumeStored == old(volumeStored)
      ensures maxSubEventID == old(maxSubEventID)
    {
      assert (tracks + [trk])[..|tracks|] == tracks;
      tracks := tracks + [trk];
      nTracks := |tracks|;
      totalDepositedEnergy := totalDepositedEnergy + Deposited(trk.hits);
      ghost var before := volumeDepositedEnergy;
      for n := 0 to nVolumes
        invariant Valid() && |volumeDepositedEnergy| == |before|
        invariant tracks == old(tracks) + [trk] && totalDepositedEnergy == old(totalDepositedEnergy) + Deposited(trk.hits)
        invariant nVolumes == old(nVolumes) && volumeStored == old(volumeStored) && maxSubEventID == old(maxSubEventID)
        invariant forall k :: 0 <= k < n ==> volumeDepositedEnergy[k] == before[k] + EnergyIn(trk.hits, k)
        invariant forall k :: n <= k < |before| ==> volumeDepositedEnergy[k] == before[k]
      {
        volumeDepositedEnergy := volumeDepositedEnergy[n := volumeDepositedEnergy[n] + EnergyIn(trk.hits, n)];
      }
    }

    /** GetTotalDepositedEnergyFromTracks: the energy of the tracks, which is
        the event total whenever the totals agree. */
    method GetTotalDepositedEnergyFromTracks() returns (eDep: real)
      requires Valid()
      ensures eDep == TracksEnergy(tracks)
      ensures TotalsAgree() ==> eDep == totalDepositedEnergy
    {
      eDep := 0.0;
      for tk := 0 to nTracks
        invariant eDep == TracksEnergy(tracks[..tk])
      {
        assert tracks[..tk + 1][..tk] == tracks[..tk];
        eDep := eDep + Deposited(tracks[tk].hits);
      }
      assert tracks[..nTracks] == tracks;
    }

    /** GetTrackByID: the index of the first track with the id, or None
        where the source returns a null pointer. */
    method GetTrackByID(id: int) returns (found: Option<nat>)
      requires Valid()
      ensures found == FirstWithID(tracks, id)
      ensures found.Some? ==> found.value < |tracks| && tracks[found.value].trackID == id
                              && forall j :: 0 <= j < found.value ==> tracks[j].trackID != id
      ensures found.None? <==> forall j :: 0 <= j < |tracks| ==> tracks[j].trackID != id
    {
      for i := 0 to nTracks
        invariant forall j :: 0 <= j < i ==> tracks[j].trackID != id
      {
        if tracks[i].trackID == id {
          IndexOfAt(TrackIds(tracks), i, id);
          return Some(i);
        }
      }
      assert forall j :: 0 <= j < |tracks| ==> TrackIds(tracks)[j] != id;
      return None;
    }

    /** GetNumberOfHits: the hits of all the tracks. */
    method GetNumberOfHits() returns (hits: int)
      requires Valid()
      ensures hits == HitCount(tracks)
    {
      hits := 0;
      for i := 0 to nTracks
        invariant hits == HitCount(tracks[..i])
      {
        assert tracks[..i + 1][..i] == tracks[..i];
        hits := hits + |tracks[i].hits|;
      }
      assert tracks[..nTracks] == tracks;
    }
  }
}
