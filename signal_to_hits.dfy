/** TRestDetectorSignalToHitsProcess: every signal of a signal event whose DAQ
    ID the readout places on a channel becomes one or more hits of the
    process's hits event, at the channel's (x, y) and at the z its drift time
    gives. The readout enters as two functions: the lookup of a DAQ ID and
    the geometry of a channel. */
module SignalToHits {
  import opened SeqUtil
  import opened RestHits
  import opened HitsEvents
  import opened Signals
  import opened SignalEvents

  /** A readout channel: plane ID, module ID and channel index within the
      module (-1 when the module's range holds the DAQ ID but no channel
      carries it). */
  type Location = (int, int, int)

  /** The coordinates a channel measures: both, or only one of them (the
      other is NaN in GetX or GetY, as for a strip). */
  datatype Coordinates = Both(x: real, y: real) | OnlyX(x: real) | OnlyY(y: real)
  {
    predicate XIsNaN() { OnlyY? }
    predicate YIsNaN() { OnlyX? }
  }

  /** What the readout tells about one channel: the plane's z position and
      the z component of its normal (the drift direction), the channel's
      coordinates and the centre of its module. */
  datatype Placement = Placement(planeZ: real, fieldZ: real, coords: Coordinates,
                                 centreX: real, centreY: real)

  /** The transverse position and the type of the hits of one channel. */
  datatype Where = Where(x: real, y: real, kind: HitType)

  /** A channel without x takes the module centre's x and gives YZ hits;
      otherwise one without y takes the centre's y and gives XZ hits; a
      channel with both gives XYZ hits. */
  function Position(pl: Placement): (w: Where)
    ensures w.kind == YZ <==> pl.coords.XIsNaN()
    ensures w.kind == XZ <==> pl.coords.YIsNaN()
    ensures w.kind == XYZ <==> pl.coords.Both?
    ensures w.x == if pl.coords.XIsNaN() then pl.centreX else pl.coords.x
    ensures w.y == if pl.coords.YIsNaN() then pl.centreY else pl.coords.y
  {
    if pl.coords.XIsNaN() then Where(pl.centreX, pl.coords.y, YZ)
    else if pl.coords.YIsNaN() then Where(pl.coords.x, pl.centreY, XZ)
    else Where(pl.coords.x, pl.coords.y, XYZ)
  }

  /** The z of a charge that drifted for the given time at the given
      velocity, measured from the plane along its normal. */
  function DriftZ(pl: Placement, time: real, driftVelocity: real): real {
    pl.planeZ + pl.fieldZ * (time * driftVelocity)
  }

  /** The hit of one point: channel position, drift z, the point's charge as
      energy, time 0. */
  function PointHit(w: Where, pl: Placement, time: real, energy: real, driftVelocity: real): Hit {
    Hit(w.x, w.y, DriftZ(pl, time, driftVelocity), energy, 0.0, w.kind)
  }

  /** tripleMax's neighbour bins, clamped to the signal. */
  function Previous(bin: int): int {
    if bin - 1 < 0 then bin else bin - 1
  }

  function Following(bin: int, points: int): int {
    if bin + 1 > points - 1 then bin else bin + 1
  }

  /** The neighbour bins of a bin inside the signal are inside it, are the
      adjacent bins where those exist and the bin itself at an edge. */
  lemma NeighbourBins(bin: int, points: int)
    requires 0 <= bin < points
    ensures 0 <= Previous(bin) <= bin <= Following(bin, points) < points
    ensures Previous(bin) == (if bin == 0 then 0 else bin - 1)
    ensures Following(bin, points) == (if bin == points - 1 then bin else bin + 1)
  {
  }

  /** The drift distance of each point weighted by its charge, summed. */
  function Weighted(times: seq<real>, charges: seq<real>, driftVelocity: real): real
    requires |times| == |charges|
  {
    if times == [] then 0.0
    else
      var n := |times| - 1;
      Weighted(times[..n], charges[..n], driftVelocity) + times[n] * driftVelocity * charges[n]
  }

  /** The four ways of turning a signal into hits ProcessEvent knows, and
      any other method name. */
  datatype Conversion = OnlyMax | TripleMax | QCenter | AllPoints | Unnamed

  /** The conversion a method name selects: exact, case-sensitive names. */
  function ConversionOf(name: string): (c: Conversion)
    ensures c == OnlyMax <==> name == "onlyMax"
    ensures c == TripleMax <==> name == "tripleMax"
    ensures c == QCenter <==> name == "qCenter"
    ensures c == AllPoints <==> name == "all"
  {
    if name == "onlyMax" then OnlyMax
    else if name == "tripleMax" then TripleMax
    else if name == "qCenter" then QCenter
    else if name == "all" then AllPoints
    else Unnamed
  }

  predicate Known(conversion: Conversion) {
    !conversion.Unnamed?
  }

  /** What a conversion reads of a signal exists: the peak bin for onlyMax and
      tripleMax, at least one point and a nonzero charge sum for qCenter. */
  predicate Fits(d: SignalData, peak: int, conversion: Conversion) {
    |d.times| == |d.charges|
    && ((conversion == OnlyMax || conversion == TripleMax) ==> 0 <= peak < |d.charges|)
    && (conversion == QCenter ==> |d.charges| > 0 && Sum(d.charges) != 0.0)
  }

  /** "all": one hit per point, in point order. */
  function AllHits(times: seq<real>, charges: seq<real>, w: Where, pl: Placement, driftVelocity: real): (r: seq<Hit>)
    requires |times| == |charges|
    ensures |r| == |times|
  {
    if times == [] then []
    else
      var n := |times| - 1;
      AllHits(times[..n], charges[..n], w, pl, driftVelocity) + [PointHit(w, pl, times[n], charges[n], driftVelocity)]
  }

  /** Hit j of "all" is point j's hit. */
  lemma {:induction false} AllHitsAt(times: seq<real>, charges: seq<real>, w: Where, pl: Placement, driftVelocity: real, j: nat)
    requires |times| == |charges| && j < |times|
    ensures AllHits(times, charges, w, pl, driftVelocity)[j] == PointHit(w, pl, times[j], charges[j], driftVelocity)
  {
    var n := |times| - 1;
    if j < n {
      AllHitsAt(times[..n], charges[..n], w, pl, driftVelocity, j);
    }
  }

  /** The hits one placed signal gives under a conversion. */
  function SignalHits(d: SignalData, peak: int, pl: Placement, conversion: Conversion, driftVelocity: real): (r: seq<Hit>)
    requires Fits(d, peak, conversion)
    ensures conversion == OnlyMax || conversion == QCenter ==> |r| == 1
    ensures conversion == TripleMax ==> |r| == 3
    ensures conversion == AllPoints ==> |r| == |d.times|
    ensures !Known(conversion) ==> r == []
  {
    var w := Position(pl);
    if conversion == OnlyMax then
      [PointHit(w, pl, d.times[peak], d.charges[peak], driftVelocity)]
    else if conversion == TripleMax then
      TripleHits(d, peak, w, pl, driftVelocity)
    else if conversion == QCenter then
      [CentreHit(d, w, pl, driftVelocity)]
    else if conversion == AllPoints then
      AllHits(d.times, d.charges, w, pl, driftVelocity)
    else []
  }

  /** tripleMax: the hits of the peak bin, the bin before it and the bin
      after it, in that order. */
  function TripleHits(d: SignalData, peak: int, w: Where, pl: Placement, driftVelocity: real): (r: seq<Hit>)
    requires |d.times| == |d.charges| && 0 <= peak < |d.times|
    ensures |r| == 3 && r[0] == PointHit(w, pl, d.times[peak], d.charges[peak], driftVelocity)
    ensures peak > 0 ==> r[1] == PointHit(w, pl, d.times[peak - 1], d.charges[peak - 1], driftVelocity)
    ensures peak < |d.times| - 1 ==> r[2] == PointHit(w, pl, d.times[peak + 1], d.charges[peak + 1], driftVelocity)
    ensures peak == 0 ==> r[1] == r[0]
    ensures peak == |d.times| - 1 ==> r[2] == r[0]
  {
    var previous, following := Previous(peak), Following(peak, |d.times|);
    NeighbourBins(peak, |d.times|);
    [PointHit(w, pl, d.times[peak], d.charges[peak], driftVelocity),
     PointHit(w, pl, d.times[previous], d.charges[previous], driftVelocity),
     PointHit(w, pl, d.times[following], d.charges[following], driftVelocity)]
  }

  /** qCenter: one hit at the charge-weighted mean drift z, whose energy is
      the mean charge of the points. */
  function CentreHit(d: SignalData, w: Where, pl: Placement, driftVelocity: real): Hit
    requires |d.times| == |d.charges| && |d.charges| > 0 && Sum(d.charges) != 0.0
  {
    var total := Sum(d.charges);
    Hit(w.x, w.y, pl.planeZ + pl.fieldZ * (Weighted(d.times, d.charges, driftVelocity) / total),
        total / |d.charges| as real, 0.0, w.kind)
  }

  /** Every hit of a signal sits at its channel's position, carries the
      channel's type and has time 0. */
  lemma SignalHitsPlaced(d: SignalData, peak: int, pl: Placement, conversion: Conversion, driftVelocity: real, j: nat)
    requires Fits(d, peak, conversion)
    requires j < |SignalHits(d, peak, pl, conversion, driftVelocity)|
    ensures var h := SignalHits(d, peak, pl, conversion, driftVelocity)[j];
            h.x == Position(pl).x && h.y == Position(pl).y && h.kind == Position(pl).kind && h.time == 0.0
  {
    if conversion == AllPoints {
      AllHitsAt(d.times, d.charges, Position(pl), pl, driftVelocity, j);
    }
  }

  /** GetPlaneModuleChannel with the readout given as lookup: all three
      outputs are overwritten when a module holds the ID and left as they
      were when none does. */
  function PlaneModuleChannel(lookup: int -> Option<Location>, id: int, given: Location): Location {
    if lookup(id).Some? then lookup(id).value else given
  }

  /** The channel a signal is placed on, when the readout finds one. */
  function Found(lookup: int -> Option<Location>, id: int): (r: Option<Location>)
    ensures r.Some? <==> lookup(id).Some? && lookup(id).value.2 != -1
    ensures r.Some? ==> r.value == lookup(id).value
  {
    var loc := PlaneModuleChannel(lookup, id, (0, 0, -1));
    if loc.2 == -1 then None else Some(loc)
  }

  /** Every signal fits the conversion, with one peak bin per signal. */
  predicate Admissible(ds: seq<SignalData>, peaks: seq<int>, conversion: Conversion) {
    |peaks| == |ds| && forall i :: 0 <= i < |ds| ==> Fits(ds[i], peaks[i], conversion)
  }

  /** The hits of the first n signals, in signal order: a signal the
      readout does not place on a channel gives none. */
  function Converted(ds: seq<SignalData>, peaks: seq<int>, n: nat, lookup: int -> Option<Location>,
                     place: Location -> Placement, conversion: Conversion, driftVelocity: real): seq<Hit>
    requires Admissible(ds, peaks, conversion) && n <= |ds|
  {
    if n == 0 then []
    else
      Converted(ds, peaks, n - 1, lookup, place, conversion, driftVelocity)
      + SignalPart(ds[n - 1], peaks[n - 1], lookup, place, conversion, driftVelocity)
  }

  /** The hits of one signal: none when the readout does not place it. */
  function SignalPart(d: SignalData, peak: int, lookup: int -> Option<Location>,
                      place: Location -> Placement, conversion: Conversion, driftVelocity: real): seq<Hit>
    requires Fits(d, peak, conversion)
  {
    var found := Found(lookup, d.id);
    if found.None? then [] else SignalHits(d, peak, place(found.value), conversion, driftVelocity)
  }

  /** How many of the first n signals the readout places. */
  function FoundCount(ds: seq<SignalData>, n: nat, lookup: int -> Option<Location>): (r: nat)
    requires n <= |ds|
    ensures r <= n
  {
    if n == 0 then 0
    else FoundCount(ds, n - 1, lookup) + if Found(lookup, ds[n - 1].id).Some? then 1 else 0
  }

  /** How many points the placed signals among the first n hold. */
  function FoundPoints(ds: seq<SignalData>, n: nat, lookup: int -> Option<Location>): nat
    requires n <= |ds|
  {
    if n == 0 then 0
    else FoundPoints(ds, n - 1, lookup) + if Found(lookup, ds[n - 1].id).Some? then |ds[n - 1].times| else 0
  }

  /** onlyMax and qCenter give one hit per placed signal, tripleMax three,
      "all" one per point of the placed signals, and any other conversion
      none. */
  lemma {:induction false} ConvertedSize(ds: seq<SignalData>, peaks: seq<int>, n: nat, lookup: int -> Option<Location>,
                                         place: Location -> Placement, conversion: Conversion, driftVelocity: real)
    requires Admissible(ds, peaks, conversion) && n <= |ds|
    ensures var r := Converted(ds, peaks, n, lookup, place, conversion, driftVelocity);
            (conversion == OnlyMax || conversion == QCenter ==> |r| == FoundCount(ds, n, lookup))
            && (conversion == TripleMax ==> |r| == 3 * FoundCount(ds, n, lookup))
            && (conversion == AllPoints ==> |r| == FoundPoints(ds, n, lookup))
            && (!Known(conversion) ==> r == [])
  {
    if n > 0 {
      ConvertedSize(ds, peaks, n - 1, lookup, place, conversion, driftVelocity);
      var part := SignalPart(ds[n - 1], peaks[n - 1], lookup, place, conversion, driftVelocity);
      assert |Converted(ds, peaks, n, lookup, place, conversion, driftVelocity)|
             == |Converted(ds, peaks, n - 1, lookup, place, conversion, driftVelocity)| + |part|;
    }
  }

  /** No signal placed: no hit. */
  lemma {:induction false} ConvertedNothingFound(ds: seq<SignalData>, peaks: seq<int>, n: nat, lookup: int -> Option<Location>,
                                                 place: Location -> Placement, conversion: Conversion, driftVelocity: real)
    requires Admissible(ds, peaks, conversion) && n <= |ds|
    requires FoundCount(ds, n, lookup) == 0
    ensures Converted(ds, peaks, n, lookup, place, conversion, driftVelocity) == []
  {
    if n > 0 {
      ConvertedNothingFound(ds, peaks, n - 1, lookup, place, conversion, driftVelocity);
    }
  }

  /** The loop as written: the three outputs of GetPlaneModuleChannel live
      across signals, starting from channel -1, so after the first n
      signals a signal no module holds keeps the channel of the last one
      that some module held. */
  function StaleLocation(ds: seq<SignalData>, n: nat, lookup: int -> Option<Location>): Location
    requires n <= |ds|
  {
    if n == 0 then (0, 0, -1)
    else PlaneModuleChannel(lookup, ds[n - 1].id, StaleLocation(ds, n - 1, lookup))
  }

  /** The hits of the first n signals as the loop is written. */
  function ConvertedAsWritten(ds: seq<SignalData>, peaks: seq<int>, n: nat, lookup: int -> Option<Location>,
                              place: Location -> Placement, conversion: Conversion, driftVelocity: real): seq<Hit>
    requires Admissible(ds, peaks, conversion) && n <= |ds|
  {
    if n == 0 then []
    else
      var loc := StaleLocation(ds, n, lookup);
      ConvertedAsWritten(ds, peaks, n - 1, lookup, place, conversion, driftVelocity)
      + if loc.2 == -1 then [] else SignalHits(ds[n - 1], peaks[n - 1], place(loc), conversion, driftVelocity)
  }

  /** When some module holds every DAQ ID, the loop as written and the
      intended one agree. */
  lemma {:induction false} AsWrittenAgreesWhenHeld(ds: seq<SignalData>, peaks: seq<int>, n: nat, lookup: int -> Option<Location>,
                                                   place: Location -> Placement, conversion: Conversion, driftVelocity: real)
    requires Admissible(ds, peaks, conversion) && n <= |ds|
    requires forall i :: 0 <= i < |ds| ==> lookup(ds[i].id).Some?
    ensures ConvertedAsWritten(ds, peaks, n, lookup, place, conversion, driftVelocity)
            == Converted(ds, peaks, n, lookup, place, conversion, driftVelocity)
  {
    if n > 0 {
      AsWrittenAgreesWhenHeld(ds, peaks, n - 1, lookup, place, conversion, driftVelocity);
    }
  }

  /** Two one-point signals; only the first one's DAQ ID is on the readout.
      The loop as written places the second on the first one's channel. */
  lemma StaleChannelReused()
    ensures var ds := [SignalData(1, [0.0], [5.0]), SignalData(2, [0.0], [7.0])];
            var lookup := (id: int) => if id == 1 then Some((0, 0, 3)) else None;
            var place := (loc: Location) => Placement(0.0, 1.0, Both(0.0, 0.0), 0.0, 0.0);
            |ConvertedAsWritten(ds, [0, 0], 2, lookup, place, OnlyMax, 1.0)| == 2
            && ConvertedAsWritten(ds, [0, 0], 2, lookup, place, OnlyMax, 1.0)[1].energy == 7.0
            && |Converted(ds, [0, 0], 2, lookup, place, OnlyMax, 1.0)| == 1
  {
    var ds := [SignalData(1, [0.0], [5.0]), SignalData(2, [0.0], [7.0])];
    var lookup := (id: int) => if id == 1 then Some((0, 0, 3)) else None;
    assert StaleLocation(ds, 2, lookup) == (0, 0, 3);
    assert Found(lookup, 2).None?;
  }

  class SignalToHitsProcess {
    /** fMethod and fDriftVelocity, as configured; conversion is what the
        method name selects. */
    const methodName: string
    const conversion: Conversion
    const driftVelocity: real
    const hitsEvent: HitsEvent
    /** Whether InitProcess found a readout. */
    var readoutFound: bool
    /** Whether an error was set. */
    var hasError: bool

    /** The header's defaults: method "tripleMax", drift velocity -1. */
    constructor Default()
      ensures methodName == "tripleMax" && conversion == TripleMax && driftVelocity == -1.0
      ensures !readoutFound && !hasError
      ensures fresh(hitsEvent) && hitsEvent.Valid() && hitsEvent.hits.HitList() == []
    {
      methodName, driftVelocity := "tripleMax", -1.0;
      conversion := ConversionOf("tripleMax");
      hitsEvent := new HitsEvent();
      readoutFound, hasError := false, false;
    }

    /** A process with the given configuration. */
    constructor (methodName: string, driftVelocity: real)
      ensures this.methodName == methodName && this.driftVelocity == driftVelocity
      ensures conversion == ConversionOf(methodName)
      ensures !readoutFound && !hasError
      ensures fresh(hitsEvent) && hitsEvent.Valid() && hitsEvent.hits.HitList() == []
    {
      this.methodName, this.driftVelocity := methodName, driftVelocity;
      conversion := ConversionOf(methodName);
      hitsEvent := new HitsEvent();
      readoutFound, hasError := false, false;
    }

    /** InitProcess without a gas definition: a negative drift velocity and
        a missing readout are errors. */
    method InitProcess(readout: bool)
      modifies this
      ensures readoutFound == readout
      ensures hasError == (old(hasError) || driftVelocity < 0.0 || !readout)
    {
      if driftVelocity < 0.0 {
        hasError := true;
      }
      readoutFound := readout;
      if !readoutFound {
        hasError := true;
      }
    }

    /** The hits of every signal the readout places are appended to the
        hits event, which is returned unless it holds no hit at all; without
        a readout nothing happens and the result is null. peaks[i] is the
        peak bin of signal i. */
    method ProcessEvent(signalEvent: SignalEvent, peaks: seq<int>, lookup: int -> Option<Location>,
                        place: Location -> Placement)
      returns (output: HitsEvent?)
      requires hitsEvent.Valid()
      requires Admissible(DataOf(signalEvent.signals), peaks, conversion)
      modifies this, hitsEvent.hits
      ensures hitsEvent.Valid() && readoutFound == old(readoutFound)
      ensures !readoutFound ==> output == null && hasError == old(hasError)
                                && hitsEvent.hits.HitList() == old(hitsEvent.hits.HitList())
      ensures var ds := old(DataOf(signalEvent.signals));
              readoutFound ==>
                hitsEvent.hits.HitList()
                == old(hitsEvent.hits.HitList()) + Converted(ds, peaks, |ds|, lookup, place, conversion, driftVelocity)
      ensures readoutFound ==> (output == null <==> hitsEvent.hits.HitList() == [])
      ensures output != null ==> output == hitsEvent
      ensures var ds := old(DataOf(signalEvent.signals));
              readoutFound ==> hasError == (old(hasError) || (!Known(conversion) && FoundCount(ds, |ds|, lookup) > 0))
    {
      if !readoutFound {
        return null;
      }
      var unknownMethod := ConvertSignals(signalEvent, peaks, lookup, place);
      if unknownMethod {
        hasError := true;
      }
      if hitsEvent.hits.nHits <= 0 {
        return null;
      }
      return hitsEvent;
    }

    /** ProcessEvent's loop over the signals. */
    method ConvertSignals(signalEvent: SignalEvent, peaks: seq<int>, lookup: int -> Option<Location>,
                          place: Location -> Placement)
      returns (unknownMethod: bool)
      requires hitsEvent.Valid()
      requires Admissible(DataOf(signalEvent.signals), peaks, conversion)
      modifies hitsEvent.hits
      ensures hitsEvent.Valid()
      ensures var ds := old(DataOf(signalEvent.signals));
              hitsEvent.hits.HitList()
              == old(hitsEvent.hits.HitList()) + Converted(ds, peaks, |ds|, lookup, place, conversion, driftVelocity)
      ensures var ds := old(DataOf(signalEvent.signals));
              unknownMethod == (!Known(conversion) && FoundCount(ds, |ds|, lookup) > 0)
    {
      var ds := DataOf(signalEvent.signals);
      unknownMethod := ConvertLoop(ds, peaks, lookup, place);
    }

    /** The loop itself, over the signals' values ds. */
    method ConvertLoop(ds: seq<SignalData>, peaks: seq<int>, lookup: int -> Option<Location>,
                       place: Location -> Placement)
      returns (unknownMethod: bool)
      requires hitsEvent.hits.Valid()
      requires Admissible(ds, peaks, conversion)
      modifies hitsEvent.hits
      ensures hitsEvent.hits.Valid()
      ensures hitsEvent.hits.HitList()
              == old(hitsEvent.hits.HitList()) + Converted(ds, peaks, |ds|, lookup, place, conversion, driftVelocity)
      ensures unknownMethod == (!Known(conversion) && FoundCount(ds, |ds|, lookup) > 0)
    {
      ghost var before := hitsEvent.hits.HitList();
      unknownMethod := false;
      for i := 0 to |ds|
        invariant hitsEvent.hits.Valid()
        invariant hitsEvent.hits.HitList() == before + Converted(ds, peaks, i, lookup, place, conversion, driftVelocity)
        invariant unknownMethod == (!Known(conversion) && FoundCount(ds, i, lookup) > 0)
      {
        unknownMethod := ConvertSignal(ds[i], peaks[i], lookup, place, ds, peaks, i, before, unknownMethod);
      }
    }

    /** The body of ProcessEvent's loop for signal i, whose data is d: the
        readout's channel for its DAQ ID, starting from channel -1, and the
        signal's hits when that channel exists. The result says whether an
        unknown conversion met a placed signal so far. */
    method ConvertSignal(d: SignalData, peak: int, lookup: int -> Option<Location>, place: Location -> Placement,
                         ghost ds: seq<SignalData>, ghost peaks: seq<int>, ghost i: nat, ghost before: seq<Hit>,
                         unknownSoFar: bool)
      returns (unknownMethod: bool)
      requires Admissible(ds, peaks, conversion) && i < |ds|
      requires d == ds[i] && peak == peaks[i]
      requires hitsEvent.hits.Valid()
      requires hitsEvent.hits.HitList() == before + Converted(ds, peaks, i, lookup, place, conversion, driftVelocity)
      requires unknownSoFar == (!Known(conversion) && FoundCount(ds, i, lookup) > 0)
      modifies hitsEvent.hits
      ensures hitsEvent.hits.Valid()
      ensures hitsEvent.hits.HitList() == before + Converted(ds, peaks, i + 1, lookup, place, conversion, driftVelocity)
      ensures unknownMethod == (!Known(conversion) && FoundCount(ds, i + 1, lookup) > 0)
    {
      ConvertedStep(ds, peaks, i, lookup, place, conversion, driftVelocity);
      Regrouped(before, Converted(ds, peaks, i, lookup, place, conversion, driftVelocity),
                SignalPart(d, peak, lookup, place, conversion, driftVelocity));
      var located := PlaneModuleChannel(lookup, d.id, (0, 0, -1));
      var (planeId, readoutModule, readoutChannel) := located;
      unknownMethod := unknownSoFar;
      if readoutChannel != -1 {
        var known := AddSignalHits(d, peak, place((planeId, readoutModule, readoutChannel)));
        unknownMethod := unknownMethod || !known;
      }
    }

    /** The hits of one placed signal, by conversion; an unknown conversion
        adds nothing and is reported. */
    method AddSignalHits(d: SignalData, peak: int, pl: Placement) returns (known: bool)
      requires hitsEvent.hits.Valid() && Fits(d, peak, conversion)
      modifies hitsEvent.hits
      ensures hitsEvent.hits.Valid()
      ensures hitsEvent.hits.HitList() == old(hitsEvent.hits.HitList()) + SignalHits(d, peak, pl, conversion, driftVelocity)
      ensures known == Known(conversion)
    {
      var x, y, kind := 0.0, 0.0, XYZ;
      if pl.coords.XIsNaN() {
        x, y, kind := pl.centreX, pl.coords.y, YZ;
      } else if pl.coords.YIsNaN() {
        x, y, kind := pl.coords.x, pl.centreY, XZ;
      } else {
        x, y := pl.coords.x, pl.coords.y;
      }
      var w := Where(x, y, kind);
      assert w == Position(pl);
      if conversion == OnlyMax {
        AddPointHit(w, pl, d.times[peak], d.charges[peak]);
      } else if conversion == TripleMax {
        AddTripleHits(d, peak, w, pl);
      } else if conversion == QCenter {
        AddCentreHit(d, w, pl);
      } else if conversion == AllPoints {
        AddAllPoints(d, w, pl);
      } else {
        known := false;
        return;
      }
      known := true;
    }

    /** tripleMax for one signal. */
    method AddTripleHits(d: SignalData, peak: int, w: Where, pl: Placement)
      requires hitsEvent.hits.Valid() && |d.times| == |d.charges| && 0 <= peak < |d.times|
      modifies hitsEvent.hits
      ensures hitsEvent.hits.Valid()
      ensures hitsEvent.hits.HitList() == old(hitsEvent.hits.HitList()) + TripleHits(d, peak, w, pl, driftVelocity)
    {
      var bin := peak;
      var binPrevious := Previous(bin);
      var binNext := Following(bin, |d.times|);
      NeighbourBins(bin, |d.times|);
      AddPointHit(w, pl, d.times[bin], d.charges[bin]);
      AddPointHit(w, pl, d.times[binPrevious], d.charges[binPrevious]);
      AddPointHit(w, pl, d.times[binNext], d.charges[binNext]);
      ghost var triple := TripleHits(d, peak, w, pl, driftVelocity);
      assert triple == [triple[0]] + [triple[1]] + [triple[2]];
    }

    /** One hit from one point: the drift distance of its time along the
        plane's normal, its charge as energy. */
    method AddPointHit(w: Where, pl: Placement, time: real, energy: real)
      requires hitsEvent.hits.Valid()
      modifies hitsEvent.hits
      ensures hitsEvent.hits.Valid()
      ensures hitsEvent.hits.HitList() == old(hitsEvent.hits.HitList()) + [PointHit(w, pl, time, energy, driftVelocity)]
    {
      var distanceToPlane := time * driftVelocity;
      var z := pl.planeZ + pl.fieldZ * distanceToPlane;
      assert Hit(w.x, w.y, z, energy, 0.0, w.kind) == PointHit(w, pl, time, energy, driftVelocity);
      hitsEvent.hits.AddHit(w.x, w.y, z, energy, 0.0, w.kind);
    }

    /** qCenter for one signal. */
    method AddCentreHit(d: SignalData, w: Where, pl: Placement)
      requires hitsEvent.hits.Valid() && |d.times| == |d.charges| && |d.charges| > 0 && Sum(d.charges) != 0.0
      modifies hitsEvent.hits
      ensures hitsEvent.hits.Valid()
      ensures hitsEvent.hits.HitList() == old(hitsEvent.hits.HitList()) + [CentreHit(d, w, pl, driftVelocity)]
    {
      var energySignal, distanceToPlane := ChargeCentre(d.times, d.charges);
      var energy := energySignal / |d.times| as real;
      var z := pl.planeZ + pl.fieldZ * (distanceToPlane / energySignal);
      assert Hit(w.x, w.y, z, energy, 0.0, w.kind) == CentreHit(d, w, pl, driftVelocity);
      hitsEvent.hits.AddHit(w.x, w.y, z, energy, 0.0, w.kind);
    }

    /** qCenter's loop over the points: the charge sum and the
        charge-weighted drift distance. */
    method ChargeCentre(times: seq<real>, charges: seq<real>) returns (energySignal: real, distanceToPlane: real)
      requires |times| == |charges|
      ensures energySignal == Sum(charges)
      ensures distanceToPlane == Weighted(times, charges, driftVelocity)
    {
      energySignal, distanceToPlane := 0.0, 0.0;
      for j := 0 to |times|
        invariant energySignal == Sum(charges[..j])
        invariant distanceToPlane == Weighted(times[..j], charges[..j], driftVelocity)
      {
        var energyPoint := charges[j];
        energySignal := energySignal + energyPoint;
        distanceToPlane := distanceToPlane + times[j] * driftVelocity * energyPoint;
        assert charges[..j + 1][..j] == charges[..j] && times[..j + 1][..j] == times[..j];
      }
      assert charges[..|times|] == charges && times[..|times|] == times;
    }

    /** "all"'s loop: one hit per point. */
    method AddAllPoints(d: SignalData, w: Where, pl: Placement)
      requires hitsEvent.hits.Valid() && |d.times| == |d.charges|
      modifies hitsEvent.hits
      ensures hitsEvent.hits.Valid()
      ensures hitsEvent.hits.HitList() == old(hitsEvent.hits.HitList()) + AllHits(d.times, d.charges, w, pl, driftVelocity)
    {
      ghost var before := hitsEvent.hits.HitList();
      for j := 0 to |d.times|
        invariant hitsEvent.hits.Valid()
        invariant hitsEvent.hits.HitList() == before + AllHits(d.times[..j], d.charges[..j], w, pl, driftVelocity)
      {
        AddPointHit(w, pl, d.times[j], d.charges[j]);
        assert d.times[..j + 1][..j] == d.times[..j] && d.charges[..j + 1][..j] == d.charges[..j];
      }
      assert d.times[..|d.times|] == d.times && d.charges[..|d.times|] == d.charges;
    }
  }

  lemma DataOfAll(ss: seq<Signal>)
    ensures forall i :: 0 <= i < |ss| ==> DataOf(ss)[i] == SignalData(ss[i].signalID, ss[i].times, ss[i].charges)
  {
    forall i | 0 <= i < |ss|
      ensures DataOf(ss)[i] == SignalData(ss[i].signalID, ss[i].times, ss[i].charges)
    {
      DataOfAt(ss, i);
    }
  }

  /** Converting one more signal. */
  lemma ConvertedStep(ds: seq<SignalData>, peaks: seq<int>, i: nat, lookup: int -> Option<Location>,
                      place: Location -> Placement, conversion: Conversion, driftVelocity: real)
    requires Admissible(ds, peaks, conversion) && i < |ds|
    ensures Converted(ds, peaks, i + 1, lookup, place, conversion, driftVelocity)
            == Converted(ds, peaks, i, lookup, place, conversion, driftVelocity)
               + SignalPart(ds[i], peaks[i], lookup, place, conversion, driftVelocity)
    ensures FoundCount(ds, i + 1, lookup) == FoundCount(ds, i, lookup) + if Found(lookup, ds[i].id).Some? then 1 else 0
  {
  }

  lemma Regrouped(a: seq<Hit>, b: seq<Hit>, c: seq<Hit>)
    ensures (a + b) + c == a + (b + c)
  {
  }
}
