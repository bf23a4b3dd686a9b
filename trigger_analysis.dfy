/** TRestDetectorTriggerAnalysisProcess: for every observable named
    Integral_Eth<threshold>, the event's signals are scanned in time bins
    from the earliest one on; at the first bin whose half-ADC-window energy
    exceeds the threshold, the integral over a whole ADC window is recorded.
    The first threshold also fixes the trigger start bin. */
module TriggerAnalysis {
  import opened Signals
  import opened SignalEvents

  const Marker: string := "Integral_Eth"

  /** Whether p occurs in s at index j. */
  predicate OccursAt(s: string, p: string, j: nat) {
    j + |p| <= |s| && s[j..j + |p|] == p
  }

  /** Whether p occurs in s at index k or later (std::string::find != npos). */
  function ContainsFrom(s: string, p: string, k: nat): bool
    decreases |s| - k
  {
    if k + |p| > |s| then false
    else if s[k..k + |p|] == p then true
    else ContainsFrom(s, p, k + 1)
  }

  /** ContainsFrom is a search for an occurrence at index k or later. */
  lemma {:induction false} ContainsFromMeaning(s: string, p: string, k: nat)
    ensures ContainsFrom(s, p, k) <==> exists j: nat :: k <= j && OccursAt(s, p, j)
    decreases |s| - k
  {
    if k + |p| > |s| {
      forall j: nat | k <= j
        ensures !OccursAt(s, p, j)
      {
      }
    } else if s[k..k + |p|] == p {
      assert OccursAt(s, p, k);
    } else {
      ContainsFromMeaning(s, p, k + 1);
      if exists j: nat :: k <= j && OccursAt(s, p, j) {
        var j: nat :| k <= j && OccursAt(s, p, j);
        assert j != k;
      }
    }
  }

  /** A name holding the marker is at least as long as the marker, so the
      threshold text after the first 12 characters exists. */
  lemma MarkedNameLongEnough(s: string)
    requires ContainsFrom(s, Marker, 0)
    ensures |s| >= |Marker| == 12
  {
    ContainsFromMeaning(s, Marker, 0);
  }

  /** The observables whose name holds the marker, in their order. */
  function IntegralNames(observables: seq<string>): (r: seq<string>)
  {
    if observables == [] then []
    else
      var last := observables[|observables| - 1];
      IntegralNames(observables[..|observables| - 1]) + (if ContainsFrom(last, Marker, 0) then [last] else [])
  }

  /** IntegralNames keeps exactly the marked names. */
  lemma {:induction false} IntegralNamesMeaning(observables: seq<string>)
    ensures forall s :: s in IntegralNames(observables) <==> s in observables && ContainsFrom(s, Marker, 0)
  {
    if observables != [] {
      var init := observables[..|observables| - 1];
      IntegralNamesMeaning(init);
      assert observables == init + [observables[|observables| - 1]];
    }
  }

  /** The threshold of an integral observable: atof of its name after the
      first 12 characters. */
  function Threshold(name: string, atof: string -> real): real
    requires |name| >= 12
  {
    atof(name[12..])
  }

  /** C++ integer division by two, which truncates towards zero. */
  function Half(n: int): int {
    if n >= 0 then n / 2 else -((-n) / 2)
  }

  /** Conversion of a real to Int_t, which truncates towards zero. */
  function Trunc(r: real): int {
    if r >= 0.0 then r.Floor else -((-r).Floor)
  }

  /** The bin of time t: the time over the sampling, truncated towards zero. */
  function Bin(t: real, sampling: real): int
    requires sampling != 0.0
  {
    Trunc(t / sampling)
  }

  /** The time at which bin i starts. */
  function TimeOf(i: int, sampling: real): real {
    i as real * sampling
  }

  /** Number of entries above zero: the scan's counter. */
  function CountPositive(s: seq<real>): (n: nat)
    ensures n <= |s|
  {
    if s == [] then 0 else CountPositive(s[..|s| - 1]) + (if s[|s| - 1] > 0.0 then 1 else 0)
  }

  /** The integrals after one bin: each still-zero integral whose threshold
      the half-window energy en exceeds takes the whole-window integral. */
  function Fired(integral: seq<real>, thresholds: seq<real>, en: real, full: real): (r: seq<real>)
    requires |thresholds| == |integral|
    ensures |r| == |integral|
  {
    seq(|integral|, n requires 0 <= n < |integral| =>
      if integral[n] == 0.0 && en > thresholds[n] then full else integral[n])
  }

  /** The trigger start after bin i: only the first threshold moves it. */
  function Started(integral: seq<real>, thresholds: seq<real>, en: real, i: int, start: int): int
    requires |thresholds| == |integral|
  {
    if |integral| > 0 && integral[0] == 0.0 && en > thresholds[0] then i else start
  }

  /** GetIntegralWithTime over the points of an event. */
  function PointsIntegral(ps: seq<SignalData>, start: real, end: real): real {
    if ps == [] then 0.0
    else
      var p := ps[|ps| - 1];
      PointsIntegral(ps[..|ps| - 1], start, end)
      + (if |p.times| == |p.charges| then IntegralWithTime(p.times, p.charges, start, end) else 0.0)
  }

  /** The integral over the points is the event's integral. */
  lemma {:induction false} PointsIntegralIs(ss: seq<Signal>, start: real, end: real)
    requires forall k :: 0 <= k < |ss| ==> ss[k].Valid()
    ensures PointsIntegral(DataOf(ss), start, end) == EventIntegral(ss, start, end)
  {
    if ss != [] {
      var init := ss[..|ss| - 1];
      PointsIntegralIs(init, start, end);
      assert DataOf(ss)[..|ss| - 1] == DataOf(init);
      assert ss[|ss| - 1].Valid();
    }
  }

  /** The scan from bin i up to maxT, stopping once every integral is
      positive; ps are the points of the event's signals. */
  function ScanFrom(ps: seq<SignalData>, thresholds: seq<real>, sampling: real, adcLength: int,
                    i: int, maxT: int, integral: seq<real>, start: int): (r: (seq<real>, int))
    requires |integral| == |thresholds|
    ensures |r.0| == |thresholds|
    decreases if i > maxT then 0 else maxT - i + 1
  {
    if i > maxT || CountPositive(integral) >= |thresholds| then (integral, start)
    else
      var en := PointsIntegral(ps, TimeOf(i, sampling), TimeOf(i + Half(adcLength), sampling));
      var full := PointsIntegral(ps, TimeOf(i, sampling), TimeOf(i + adcLength, sampling));
      ScanFrom(ps, thresholds, sampling, adcLength, i + 1, maxT,
               Fired(integral, thresholds, en, full), Started(integral, thresholds, en, i, start))
  }

  /** The scan of an event whose signals span bins minT to maxT: it starts
      half an ADC window before minT with every integral at zero. */
  function EventScan(ps: seq<SignalData>, thresholds: seq<real>, sampling: real, adcLength: int,
                     minT: int, maxT: int): (r: (seq<real>, int))
    ensures |r.0| == |thresholds|
  {
    ScanFrom(ps, thresholds, sampling, adcLength, minT - Half(adcLength), maxT, Zeros(|thresholds|), 0)
  }

  /** An integral that is already set is never overwritten. */
  lemma {:induction false} ScanKeepsSet(ps: seq<SignalData>, thresholds: seq<real>, sampling: real, adcLength: int,
                                        i: int, maxT: int, integral: seq<real>, start: int, n: nat)
    requires |integral| == |thresholds| && n < |integral| && integral[n] != 0.0
    ensures ScanFrom(ps, thresholds, sampling, adcLength, i, maxT, integral, start).0[n] == integral[n]
    decreases if i > maxT then 0 else maxT - i + 1
  {
    if !(i > maxT || CountPositive(integral) >= |thresholds|) {
      var en := PointsIntegral(ps, TimeOf(i, sampling), TimeOf(i + Half(adcLength), sampling));
      var full := PointsIntegral(ps, TimeOf(i, sampling), TimeOf(i + adcLength, sampling));
      ScanKeepsSet(ps, thresholds, sampling, adcLength, i + 1, maxT,
                   Fired(integral, thresholds, en, full), Started(integral, thresholds, en, i, start), n);
    }
  }

  /** Once the first integral is set, the trigger start stays where it is. */
  lemma {:induction false} ScanStartFixed(ps: seq<SignalData>, thresholds: seq<real>, sampling: real, adcLength: int,
                                          i: int, maxT: int, integral: seq<real>, start: int)
    requires |integral| == |thresholds| && |integral| > 0 && integral[0] != 0.0
    ensures ScanFrom(ps, thresholds, sampling, adcLength, i, maxT, integral, start).1 == start
    decreases if i > maxT then 0 else maxT - i + 1
  {
    if !(i > maxT || CountPositive(integral) >= |thresholds|) {
      var en := PointsIntegral(ps, TimeOf(i, sampling), TimeOf(i + Half(adcLength), sampling));
      var full := PointsIntegral(ps, TimeOf(i, sampling), TimeOf(i + adcLength, sampling));
      ScanStartFixed(ps, thresholds, sampling, adcLength, i + 1, maxT,
                     Fired(integral, thresholds, en, full), Started(integral, thresholds, en, i, start));
    }
  }

  /** The scan stops past maxT or once every integral is positive. */
  lemma ScanDone(ps: seq<SignalData>, thresholds: seq<real>, sampling: real, adcLength: int,
                 i: int, maxT: int, integral: seq<real>, start: int)
    requires |integral| == |thresholds| && (i > maxT || CountPositive(integral) >= |thresholds|)
    ensures ScanFrom(ps, thresholds, sampling, adcLength, i, maxT, integral, start) == (integral, start)
  {
  }

  /** One bin of the scan: while it goes on, the scan from i is the scan
      from i + 1 after the bin's thresholds have fired. */
  lemma ScanStep(ps: seq<SignalData>, thresholds: seq<real>, sampling: real, adcLength: int,
                 i: int, maxT: int, integral: seq<real>, start: int, en: real, full: real)
    requires |integral| == |thresholds| && i <= maxT && CountPositive(integral) < |thresholds|
    requires en == PointsIntegral(ps, TimeOf(i, sampling), TimeOf(i + Half(adcLength), sampling))
    requires full == PointsIntegral(ps, TimeOf(i, sampling), TimeOf(i + adcLength, sampling))
    ensures ScanFrom(ps, thresholds, sampling, adcLength, i, maxT, integral, start)
            == ScanFrom(ps, thresholds, sampling, adcLength, i + 1, maxT,
                        Fired(integral, thresholds, en, full), Started(integral, thresholds, en, i, start))
  {
  }

  /** What ProcessEvent computes for an event: the observables (one integral
      per threshold, the trigger start bin and the raw integral) and the time
      range they were taken over, in time and in bins. */
  datatype Analysis = Analysis(integrals: seq<real>, triggerStarts: int, rawIntegral: real,
                               minTime: real, maxTime: real, minT: int, maxT: int)

  /** The analysis of the signals ss: the bins of the earliest and latest
      times (truncated towards zero), the scan from half an ADC window
      before the first bin, and the integral from one time unit before the
      first bin to one after the last. */
  function Analysed(ss: seq<Signal>, thresholds: seq<real>, sampling: real, adcLength: int): (a: Analysis)
    reads ss
    requires (forall k :: 0 <= k < |ss| ==> ss[k].Valid()) && HavePoints(ss) && sampling != 0.0
    ensures |a.integrals| == |thresholds|
    ensures a.minT == Bin(a.minTime, sampling) && a.maxT == Bin(a.maxTime, sampling)
  {
    var minTime := EarliestTime(ss);
    var maxTime := LatestTime(ss);
    var minT := Bin(minTime, sampling);
    var maxT := Bin(maxTime, sampling);
    var scan := EventScan(DataOf(ss), thresholds, sampling, adcLength, minT, maxT);
    Analysis(scan.0, scan.1, SpanIntegral(ss, minT, maxT, sampling),
             minTime, maxTime, minT, maxT)
  }

  /** The parts that determine an analysis. */
  lemma AnalysedIs(ss: seq<Signal>, thresholds: seq<real>, sampling: real, adcLength: int, a: Analysis)
    requires (forall k :: 0 <= k < |ss| ==> ss[k].Valid()) && HavePoints(ss) && sampling != 0.0
    requires a.minTime == EarliestTime(ss) && a.maxTime == LatestTime(ss)
    requires a.minT == Bin(a.minTime, sampling) && a.maxT == Bin(a.maxTime, sampling)
    requires (a.integrals, a.triggerStarts) == EventScan(DataOf(ss), thresholds, sampling, adcLength, a.minT, a.maxT)
    requires a.rawIntegral == SpanIntegral(ss, a.minT, a.maxT, sampling)
    ensures Analysed(ss, thresholds, sampling, adcLength) == a
  {
  }

  /** The integral of the signals over bins minT to maxT, widened by one
      time unit on either side. */
  function SpanIntegral(ss: seq<Signal>, minT: int, maxT: int, sampling: real): real
    reads ss
    requires forall k :: 0 <= k < |ss| ==> ss[k].Valid()
  {
    EventIntegral(ss, TimeOf(minT, sampling) - 1.0, TimeOf(maxT, sampling) + 1.0)
  }

  /** Zeros, one per threshold: the integrals before the scan. */
  function Zeros(n: nat): (r: seq<real>)
    ensures |r| == n && CountPositive(r) == 0
  {
    if n == 0 then [] else
      var r := Zeros(n - 1) + [0.0];
      assert r[..n - 1] == Zeros(n - 1);
      r
  }

  class TriggerAnalysisProcess {
    /** The event the process fills, created once with the process. */
    const signalEvent: SignalEvent
    /** The sampling time and the ADC window length, in bins, from the
        configuration. */
    const sampling: real
    const adcLength: int
    var integralObservables: seq<string>
    var thresholds: seq<real>

    constructor (samplingTime: real, adc: int)
      ensures fresh(signalEvent) && signalEvent.Valid() && signalEvent.signals == []
      ensures integralObservables == [] && thresholds == []
      ensures sampling == samplingTime && adcLength == adc
    {
      signalEvent := new SignalEvent();
      integralObservables, thresholds := [], [];
      sampling, adcLength := samplingTime, adc;
    }

    /** Picks the integral observables out of the observable names and then
        appends one threshold for every integral observable held, the earlier
        ones included; atof is the C library's conversion. */
    method InitProcess(observables: seq<string>, atof: string -> real)
      requires forall k :: 0 <= k < |integralObservables| ==> |integralObservables[k]| >= 12
      modifies this
      ensures integralObservables == old(integralObservables) + IntegralNames(observables)
      ensures forall k :: 0 <= k < |integralObservables| ==> |integralObservables[k]| >= 12
      ensures |thresholds| == |old(thresholds)| + |integralObservables|
      ensures |thresholds| >= |integralObservables|
      ensures thresholds[..|old(thresholds)|] == old(thresholds)
      ensures forall k :: 0 <= k < |integralObservables| ==>
                thresholds[|old(thresholds)| + k] == Threshold(integralObservables[k], atof)
    {
      ghost var before := integralObservables;
      for i := 0 to |observables|
        invariant integralObservables == before + IntegralNames(observables[..i])
        invariant thresholds == old(thresholds)
        invariant forall k :: 0 <= k < |integralObservables| ==> |integralObservables[k]| >= 12
      {
        assert observables[..i + 1][..i] == observables[..i];
        if ContainsFrom(observables[i], Marker, 0) {
          MarkedNameLongEnough(observables[i]);
          integralObservables := integralObservables + [observables[i]];
        }
      }
      assert observables[..|observables|] == observables;
      var first := |thresholds|;
      for i := 0 to |integralObservables|
        invariant integralObservables == before + IntegralNames(observables)
        invariant forall k :: 0 <= k < |integralObservables| ==> |integralObservables[k]| >= 12
        invariant |thresholds| == first + i && thresholds[..first] == old(thresholds)
        invariant forall k :: 0 <= k < i ==> thresholds[first + k] == Threshold(integralObservables[k], atof)
      {
        thresholds := thresholds + [Threshold(integralObservables[i], atof)];
      }
    }

    /** Copies the input signals into the process's own event and scans it.
        The observables come back as results: integrals (one per integral
        observable), triggerStarts and rawIntegral, for the bins minT and
        maxT of the earliest and latest signal times, minTime and maxTime.
        Only the first |integralObservables| thresholds take part: a second
        InitProcess leaves more thresholds than observables, and the scan
        never reads the surplus. The constructor and InitProcess keep at
        least as many thresholds as observables. */
    method ProcessEvent(input: SignalEvent)
      returns (output: SignalEvent, integrals: seq<real>, triggerStarts: int, rawIntegral: real,
               minTime: real, maxTime: real, minT: int, maxT: int)
      requires signalEvent.Valid() && input.Valid() && signalEvent != input && sampling != 0.0
      requires HavePoints(input.signals) && HavePoints(signalEvent.signals)
      requires |thresholds| >= |integralObservables|
      modifies signalEvent
      ensures output == signalEvent && signalEvent.Valid() && HavePoints(signalEvent.signals)
      ensures |integrals| == |integralObservables|
      ensures forall k :: 0 <= k < |input.signals| ==> input.signals[k].signalID in IdsOf(signalEvent.signals)
      ensures DataOf(signalEvent.signals) == Admitted(old(DataOf(signalEvent.signals)), old(DataOf(input.signals)))
      ensures Analysis(integrals, triggerStarts, rawIntegral, minTime, maxTime, minT, maxT)
              == Analysed(signalEvent.signals, thresholds[..|integralObservables|], sampling, adcLength)
    {
      CopySignals(signalEvent, input);
      integrals, triggerStarts, rawIntegral, minTime, maxTime, minT, maxT
        := Analyse(signalEvent, thresholds[..|integralObservables|], sampling, adcLength);
      output := signalEvent;
    }
  }

  /** The read-only part of TriggerAnalysisProcess.ProcessEvent: the time
      range of the event in bins, the scan over those bins and the raw
      integral over the whole range. */
  method Analyse(ev: SignalEvent, thresholds: seq<real>, sampling: real, adcLength: int)
    returns (integrals: seq<real>, triggerStarts: int, rawIntegral: real,
             minTime: real, maxTime: real, minT: int, maxT: int)
    requires ev.Valid() && HavePoints(ev.signals) && sampling != 0.0
    ensures Analysis(integrals, triggerStarts, rawIntegral, minTime, maxTime, minT, maxT)
            == Analysed(ev.signals, thresholds, sampling, adcLength)
  {
    minTime, maxTime, minT, maxT := TimeRange(ev, sampling);
    integrals, triggerStarts, rawIntegral := Observe(ev, thresholds, sampling, adcLength, minT, maxT);
    AnalysedIs(ev.signals, thresholds, sampling, adcLength,
               Analysis(integrals, triggerStarts, rawIntegral, minTime, maxTime, minT, maxT));
  }

  /** The scan and the raw integral over bins minT to maxT. */
  method Observe(ev: SignalEvent, thresholds: seq<real>, sampling: real, adcLength: int, minT: int, maxT: int)
    returns (integrals: seq<real>, triggerStarts: int, rawIntegral: real)
    requires ev.Valid()
    ensures (integrals, triggerStarts) == EventScan(DataOf(ev.signals), thresholds, sampling, adcLength, minT, maxT)
    ensures rawIntegral == SpanIntegral(ev.signals, minT, maxT, sampling)
  {
    integrals, triggerStarts := Scan(ev, thresholds, sampling, adcLength, minT, maxT);
    rawIntegral := ev.GetIntegralWithTime(TimeOf(minT, sampling) - 1.0, TimeOf(maxT, sampling) + 1.0);
  }

  /** The event's time range, in time and in bins. */
  method TimeRange(ev: SignalEvent, sampling: real) returns (minTime: real, maxTime: real, minT: int, maxT: int)
    requires ev.Valid() && HavePoints(ev.signals) && sampling != 0.0
    ensures minTime == EarliestTime(ev.signals) && maxTime == LatestTime(ev.signals)
    ensures minT == Bin(minTime, sampling) && maxT == Bin(maxTime, sampling)
  {
    maxTime := ev.GetMaxTime();
    minTime := ev.GetMinTime();
    maxT := Bin(maxTime, sampling);
    minT := Bin(minTime, sampling);
  }

  /** The AddSignal loop over the input signals: the event's signals become
      the input's admitted after the ones it held (a signal whose ID is
      already there is skipped), so every input ID ends up in the event. */
  method CopySignals(ev: SignalEvent, input: SignalEvent)
    requires ev.Valid() && input.Valid() && ev != input
    requires HavePoints(input.signals) && HavePoints(ev.signals)
    modifies ev
    ensures ev.Valid() && HavePoints(ev.signals)
    ensures DataOf(ev.signals) == Admitted(old(DataOf(ev.signals)), old(DataOf(input.signals)))
    ensures forall k :: 0 <= k < |input.signals| ==> input.signals[k].signalID in IdsOf(ev.signals)
  {
    ghost var held := DataOf(ev.signals);
    ghost var inData := DataOf(input.signals);
    HavePointsOfData(ev.signals);
    HavePointsOfData(input.signals);
    var sigs := input.signals;
    forall i | 0 <= i < |sigs|
      ensures sigs[i].Valid() && inData[i] == SignalData(sigs[i].signalID, sigs[i].times, sigs[i].charges)
    {
      DataOfAt(sigs, i);
    }
    CopyLoop(ev, sigs, held, inData);
    CopiedSignals(ev.signals, held, inData);
    DataIdsOf(ev.signals);
  }

  /** The loop itself, over the input's signals sigs whose values are inData. */
  method CopyLoop(ev: SignalEvent, sigs: seq<Signal>, ghost held: seq<SignalData>, ghost inData: seq<SignalData>)
    requires ev.Valid() && |inData| == |sigs| && DataOf(ev.signals) == held
    requires forall i :: 0 <= i < |sigs| ==>
               sigs[i].Valid() && inData[i] == SignalData(sigs[i].signalID, sigs[i].times, sigs[i].charges)
    modifies ev
    ensures ev.Valid() && DataOf(ev.signals) == Admitted(held, inData)
    ensures forall i :: 0 <= i < |sigs| ==> inData[i].id == sigs[i].signalID
  {
    var k := 0;
    while k < |sigs|
      invariant ev.Valid() && 0 <= k <= |sigs|
      invariant forall i :: 0 <= i < |sigs| ==>
                  sigs[i].Valid() && inData[i] == SignalData(sigs[i].signalID, sigs[i].times, sigs[i].charges)
      invariant DataOf(ev.signals) == Admitted(held, inData[..k])
    {
      assert inData[..k + 1][..k] == inData[..k];
      CopyNext(ev, sigs[k], held, inData[..k + 1]);
      k := k + 1;
    }
    assert inData[..k] == inData;
  }

  /** Signals whose values are the input's admitted after signals holding
      points hold points themselves and carry every input ID. */
  lemma CopiedSignals(ss: seq<Signal>, held: seq<SignalData>, inData: seq<SignalData>)
    requires DataHavePoints(held) && DataHavePoints(inData)
    requires DataOf(ss) == Admitted(held, inData)
    ensures HavePoints(ss)
    ensures forall k :: 0 <= k < |inData| ==> inData[k].id in DataIds(DataOf(ss))
  {
    AdmittedHavePoints(held, inData);
    HavePointsOfData(ss);
    AdmittedHoldsIds(held, inData);
  }

  /** The loop body for the input's next signal, whose value ends copied. */
  method CopyNext(ev: SignalEvent, signal: Signal, ghost held: seq<SignalData>, ghost copied: seq<SignalData>)
    requires ev.Valid() && signal.Valid() && copied != []
    requires copied[|copied| - 1] == SignalData(signal.signalID, signal.times, signal.charges)
    requires DataOf(ev.signals) == Admitted(held, copied[..|copied| - 1])
    modifies ev
    ensures ev.Valid()
    ensures DataOf(ev.signals) == Admitted(held, copied)
  {
    assert copied[..|copied| - 1] + [copied[|copied| - 1]] == copied;
    AddSignalData(ev, signal, held, copied[..|copied| - 1]);
  }

  /** AddSignal of one input signal: the event gains a copy of its ID, times
      and charges unless that ID is already held, as admitting it after the
      signals already admitted does. */
  method AddSignalData(ev: SignalEvent, signal: Signal, ghost held: seq<SignalData>, ghost admitted: seq<SignalData>)
    requires ev.Valid() && signal.Valid()
    requires DataOf(ev.signals) == Admitted(held, admitted)
    modifies ev
    ensures ev.Valid()
    ensures DataOf(ev.signals) == Admitted(held, admitted + [SignalData(signal.signalID, signal.times, signal.charges)])
  {
    AdmittedConcat(held, admitted, [SignalData(signal.signalID, signal.times, signal.charges)]);
    ev.AddSignal(signal);
  }

  /** The window loop: bins from minT - ADCLength/2 up to maxT while some
      integral is not yet positive. */
  method Scan(ev: SignalEvent, thresholds: seq<real>, sampling: real, adcLength: int, minT: int, maxT: int)
    returns (integral: seq<real>, start: int)
    requires ev.Valid()
    ensures (integral, start)
            == EventScan(DataOf(ev.signals), thresholds, sampling, adcLength, minT, maxT)
  {
    integral, start := ScanLoop(ev, thresholds, sampling, adcLength, minT - Half(adcLength), maxT, Zeros(|thresholds|), 0);
  }

  /** The window loop from bin i on, with the integrals and the start bin
      reached so far. */
  method ScanLoop(ev: SignalEvent, thresholds: seq<real>, sampling: real, adcLength: int, i0: int, maxT: int,
                  integral0: seq<real>, start0: int)
    returns (integral: seq<real>, start: int)
    requires ev.Valid() && |integral0| == |thresholds|
    ensures (integral, start)
            == ScanFrom(DataOf(ev.signals), thresholds, sampling, adcLength, i0, maxT, integral0, start0)
  {
    integral, start := integral0, start0;
    var counter := CountAbove(integral);
    var i := i0;
    ghost var ps := DataOf(ev.signals);
    ghost var goal := ScanFrom(ps, thresholds, sampling, adcLength, i, maxT, integral, start);
    while i <= maxT && counter < |thresholds|
      invariant ev.Valid() && DataOf(ev.signals) == ps
      invariant |integral| == |thresholds| && counter == CountPositive(integral)
      invariant ScanFrom(ps, thresholds, sampling, adcLength, i, maxT, integral, start) == goal
      decreases maxT - i
    {
      integral, start, counter := ScanBin(ev, ps, goal, thresholds, sampling, adcLength, i, maxT, integral, start);
      i := i + 1;
    }
    ScanDone(ps, thresholds, sampling, adcLength, i, maxT, integral, start);
  }

  /** One bin of the window loop: the half-window energy, then the
      thresholds it fires. */
  method ScanBin(ev: SignalEvent, ghost ps: seq<SignalData>, ghost goal: (seq<real>, int), thresholds: seq<real>, sampling: real, adcLength: int,
                 i: int, maxT: int, integral: seq<real>, start: int)
    returns (fired: seq<real>, started: int, counter: nat)
    requires ev.Valid() && ps == DataOf(ev.signals)
    requires |integral| == |thresholds| && i <= maxT && CountPositive(integral) < |thresholds|
    requires ScanFrom(ps, thresholds, sampling, adcLength, i, maxT, integral, start) == goal
    ensures |fired| == |thresholds| && counter == CountPositive(fired)
    ensures ScanFrom(ps, thresholds, sampling, adcLength, i + 1, maxT, fired, started) == goal
  {
    var en := ev.GetIntegralWithTime(TimeOf(i, sampling), TimeOf(i + Half(adcLength), sampling));
    ghost var full := EventIntegral(ev.signals, TimeOf(i, sampling), TimeOf(i + adcLength, sampling));
    PointsIntegralIs(ev.signals, TimeOf(i, sampling), TimeOf(i + Half(adcLength), sampling));
    PointsIntegralIs(ev.signals, TimeOf(i, sampling), TimeOf(i + adcLength, sampling));
    ScanStep(ps, thresholds, sampling, adcLength, i, maxT, integral, start, en, full);
    fired, started := FireThresholds(ev, integral, thresholds, en, i, start, sampling, adcLength);
    counter := CountAbove(fired);
  }

  /** The loop over thresholds within one bin. */
  method FireThresholds(ev: SignalEvent, integral: seq<real>, thresholds: seq<real>, en: real, i: int, start: int,
                        sampling: real, adcLength: int)
    returns (fired: seq<real>, started: int)
    requires ev.Valid() && |integral| == |thresholds|
    ensures fired == Fired(integral, thresholds, en,
                           EventIntegral(ev.signals, TimeOf(i, sampling), TimeOf(i + adcLength, sampling)))
    ensures started == Started(integral, thresholds, en, i, start)
  {
    ghost var full := EventIntegral(ev.signals, TimeOf(i, sampling), TimeOf(i + adcLength, sampling));
    fired, started := integral, start;
    for n := 0 to |integral|
      invariant |fired| == |integral|
      invariant forall k :: 0 <= k < n ==> fired[k] == Fired(integral, thresholds, en, full)[k]
      invariant forall k :: n <= k < |integral| ==> fired[k] == integral[k]
      invariant started == if n > 0 then Started(integral, thresholds, en, i, start) else start
    {
      if fired[n] == 0.0 && en > thresholds[n] {
        if n == 0 {
          started := i;
        }
        var whole := ev.GetIntegralWithTime(TimeOf(i, sampling), TimeOf(i + adcLength, sampling));
        fired := fired[n := whole];
      }
    }
  }

  /** The counter loop: how many integrals are positive. */
  method CountAbove(integral: seq<real>) returns (counter: nat)
    ensures counter == CountPositive(integral)
  {
    counter := 0;
    for n := 0 to |integral|
      invariant counter == CountPositive(integral[..n])
    {
      assert integral[..n + 1][..n] == integral[..n];
      if integral[n] > 0.0 {
        counter := counter + 1;
      }
    }
    assert integral[..|integral|] == integral;
  }
}
