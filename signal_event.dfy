/** TRestDetectorSignalEvent: a vector of signals, each held by value, so no
    two entries are the same object. */
module SignalEvents {
  import opened SeqUtil
  import opened Signals

  /** The sentinels of Initialize, GetMinTime and GetMaxTime. */
  const Big: real := 10000000000.0

  /** The signal IDs in vector order. */
  function IdsOf(ss: seq<Signal>): (r: seq<int>)
    reads ss
    ensures |r| == |ss| && forall i :: 0 <= i < |ss| ==> r[i] == ss[i].signalID
  {
    if ss == [] then [] else IdsOf(ss[..|ss| - 1]) + [ss[|ss| - 1].signalID]
  }

  /** No signal ID occurs twice. */
  predicate UniqueIds(ids: seq<int>) {
    forall i, j :: 0 <= i < j < |ids| ==> ids[i] != ids[j]
  }

  lemma IdsOfAppend(ss: seq<Signal>, s: Signal)
    ensures IdsOf(ss + [s]) == IdsOf(ss) + [s.signalID]
  {
    assert (ss + [s])[..|ss|] == ss;
  }

  /** A new ID keeps the IDs unique. */
  lemma UniqueAppend(ids: seq<int>, x: int)
    requires x !in ids
    ensures UniqueIds(ids) ==> UniqueIds(ids + [x])
  {
  }

  /** A signal as a value: its ID and its points. */
  datatype SignalData = SignalData(id: int, times: seq<real>, charges: seq<real>)

  /** The event's signals as values, in vector order. */
  function DataOf(ss: seq<Signal>): (r: seq<SignalData>)
    reads ss
    ensures |r| == |ss|
  {
    if ss == [] then []
    else
      var last := ss[|ss| - 1];
      DataOf(ss[..|ss| - 1]) + [SignalData(last.signalID, last.times, last.charges)]
  }

  lemma DataOfAppend(ss: seq<Signal>, s: Signal)
    ensures DataOf(ss + [s]) == DataOf(ss) + [SignalData(s.signalID, s.times, s.charges)]
  {
    assert (ss + [s])[..|ss|] == ss;
  }

  /** Entry i of the value snapshot is signal i's ID and points. */
  lemma {:induction false} DataOfAt(ss: seq<Signal>, i: nat)
    requires i < |ss|
    ensures DataOf(ss)[i] == SignalData(ss[i].signalID, ss[i].times, ss[i].charges)
  {
    if i < |ss| - 1 {
      DataOfAt(ss[..|ss| - 1], i);
    }
  }

  /** The IDs of signals given as values, in order. */
  function DataIds(ds: seq<SignalData>): (r: seq<int>)
    ensures |r| == |ds| && forall i :: 0 <= i < |ds| ==> r[i] == ds[i].id
  {
    if ds == [] then [] else DataIds(ds[..|ds| - 1]) + [ds[|ds| - 1].id]
  }

  /** The IDs of the value snapshot are the event's IDs. */
  lemma DataIdsAppend(ds: seq<SignalData>, d: SignalData)
    ensures DataIds(ds + [d]) == DataIds(ds) + [d.id]
  {
    assert (ds + [d])[..|ds|] == ds;
  }

  lemma {:induction false} DataIdsOf(ss: seq<Signal>)
    ensures DataIds(DataOf(ss)) == IdsOf(ss)
  {
    if ss != [] {
      var init := ss[..|ss| - 1];
      DataIdsOf(init);
      assert DataOf(ss)[..|ss| - 1] == DataOf(init);
      assert IdsOf(ss)[..|ss| - 1] == IdsOf(init);
    }
  }

  /** AddSignal over values: each incoming signal in turn is appended after
      the signals held unless a signal with its ID is already there. */
  function Admitted(held: seq<SignalData>, incoming: seq<SignalData>): seq<SignalData>
  {
    if incoming == [] then held
    else
      var n := |incoming| - 1;
      var prev := Admitted(held, incoming[..n]);
      if incoming[n].id in DataIds(prev) then prev else prev + [incoming[n]]
  }

  /** Admitting one signal: appended exactly when its ID is not held. */
  lemma AdmittedOne(held: seq<SignalData>, d: SignalData)
    ensures Admitted(held, [d]) == if d.id in DataIds(held) then held else held + [d]
  {
    assert [d][..0] == [];
  }

  /** Admitting a then b is admitting a + b. */
  lemma {:induction false} AdmittedConcat(held: seq<SignalData>, a: seq<SignalData>, b: seq<SignalData>)
    ensures Admitted(held, a + b) == Admitted(Admitted(held, a), b)
  {
    if b == [] {
      assert a + b == a;
    } else {
      var n := |b| - 1;
      AdmittedConcat(held, a, b[..n]);
      assert (a + b)[..|a + b| - 1] == a + b[..n];
    }
  }

  /** The signals held stay first, unchanged. */
  lemma {:induction false} AdmittedKeepsHeld(held: seq<SignalData>, incoming: seq<SignalData>)
    ensures held <= Admitted(held, incoming)
  {
    if incoming != [] {
      AdmittedKeepsHeld(held, incoming[..|incoming| - 1]);
    }
  }

  /** Every incoming ID is present afterwards. */
  lemma {:induction false} AdmittedHoldsIds(held: seq<SignalData>, incoming: seq<SignalData>)
    ensures forall k :: 0 <= k < |incoming| ==> incoming[k].id in DataIds(Admitted(held, incoming))
    ensures forall id :: id in DataIds(held) ==> id in DataIds(Admitted(held, incoming))
  {
    if incoming != [] {
      var n := |incoming| - 1;
      var prev := Admitted(held, incoming[..n]);
      AdmittedHoldsIds(held, incoming[..n]);
      if incoming[n].id !in DataIds(prev) {
        assert DataIds(prev + [incoming[n]]) == DataIds(prev) + [incoming[n].id] by {
          assert (prev + [incoming[n]])[..|prev|] == prev;
        }
      }
      forall k | 0 <= k < |incoming|
        ensures incoming[k].id in DataIds(Admitted(held, incoming))
      {
        if k < n {
          assert incoming[k] == incoming[..n][k];
        }
      }
    }
  }

  /** Each signal after the held ones is one of the incoming signals. */
  lemma {:induction false} AdmittedFromIncoming(held: seq<SignalData>, incoming: seq<SignalData>)
    ensures forall j :: |held| <= j < |Admitted(held, incoming)| ==> Admitted(held, incoming)[j] in incoming
  {
    if incoming != [] {
      var n := |incoming| - 1;
      AdmittedFromIncoming(held, incoming[..n]);
      AdmittedKeepsHeld(held, incoming[..n]);
      var prev := Admitted(held, incoming[..n]);
      forall j | |held| <= j < |prev|
        ensures prev[j] in incoming
      {
        assert prev[j] in incoming[..n];
      }
    }
  }

  /** Unique IDs stay unique. */
  lemma {:induction false} AdmittedUnique(held: seq<SignalData>, incoming: seq<SignalData>)
    requires UniqueIds(DataIds(held))
    ensures UniqueIds(DataIds(Admitted(held, incoming)))
  {
    if incoming != [] {
      var n := |incoming| - 1;
      var prev := Admitted(held, incoming[..n]);
      AdmittedUnique(held, incoming[..n]);
      if incoming[n].id !in DataIds(prev) {
        assert DataIds(prev + [incoming[n]]) == DataIds(prev) + [incoming[n].id] by {
          assert (prev + [incoming[n]])[..|prev|] == prev;
        }
        UniqueAppend(DataIds(prev), incoming[n].id);
      }
    }
  }

  /** When no ID occurs twice among the held and the incoming signals, every
      incoming signal is appended, in order. */
  lemma {:induction false} AdmittedAll(held: seq<SignalData>, incoming: seq<SignalData>)
    requires UniqueIds(DataIds(held + incoming))
    ensures Admitted(held, incoming) == held + incoming
  {
    if incoming == [] {
      assert held + incoming == held;
    } else {
      var n := |incoming| - 1;
      var init := held + incoming[..n];
      assert (held + incoming)[..|held + incoming| - 1] == init;
      assert DataIds(held + incoming) == DataIds(init) + [incoming[n].id];
      assert UniqueIds(DataIds(init)) by {
        forall i, j | 0 <= i < j < |DataIds(init)|
          ensures DataIds(init)[i] != DataIds(init)[j]
        {
          assert DataIds(init)[i] == DataIds(held + incoming)[i];
          assert DataIds(init)[j] == DataIds(held + incoming)[j];
        }
      }
      AdmittedAll(held, incoming[..n]);
      assert incoming[n].id !in DataIds(init) by {
        forall i | 0 <= i < |DataIds(init)|
          ensures DataIds(init)[i] != incoming[n].id
        {
          assert DataIds(init)[i] == DataIds(held + incoming)[i];
          assert DataIds(held + incoming)[|init|] == incoming[n].id;
        }
      }
      assert init + [incoming[n]] == held + incoming;
    }
  }

  /** Every signal holds at least one point. */
  ghost predicate HavePoints(ss: seq<Signal>)
    reads ss
  {
    forall s :: 0 <= s < |ss| ==> ss[s].times != []
  }

  /** Every signal given as a value holds at least one point. */
  predicate DataHavePoints(ds: seq<SignalData>) {
    forall i :: 0 <= i < |ds| ==> ds[i].times != []
  }

  /** The signals hold points exactly when their values do. */
  lemma HavePointsOfData(ss: seq<Signal>)
    ensures HavePoints(ss) <==> DataHavePoints(DataOf(ss))
  {
    forall i | 0 <= i < |ss|
      ensures DataOf(ss)[i] == SignalData(ss[i].signalID, ss[i].times, ss[i].charges)
    {
      DataOfAt(ss, i);
    }
  }

  /** Admitting signals that hold points after ones that do keeps it so. */
  lemma {:induction false} AdmittedHavePoints(held: seq<SignalData>, incoming: seq<SignalData>)
    requires DataHavePoints(held) && DataHavePoints(incoming)
    ensures DataHavePoints(Admitted(held, incoming))
  {
    if incoming != [] {
      var n := |incoming| - 1;
      forall i | 0 <= i < n
        ensures incoming[..n][i].times != []
      {
        assert incoming[..n][i] == incoming[i];
      }
      AdmittedHavePoints(held, incoming[..n]);
    }
  }

  /** GetMinTime: the smallest first-to-last point time over the signals,
      or the 1e10 sentinel when it is smaller. */
  function EarliestTime(ss: seq<Signal>): real
    reads ss
    requires HavePoints(ss)
  {
    if ss == [] then Big
    else
      var r := EarliestTime(ss[..|ss| - 1]);
      var m := Minimum(ss[|ss| - 1].times);
      if r > m then m else r
  }

  /** GetMaxTime: the largest point time over the signals, or the -1e10
      sentinel when it is larger. */
  function LatestTime(ss: seq<Signal>): real
    reads ss
    requires HavePoints(ss)
  {
    if ss == [] then -Big
    else
      var r := LatestTime(ss[..|ss| - 1]);
      var m := Maximum(ss[|ss| - 1].times);
      if r < m then m else r
  }

  /** EarliestTime is a lower bound of the sentinel and of every signal's
      times, and is the sentinel or attained by one of the signals. */
  lemma {:induction false} EarliestTimeBounds(ss: seq<Signal>)
    requires HavePoints(ss)
    ensures EarliestTime(ss) <= Big
    ensures forall s :: 0 <= s < |ss| ==> EarliestTime(ss) <= Minimum(ss[s].times)
    ensures EarliestTime(ss) == Big || exists s :: 0 <= s < |ss| && EarliestTime(ss) == Minimum(ss[s].times)
  {
    if ss != [] {
      var n := |ss| - 1;
      var init := ss[..n];
      assert forall s :: 0 <= s < |init| ==> init[s] == ss[s];
      EarliestTimeBounds(init);
      var r := EarliestTime(init);
      if r <= Minimum(ss[n].times) && r != Big {
        var s :| 0 <= s < |init| && r == Minimum(init[s].times);
        assert EarliestTime(ss) == Minimum(ss[s].times);
      }
      forall s | 0 <= s < |ss|
        ensures EarliestTime(ss) <= Minimum(ss[s].times)
      {
        if s < n {
          assert ss[s] == init[s];
        }
      }
    }
  }

  /** LatestTime is an upper bound of the sentinel and of every signal's
      times, and is the sentinel or attained by one of the signals. */
  lemma {:induction false} LatestTimeBounds(ss: seq<Signal>)
    requires HavePoints(ss)
    ensures LatestTime(ss) >= -Big
    ensures forall s :: 0 <= s < |ss| ==> Maximum(ss[s].times) <= LatestTime(ss)
    ensures LatestTime(ss) == -Big || exists s :: 0 <= s < |ss| && LatestTime(ss) == Maximum(ss[s].times)
  {
    if ss != [] {
      var n := |ss| - 1;
      var init := ss[..n];
      assert forall s :: 0 <= s < |init| ==> init[s] == ss[s];
      LatestTimeBounds(init);
      var r := LatestTime(init);
      if r >= Maximum(ss[n].times) && r != -Big {
        var s :| 0 <= s < |init| && r == Maximum(init[s].times);
        assert LatestTime(ss) == Maximum(ss[s].times);
      }
      forall s | 0 <= s < |ss|
        ensures Maximum(ss[s].times) <= LatestTime(ss)
      {
        if s < n {
          assert ss[s] == init[s];
        }
      }
    }
  }

  /** Reference definition of the event's GetIntegralWithTime. */
  function EventIntegral(ss: seq<Signal>, start: real, end: real): real
    reads ss
    requires forall i :: 0 <= i < |ss| ==> ss[i].Valid()
  {
    if ss == [] then 0.0
    else
      var last := ss[|ss| - 1];
      assert last.Valid();
      EventIntegral(ss[..|ss| - 1], start, end) + IntegralWithTime(last.times, last.charges, start, end)
  }

  /** The event integral is additive over adjacent windows, as each signal's is. */
  lemma {:induction false} EventIntegralSplit(ss: seq<Signal>, a: real, b: real, e: real)
    requires forall i :: 0 <= i < |ss| ==> ss[i].Valid()
    requires a <= b <= e
    ensures EventIntegral(ss, a, e) == EventIntegral(ss, a, b) + EventIntegral(ss, b, e)
  {
    if ss != [] {
      var last := ss[|ss| - 1];
      EventIntegralSplit(ss[..|ss| - 1], a, b, e);
      IntegralSplit(last.times, last.charges, a, b, e);
    }
  }

  /** Erasing one entry keeps the other signals, distinct, in order. */
  lemma RemoveAtKeepsSignals(ss: seq<Signal>, n: nat)
    requires n < |ss|
    requires forall i, j :: 0 <= i < j < |ss| ==> ss[i] != ss[j]
    ensures forall i :: 0 <= i < |ss| - 1 ==> RemoveAt(ss, n)[i] == ss[if i < n then i else i + 1]
    ensures forall i, j :: 0 <= i < j < |ss| - 1 ==> RemoveAt(ss, n)[i] != RemoveAt(ss, n)[j]
    ensures IdsOf(RemoveAt(ss, n)) == RemoveAt(IdsOf(ss), n)
  {
    var r := RemoveAt(ss, n);
    RemoveAtIndex(ss, n);
    forall i, j | 0 <= i < j < |r|
      ensures r[i] != r[j]
    {
      var i', j' := if i < n then i else i + 1, if j < n then j else j + 1;
      assert r[i] == ss[i'] && r[j] == ss[j'] && i' < j';
    }
    IdsOfRemoveAt(ss, n);
  }

  lemma IdsOfRemoveAt(ss: seq<Signal>, n: nat)
    requires n < |ss|
    ensures IdsOf(RemoveAt(ss, n)) == RemoveAt(IdsOf(ss), n)
  {
    var rs, ids := RemoveAt(ss, n), IdsOf(ss);
    var a, b := IdsOf(rs), RemoveAt(ids, n);
    RemoveAtIndex(ss, n);
    RemoveAtIndex(ids, n);
    forall i | 0 <= i < |a|
      ensures a[i] == b[i]
    {
      var i' := if i < n then i else i + 1;
      assert a[i] == rs[i].signalID && rs[i] == ss[i'] && b[i] == ids[i'];
    }
  }

  /** An event none of whose objects changed between two states keeps its
      validity and its signal IDs. */
  twostate lemma EventKept(e: SignalEvent)
    requires unchanged(e) && forall i :: 0 <= i < |e.signals| ==> unchanged(e.signals[i])
    ensures e.Valid() == old(e.Valid()) && IdsOf(e.signals) == old(IdsOf(e.signals))
  {
  }

  class SignalEvent {
    var signals: seq<Signal>
    var minValue: real
    var maxValue: real
    var minTime: real
    var maxTime: real

    ghost predicate Valid()
      reads this, signals
    {
      (forall i :: 0 <= i < |signals| ==> signals[i].Valid())
      && (forall i, j :: 0 <= i < j < |signals| ==> signals[i] != signals[j])
    }

    constructor ()
      ensures Valid() && signals == []
      ensures minValue == Big && maxValue == -Big && minTime == Big && maxTime == -Big
    {
      signals := [];
      minValue, maxValue := Big, -Big;
      minTime, maxTime := Big, -Big;
    }

    method Initialize()
      modifies this
      ensures Valid() && signals == []
      ensures minValue == Big && maxValue == -Big && minTime == Big && maxTime == -Big
    {
      signals := [];
      minValue, maxValue := Big, -Big;
      minTime, maxTime := Big, -Big;
    }

    function GetNumberOfSignals(): nat
      reads this
    {
      |signals|
    }

    /** The first index holding a signal with the ID, or -1. */
    method GetSignalIndex(signalID: int) returns (index: int)
      requires Valid()
      ensures index == IndexOf(IdsOf(signals), signalID)
    {
      ghost var ids := IdsOf(signals);
      var i := 0;
      while i < |signals|
        invariant 0 <= i <= |signals|
        invariant forall k :: 0 <= k < i ==> ids[k] != signalID
      {
        if signals[i].signalID == signalID {
          return i;
        }
        i := i + 1;
      }
      return -1;
    }

    method SignalIdExists(signalID: int) returns (b: bool)
      requires Valid()
      ensures b <==> signalID in IdsOf(signals)
    {
      var index := GetSignalIndex(signalID);
      b := index != -1;
    }

    /** The signal at the first index with the ID, or null. */
    method GetSignalById(signalID: int) returns (s: Signal?)
      requires Valid()
      ensures s == null <==> signalID !in IdsOf(signals)
      ensures s != null ==> s == signals[IndexOf(IdsOf(signals), signalID)] && s.signalID == signalID
    {
      var index := GetSignalIndex(signalID);
      if index < 0 {
        return null;
      }
      return signals[index];
    }

    /** Appends a copy of the signal unless its ID is already present. */
    method AddSignal(signal: Signal)
      requires Valid() && signal.Valid()
      modifies this
      ensures Valid()
      ensures signal.signalID in old(IdsOf(signals)) ==> signals == old(signals)
      ensures signal.signalID !in old(IdsOf(signals)) ==>
                |signals| == |old(signals)| + 1 && signals[..|old(signals)|] == old(signals)
                && fresh(signals[|old(signals)|])
                && signals[|old(signals)|].signalID == signal.signalID
                && signals[|old(signals)|].times == signal.times
                && signals[|old(signals)|].charges == signal.charges
      ensures IdsOf(signals) == old(IdsOf(signals)) || IdsOf(signals) == old(IdsOf(signals)) + [signal.signalID]
      ensures UniqueIds(old(IdsOf(signals))) ==> UniqueIds(IdsOf(signals))
      ensures signal.signalID in IdsOf(signals)
      ensures DataOf(signals) == Admitted(old(DataOf(signals)), [SignalData(signal.signalID, signal.times, signal.charges)])
      ensures minValue == old(minValue) && maxValue == old(maxValue)
      ensures minTime == old(minTime) && maxTime == old(maxTime)
    {
      var found := SignalIdExists(signal.signalID);
      if found {
        DataIdsOf(signals);
        AdmittedOne(DataOf(signals), SignalData(signal.signalID, signal.times, signal.charges));
        return;
      }
      AppendNew(signal);
    }

    /** AddSignal for an ID not yet held: the copy's ID joins the held IDs. */
    method AppendNew(signal: Signal)
      requires Valid() && signal.Valid() && signal.signalID !in IdsOf(signals)
      modifies this
      ensures Valid()
      ensures |signals| == |old(signals)| + 1 && signals[..|old(signals)|] == old(signals)
      ensures fresh(signals[|old(signals)|])
      ensures signals[|old(signals)|].signalID == signal.signalID
      ensures signals[|old(signals)|].times == signal.times
      ensures signals[|old(signals)|].charges == signal.charges
      ensures IdsOf(signals) == old(IdsOf(signals)) + [signal.signalID]
      ensures UniqueIds(old(IdsOf(signals))) ==> UniqueIds(IdsOf(signals))
      ensures DataOf(signals) == Admitted(old(DataOf(signals)), [SignalData(signal.signalID, signal.times, signal.charges)])
      ensures minValue == old(minValue) && maxValue == old(maxValue)
      ensures minTime == old(minTime) && maxTime == old(maxTime)
    {
      ghost var held := DataOf(signals);
      ghost var ids := IdsOf(signals);
      DataIdsOf(signals);
      AdmittedOne(held, SignalData(signal.signalID, signal.times, signal.charges));
      AppendCopy(signal);
      DataIdsOf(signals);
      DataIdsAppend(held, SignalData(signal.signalID, signal.times, signal.charges));
      UniqueAppend(ids, signal.signalID);
    }

    /** AddSignal for an ID not yet held: a copy goes at the end. */
    method AppendCopy(signal: Signal)
      requires Valid() && signal.Valid() && signal.signalID !in IdsOf(signals)
      modifies this
      ensures Valid()
      ensures |signals| == |old(signals)| + 1 && signals[..|old(signals)|] == old(signals)
      ensures fresh(signals[|old(signals)|])
      ensures signals[|old(signals)|].signalID == signal.signalID
      ensures signals[|old(signals)|].times == signal.times
      ensures signals[|old(signals)|].charges == signal.charges
      ensures DataOf(signals) == old(DataOf(signals)) + [SignalData(signal.signalID, signal.times, signal.charges)]
      ensures minValue == old(minValue) && maxValue == old(maxValue)
      ensures minTime == old(minTime) && maxTime == old(maxTime)
    {
      ghost var held := DataOf(signals);
      var copy := new Signal.Copy(signal);
      assert DataOf(signals) == held;
      DataOfAppend(signals, copy);
      signals := signals + [copy];
    }

    /** Creates the signal when the ID is new; the charge deposit that follows
        (TRestDetectorSignal::AddDeposit) is not part of this model. */
    method AddChargeToSignal(signalID: int, time: real, charge: real)
      requires Valid()
      modifies this
      ensures Valid() && signalID in IdsOf(signals)
      ensures signalID in old(IdsOf(signals)) ==> signals == old(signals)
      ensures signalID !in old(IdsOf(signals)) ==>
                IdsOf(signals) == old(IdsOf(signals)) + [signalID]
                && signals[..|old(signals)|] == old(signals)
                && fresh(signals[|old(signals)|])
                && signals[|old(signals)|].times == [] && signals[|old(signals)|].charges == []
      ensures UniqueIds(old(IdsOf(signals))) ==> UniqueIds(IdsOf(signals))
    {
      var signalIndex := GetSignalIndex(signalID);
      if signalIndex == -1 {
        ghost var ids := IdsOf(signals);
        var signal := new Signal();
        signal.SetSignalID(signalID);
        assert IdsOf(signals) == ids && Valid();
        AddSignal(signal);
      }
    }

    /** Erases the first signal with the ID, when there is one. */
    method RemoveSignalWithId(signalID: int)
      requires Valid()
      modifies this
      ensures Valid()
      ensures var k := IndexOf(old(IdsOf(signals)), signalID);
        k >= 0 ==> signals == RemoveAt(old(signals), k) && IdsOf(signals) == RemoveAt(old(IdsOf(signals)), k)
      ensures signalID !in old(IdsOf(signals)) ==> signals == old(signals)
      ensures minValue == old(minValue) && maxValue == old(maxValue)
      ensures minTime == old(minTime) && maxTime == old(maxTime)
    {
      var index := GetSignalIndex(signalID);
      if index >= 0 {
        EraseAt(index);
      }
    }

    /** The vector's erase at one index. */
    method EraseAt(index: nat)
      requires Valid() && index < |signals|
      modifies this
      ensures Valid()
      ensures signals == RemoveAt(old(signals), index) && IdsOf(signals) == RemoveAt(old(IdsOf(signals)), index)
      ensures minValue == old(minValue) && maxValue == old(maxValue)
      ensures minTime == old(minTime) && maxTime == old(maxTime)
    {
      RemoveAtKeepsSignals(signals, index);
      signals := RemoveAt(signals, index);
    }

    method GetIntegralWithTime(startTime: real, endTime: real) returns (sum: real)
      requires Valid()
      ensures sum == EventIntegral(signals, startTime, endTime)
    {
      sum := 0.0;
      var n := 0;
      while n < |signals|
        invariant 0 <= n <= |signals|
        invariant sum == EventIntegral(signals[..n], startTime, endTime)
      {
        assert signals[..n + 1][..n] == signals[..n];
        var integral := signals[n].GetIntegralWithTime(startTime, endTime);
        sum := sum + integral;
        n := n + 1;
      }
      assert signals[..n] == signals;
    }

    /** The smallest signal start time, starting from the 1e10 sentinel.
        Every signal must hold a point: the time at GetMinBin of an empty
        vector is undefined. */
    method GetMinTime() returns (r: real)
      requires Valid() && HavePoints(signals)
      ensures r == EarliestTime(signals)
    {
      r := Big;
      var s := 0;
      while s < |signals|
        invariant 0 <= s <= |signals|
        invariant r == EarliestTime(signals[..s])
      {
        assert signals[..s + 1][..s] == signals[..s];
        var m := Minimum(signals[s].times);
        if r > m {
          r := m;
        }
        s := s + 1;
      }
      assert signals[..s] == signals;
    }

    /** The largest signal end time, starting from the -1e10 sentinel. */
    method GetMaxTime() returns (r: real)
      requires Valid() && HavePoints(signals)
      ensures r == LatestTime(signals)
    {
      r := -Big;
      var s := 0;
      while s < |signals|
        invariant 0 <= s <= |signals|
        invariant r == LatestTime(signals[..s])
      {
        assert signals[..s + 1][..s] == signals[..s];
        var m := Maximum(signals[s].times);
        if r < m {
          r := m;
        }
        s := s + 1;
      }
      assert signals[..s] == signals;
    }

    /** Sorts every signal in place; the vector and the IDs stay as they are. */
    method SortSignals()
      requires Valid()
      modifies signals
      ensures Valid() && signals == old(signals)
      ensures forall k :: 0 <= k < |signals| ==>
                NonDecreasing(signals[k].times) && signals[k].signalID == old(signals[k].signalID)
                && multiset(Points(signals[k].times, signals[k].charges))
                   == multiset(Points(old(signals[k].times), old(signals[k].charges)))
    {
      var n := 0;
      while n < |signals|
        invariant 0 <= n <= |signals| && Valid()
        invariant forall k :: 0 <= k < n ==>
                    NonDecreasing(signals[k].times) && signals[k].signalID == old(signals[k].signalID)
                    && multiset(Points(signals[k].times, signals[k].charges))
                       == multiset(Points(old(signals[k].times), old(signals[k].charges)))
        invariant forall k :: n <= k < |signals| ==>
                    signals[k].times == old(signals[k].times) && signals[k].charges == old(signals[k].charges)
                    && signals[k].signalID == old(signals[k].signalID)
      {
        signals[n].Sort();
        n := n + 1;
      }
    }
  }
}
