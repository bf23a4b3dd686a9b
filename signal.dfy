/** TRestDetectorSignal: a signal ID and two parallel vectors, the times and
    the charges of the signal points, updated in place. Float_t and Double_t
    values are exact reals here. */
module Signals {
  import opened SeqUtil

  /** std::is_sorted on the times. */
  predicate NonDecreasing(s: seq<real>) {
    forall i, j :: 0 <= i < j < |s| ==> s[i] <= s[j]
  }

  /** The (time, charge) points of a signal. */
  function Points(t: seq<real>, c: seq<real>): (r: seq<(real, real)>)
    requires |t| == |c|
    ensures |r| == |t| && forall i :: 0 <= i < |t| ==> r[i] == (t[i], c[i])
  {
    seq(|t|, i requires 0 <= i < |t| => (t[i], c[i]))
  }

  /** Reference definition of GetIntegralWithTime: the charges of the points
      whose time lies in [start, end). */
  function IntegralWithTime(t: seq<real>, c: seq<real>, start: real, end: real): real
    requires |t| == |c|
  {
    if t == [] then 0.0
    else
      IntegralWithTime(t[..|t| - 1], c[..|t| - 1], start, end)
      + (if start <= t[|t| - 1] < end then c[|t| - 1] else 0.0)
  }

  /** Windows that share a boundary add up. */
  lemma {:induction false} IntegralSplit(t: seq<real>, c: seq<real>, a: real, b: real, e: real)
    requires |t| == |c| && a <= b <= e
    ensures IntegralWithTime(t, c, a, e) == IntegralWithTime(t, c, a, b) + IntegralWithTime(t, c, b, e)
  {
    if t != [] {
      IntegralSplit(t[..|t| - 1], c[..|t| - 1], a, b, e);
    }
  }

  /** A window holding every time integrates the whole signal. */
  lemma {:induction false} IntegralOfAll(t: seq<real>, c: seq<real>, start: real, end: real)
    requires |t| == |c|
    requires forall i :: 0 <= i < |t| ==> start <= t[i] < end
    ensures IntegralWithTime(t, c, start, end) == Sum(c)
  {
    if t != [] {
      IntegralOfAll(t[..|t| - 1], c[..|t| - 1], start, end);
    }
  }

  /** Scaling every charge scales every integral. */
  lemma {:induction false} IntegralOfScaled(t: seq<real>, c: seq<real>, d: seq<real>, f: real, start: real, end: real)
    requires |t| == |c| == |d|
    requires forall i :: 0 <= i < |c| ==> d[i] == f * c[i]
    ensures IntegralWithTime(t, d, start, end) == f * IntegralWithTime(t, c, start, end)
  {
    if t != [] {
      var n := |t| - 1;
      IntegralOfScaled(t[..n], c[..n], d[..n], f, start, end);
      var rest := IntegralWithTime(t[..n], c[..n], start, end);
      if start <= t[n] < end {
        assert f * (rest + c[n]) == f * rest + f * c[n];
      }
    }
  }

  /** Adding two signals point by point adds their integrals. */
  lemma {:induction false} IntegralOfAddition(t: seq<real>, a: seq<real>, b: seq<real>, d: seq<real>, start: real, end: real)
    requires |t| == |a| == |b| == |d|
    requires forall i :: 0 <= i < |d| ==> d[i] == a[i] + b[i]
    ensures IntegralWithTime(t, d, start, end) == IntegralWithTime(t, a, start, end) + IntegralWithTime(t, b, start, end)
  {
    if t != [] {
      var n := |t| - 1;
      IntegralOfAddition(t[..n], a[..n], b[..n], d[..n], start, end);
    }
  }

  /** Adding an offset to every charge raises the total charge by the offset
      once per point. */
  lemma {:induction false} SumOfOffset(c: seq<real>, d: seq<real>, offset: real)
    requires |c| == |d|
    requires forall i :: 0 <= i < |c| ==> d[i] == c[i] + offset
    ensures Sum(d) == Sum(c) + |c| as real * offset
  {
    if c != [] {
      var n := |c| - 1;
      SumOfOffset(c[..n], d[..n], offset);
      assert (n + 1) as real * offset == n as real * offset + offset;
    }
  }

  /** The smallest value: the value at TRestPulseShapeAnalysis::GetMinBin. */
  function Minimum(s: seq<real>): (r: real)
    requires s != []
    ensures r in s && forall i :: 0 <= i < |s| ==> r <= s[i]
  {
    if |s| == 1 then s[0]
    else
      var m := Minimum(s[1..]);
      assert forall i :: 1 <= i < |s| ==> s[i] == s[1..][i - 1];
      if s[0] <= m then s[0] else m
  }

  /** The largest value: the value at TRestPulseShapeAnalysis::GetMaxBin. */
  function Maximum(s: seq<real>): (r: real)
    requires s != []
    ensures r in s && forall i :: 0 <= i < |s| ==> s[i] <= r
  {
    if |s| == 1 then s[0]
    else
      var m := Maximum(s[1..]);
      assert forall i :: 1 <= i < |s| ==> s[i] == s[1..][i - 1];
      if s[0] >= m then s[0] else m
  }

  class Signal {
    var signalID: int
    var times: seq<real>
    var charges: seq<real>

    /** fSignalTime and fSignalCharge have the same length. */
    ghost predicate Valid()
      reads this
    {
      |times| == |charges|
    }

    constructor ()
      ensures Valid() && signalID == -1 && times == [] && charges == []
    {
      signalID := -1;
      times := [];
      charges := [];
    }

    /** The copy made by the vector's emplace_back. */
    constructor Copy(other: Signal)
      requires other.Valid()
      ensures Valid() && signalID == other.signalID && times == other.times && charges == other.charges
    {
      signalID := other.signalID;
      times := other.times;
      charges := other.charges;
    }

    method SetSignalID(id: int)
      modifies this
      ensures signalID == id && times == old(times) && charges == old(charges)
    {
      signalID := id;
    }

    method NewPoint(t: real, d: real)
      requires Valid()
      modifies this
      ensures Valid() && signalID == old(signalID)
      ensures times == old(times) + [t] && charges == old(charges) + [d]
    {
      times := times + [t];
      charges := charges + [d];
    }

    /** The first point whose time equals t, or -1. */
    method GetTimeIndex(t: real) returns (index: int)
      requires Valid()
      ensures index == IndexOf(times, t)
    {
      var n := 0;
      while n < |times|
        invariant 0 <= n <= |times|
        invariant t !in times[..n]
      {
        if t == times[n] {
          assert forall k :: 0 <= k < n ==> times[k] != t by {
            assert forall k :: 0 <= k < n ==> times[k] == times[..n][k];
          }
          return n;
        }
        assert times[..n + 1] == times[..n] + [times[n]];
        n := n + 1;
      }
      assert times[..n] == times;
      return -1;
    }

    /** Adds d to the charge at time t, or appends the point (t, d). */
    method IncreaseAmplitude(t: real, d: real)
      requires Valid()
      modifies this
      ensures Valid() && signalID == old(signalID)
      ensures var k := IndexOf(old(times), t);
        if k >= 0 then times == old(times) && charges == old(charges)[k := old(charges)[k] + d]
        else times == old(times) + [t] && charges == old(charges) + [d]
      ensures t in times
      ensures Sum(charges) == Sum(old(charges)) + d
    {
      var index := GetTimeIndex(t);
      if index >= 0 {
        SumUpdate(charges, index, charges[index] + d);
        times := times[index := t];
        charges := charges[index := charges[index] + d];
      } else {
        SumConcat(charges, [d]);
        assert Sum([d]) == d by {
          assert [d][..0] == [];
        }
        times := times + [t];
        charges := charges + [d];
      }
    }

    /** Overwrites the charge at time t, or appends the point (t, d). */
    method SetPoint(t: real, d: real)
      requires Valid()
      modifies this
      ensures Valid() && signalID == old(signalID)
      ensures var k := IndexOf(old(times), t);
        if k >= 0 then times == old(times) && charges == old(charges)[k := d]
        else times == old(times) + [t] && charges == old(charges) + [d]
      ensures IndexOf(times, t) >= 0 && charges[IndexOf(times, t)] == d
    {
      var index := GetTimeIndex(t);
      if index >= 0 {
        times := times[index := t];
        charges := charges[index := d];
      } else {
        times := times + [t];
        charges := charges + [d];
        assert IndexOf(times, t) == |times| - 1 by {
          assert t !in old(times);
          assert forall k :: 0 <= k < |times| - 1 ==> times[k] == old(times)[k];
        }
      }
    }

    /** Replaces the point at a given index. */
    method SetPointAt(index: int, t: real, d: real)
      requires Valid() && 0 <= index < |times|
      modifies this
      ensures Valid() && signalID == old(signalID)
      ensures times == old(times)[index := t] && charges == old(charges)[index := d]
    {
      times := times[index := t];
      charges := charges[index := d];
    }

    /** The two iter_swap calls of Sort. */
    method SwapPoints(i: int, j: int)
      requires Valid() && 0 <= i < |times| && 0 <= j < |times|
      modifies this
      ensures Valid() && signalID == old(signalID)
      ensures times == Swapped(old(times), i, j) && charges == Swapped(old(charges), i, j)
      ensures multiset(Points(times, charges)) == multiset(Points(old(times), old(charges)))
    {
      ghost var p := Points(times, charges);
      times := Swapped(times, i, j);
      charges := Swapped(charges, i, j);
      assert Points(times, charges) == Swapped(p, i, j);
      SwappedMultiset(p, i, j);
    }

    /** Exchange sort of the points by time, repeated while the times are not
        sorted; one pass always sorts them, so the outer loop runs at most twice. */
    method Sort()
      requires Valid()
      modifies this
      ensures Valid() && signalID == old(signalID)
      ensures NonDecreasing(times)
      ensures multiset(Points(times, charges)) == multiset(Points(old(times), old(charges)))
    {
      while !NonDecreasing(times)
        invariant Valid() && signalID == old(signalID)
        invariant multiset(Points(times, charges)) == multiset(Points(old(times), old(charges)))
        decreases if NonDecreasing(times) then 0 else 1
      {
        SortPass();
      }
    }

    /** One pass of the two nested for-loops of Sort: after step i, position i
        holds the smallest remaining time. */
    method SortPass()
      requires Valid()
      modifies this
      ensures Valid() && signalID == old(signalID)
      ensures NonDecreasing(times)
      ensures multiset(Points(times, charges)) == multiset(Points(old(times), old(charges)))
    {
      var i := 0;
      while i < |times|
        invariant 0 <= i <= |times| == |old(times)| && Valid() && signalID == old(signalID)
        invariant multiset(Points(times, charges)) == multiset(Points(old(times), old(charges)))
        invariant forall a, b :: 0 <= a < b < i ==> times[a] <= times[b]
        invariant forall a, b :: 0 <= a < i <= b < |times| ==> times[a] <= times[b]
        decreases |times| - i
      {
        var j := i;
        while j < |times|
          invariant i <= j <= |times| == |old(times)| && Valid() && signalID == old(signalID)
          invariant multiset(Points(times, charges)) == multiset(Points(old(times), old(charges)))
          invariant forall a, b :: 0 <= a < b < i ==> times[a] <= times[b]
          invariant forall a, b :: 0 <= a < i <= b < |times| ==> times[a] <= times[b]
          invariant forall b :: i <= b < j ==> times[i] <= times[b]
          decreases |times| - j
        {
          if times[i] > times[j] {
            SwapPoints(i, j);
          }
          j := j + 1;
        }
        i := i + 1;
      }
    }

    method AddOffset(offset: real)
      requires Valid()
      modifies this
      ensures Valid() && signalID == old(signalID) && times == old(times)
      ensures |charges| == |old(charges)|
      ensures forall i :: 0 <= i < |charges| ==> charges[i] == old(charges)[i] + offset
    {
      var i := 0;
      while i < |charges|
        invariant 0 <= i <= |charges| == |old(charges)| && times == old(times) && signalID == old(signalID)
        invariant forall k :: 0 <= k < i ==> charges[k] == old(charges)[k] + offset
        invariant forall k :: i <= k < |charges| ==> charges[k] == old(charges)[k]
      {
        charges := charges[i := charges[i] + offset];
        i := i + 1;
      }
    }

    method MultiplySignalBy(factor: real)
      requires Valid()
      modifies this
      ensures Valid() && signalID == old(signalID) && times == old(times)
      ensures |charges| == |old(charges)|
      ensures forall i :: 0 <= i < |charges| ==> charges[i] == factor * old(charges)[i]
    {
      var i := 0;
      while i < |charges|
        invariant 0 <= i <= |charges| == |old(charges)| && times == old(times) && signalID == old(signalID)
        invariant forall k :: 0 <= k < i ==> charges[k] == factor * old(charges)[k]
        invariant forall k :: i <= k < |charges| ==> charges[k] == old(charges)[k]
      {
        charges := charges[i := factor * charges[i]];
        i := i + 1;
      }
    }

    /** Adds the charges of another signal point by point; nothing changes when
        the point counts differ or some time differs. The other signal's
        vectors are read before the loop: in the self-addition case each
        charge is read before it is overwritten, so the result is the same. */
    method SignalAddition(other: Signal)
      requires Valid() && other.Valid()
      modifies this
      ensures Valid() && signalID == old(signalID) && times == old(times)
      ensures old(times) != old(other.times) ==> charges == old(charges)
      ensures old(times) == old(other.times) ==>
                |charges| == |old(charges)| &&
                forall i :: 0 <= i < |charges| ==> charges[i] == old(charges)[i] + old(other.charges)[i]
    {
      var inTimes, inCharges := other.times, other.charges;
      if |times| != |inTimes| {
        return;
      }
      var badSignalTimes := 0;
      var i := 0;
      while i < |times|
        invariant 0 <= i <= |times|
        invariant badSignalTimes == 0 <==> times[..i] == inTimes[..i]
      {
        assert times[..i + 1] == times[..i] + [times[i]] && inTimes[..i + 1] == inTimes[..i] + [inTimes[i]];
        if times[i] != inTimes[i] {
          badSignalTimes := badSignalTimes + 1;
        }
        i := i + 1;
      }
      assert times[..i] == times && inTimes[..i] == inTimes;
      if badSignalTimes != 0 {
        return;
      }
      i := 0;
      while i < |charges|
        invariant 0 <= i <= |charges| == |old(charges)| && times == old(times) && signalID == old(signalID)
        invariant forall k :: 0 <= k < i ==> charges[k] == old(charges)[k] + inCharges[k]
        invariant forall k :: i <= k < |charges| ==> charges[k] == old(charges)[k]
      {
        charges := charges[i := charges[i] + inCharges[i]];
        i := i + 1;
      }
    }

    method GetIntegralWithTime(startTime: real, endTime: real) returns (sum: real)
      requires Valid()
      ensures sum == IntegralWithTime(times, charges, startTime, endTime)
    {
      sum := 0.0;
      var i := 0;
      while i < |times|
        invariant 0 <= i <= |times|
        invariant sum == IntegralWithTime(times[..i], charges[..i], startTime, endTime)
      {
        assert times[..i + 1][..i] == times[..i] && charges[..i + 1][..i] == charges[..i];
        if startTime <= times[i] < endTime {
          sum := sum + charges[i];
        }
        i := i + 1;
      }
      assert times[..i] == times && charges[..i] == charges;
    }
  }
}
