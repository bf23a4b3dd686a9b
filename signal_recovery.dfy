/** TRestDetectorSignalRecoveryProcess: rebuilds the signal of every dead DAQ
    channel from the two readout channels beside it, taking the charge it
    gives to the rebuilt signal off the neighbours. */
module SignalRecovery {
  import opened SeqUtil
  import opened Signals
  import opened SignalEvents
  import opened ReadoutModules
  import opened Readouts

  /** The result of GetAdjacentSignalIds: kind 0 when no module holds the
      channel, 1 when both neighbours are alive, 2 when the left neighbour
      is dead too (the channel beyond it is taken), 3 when the right one is. */
  datatype Adjacency = Adjacency(kind: int, left: int, right: int)

  /** What ProcessEvent reaches: the whole event, or a neighbour lookup that
      reads a channel outside the module (GetChannel on a negative index or
      a null channel past the end), where the process has no defined
      behaviour. */
  datatype Outcome = Processed | OutsideModule(deadId: int)

  /** The neighbours of readout channel r, skipping one dead channel on the
      left or, failing that, on the right. None when a channel outside the
      module would be read. */
  function Neighbours(chs: seq<Channel>, r: int, dead: seq<int>): Option<Adjacency> {
    if r - 1 < 0 || r + 1 >= |chs| then None
    else
      var left, right := chs[r - 1].daqId, chs[r + 1].daqId;
      if left in dead then
        if r - 2 < 0 then None else Some(Adjacency(2, chs[r - 2].daqId, right))
      else if right in dead then
        if r + 2 >= |chs| then None else Some(Adjacency(3, left, chs[r + 2].daqId))
      else Some(Adjacency(1, left, right))
  }

  /** The DAQ ID of channel i, or -1 outside the module. */
  function DaqAt(chs: seq<Channel>, i: int): int {
    if 0 <= i < |chs| then chs[i].daqId else -1
  }

  /** The neighbour lookup as written: the test meant for the right
      neighbour checks the left one again. */
  function NeighboursAsWritten(chs: seq<Channel>, r: int, dead: seq<int>): Option<Adjacency> {
    if r - 1 < 0 || r + 1 >= |chs| then None
    else
      var left, right := DaqAt(chs, r - 1), DaqAt(chs, r + 1);
      if left in dead then
        if r - 2 < 0 then None else Some(Adjacency(2, DaqAt(chs, r - 2), right))
      else if left in dead then
        if r + 2 >= |chs| then None else Some(Adjacency(3, left, DaqAt(chs, r + 2)))
      else Some(Adjacency(1, left, right))
  }

  /** Each neighbour handed back is the adjacent channel, or the one beyond
      it when the adjacent one is dead; only one side is ever skipped, and a
      live adjacent channel is never skipped. */
  lemma NeighboursSkipDeadChannels(chs: seq<Channel>, r: int, dead: seq<int>)
    requires Neighbours(chs, r, dead).Some?
    ensures var a := Neighbours(chs, r, dead).value;
      1 <= r < |chs| - 1
      && (a.left == chs[r - 1].daqId || (chs[r - 1].daqId in dead && r >= 2 && a.left == chs[r - 2].daqId))
      && (a.right == chs[r + 1].daqId || (chs[r + 1].daqId in dead && r + 2 < |chs| && a.right == chs[r + 2].daqId))
      && (a.kind == 2 <==> chs[r - 1].daqId in dead)
      && (a.kind == 3 <==> chs[r - 1].daqId !in dead && chs[r + 1].daqId in dead)
      && (a.kind == 1 <==> chs[r - 1].daqId !in dead && chs[r + 1].daqId !in dead)
  {
  }

  /** As written, a dead right neighbour is never skipped: kind 3 cannot
      happen and the dead channel itself is handed back as the right
      neighbour, where the corrected lookup takes the channel beyond it. */
  lemma AsWrittenKeepsDeadRightNeighbour(chs: seq<Channel>, r: int, dead: seq<int>)
    ensures NeighboursAsWritten(chs, r, dead).Some? ==> NeighboursAsWritten(chs, r, dead).value.kind != 3
    ensures 1 <= r && r + 2 < |chs| && chs[r - 1].daqId !in dead && chs[r + 1].daqId in dead ==>
      NeighboursAsWritten(chs, r, dead) == Some(Adjacency(1, chs[r - 1].daqId, chs[r + 1].daqId))
      && Neighbours(chs, r, dead) == Some(Adjacency(3, chs[r - 1].daqId, chs[r + 2].daqId))
  {
  }

  /** What the neighbour lookup reads of a placed module: its DAQ range
      and its channels. */
  datatype Placed = Placed(minDaqId: int, maxDaqId: int, channels: seq<Channel>)

  predicate Holds(m: Placed, id: int) {
    m.minDaqId <= id <= m.maxDaqId
  }

  /** The placed modules, plane by plane, as values. */
  function View(ms: seq<ReadoutModule>): (v: seq<Placed>)
    reads ms
    ensures |v| == |ms|
    ensures forall i :: 0 <= i < |ms| ==> v[i] == Placed(ms[i].minDaqId, ms[i].maxDaqId, ms[i].channels)
  {
    seq(|ms|, i reads ms requires 0 <= i < |ms| => Placed(ms[i].minDaqId, ms[i].maxDaqId, ms[i].channels))
  }

  /** The index of the first placed module whose DAQ range holds the ID,
      or -1. */
  function FirstHolding(v: seq<Placed>, id: int): (k: int)
    ensures -1 <= k < |v|
    ensures k >= 0 ==> Holds(v[k], id) && forall j :: 0 <= j < k ==> !Holds(v[j], id)
    ensures k == -1 ==> forall j :: 0 <= j < |v| ==> !Holds(v[j], id)
  {
    if v == [] then -1
    else
      var k := FirstHolding(v[..|v| - 1], id);
      if k >= 0 then k
      else if Holds(v[|v| - 1], id) then |v| - 1
      else -1
  }

  /** Reference definition of GetAdjacentSignalIds over the placed modules. */
  function AdjacentOf(v: seq<Placed>, id: int, dead: seq<int>): Option<Adjacency> {
    var k := FirstHolding(v, id);
    if k < 0 then Some(Adjacency(0, -1, -1))
    else Neighbours(v[k].channels, IndexOf(DaqIds(v[k].channels), id), dead)
  }

  lemma AdjacentAt(v: seq<Placed>, k: nat, id: int, dead: seq<int>)
    requires k < |v| && Holds(v[k], id)
    requires forall j :: 0 <= j < k ==> !Holds(v[j], id)
    ensures AdjacentOf(v, id, dead) == Neighbours(v[k].channels, IndexOf(DaqIds(v[k].channels), id), dead)
  {
  }

  lemma AdjacentNone(v: seq<Placed>, id: int, dead: seq<int>)
    requires forall j :: 0 <= j < |v| ==> !Holds(v[j], id)
    ensures AdjacentOf(v, id, dead) == Some(Adjacency(0, -1, -1))
  {
  }

  /** A dead channel is rebuilt when both neighbours are known and both
      have a signal in the input event. */
  predicate Recovers(a: Option<Adjacency>, ids: seq<int>) {
    a.Some? && a.value.left != -1 && a.value.right != -1 && a.value.left in ids && a.value.right in ids
  }

  /** Whether each of xs is rebuilt. */
  function Flags(v: seq<Placed>, xs: seq<int>, dead: seq<int>, ids: seq<int>): (r: seq<bool>)
    ensures |r| == |xs|
  {
    if xs == [] then []
    else Flags(v, xs[..|xs| - 1], dead, ids) + [Recovers(AdjacentOf(v, xs[|xs| - 1], dead), ids)]
  }

  lemma {:induction false} FlagsAt(v: seq<Placed>, xs: seq<int>, dead: seq<int>, ids: seq<int>, i: nat)
    requires i < |xs|
    ensures Flags(v, xs, dead, ids)[i] == Recovers(AdjacentOf(v, xs[i], dead), ids)
  {
    if i < |xs| - 1 {
      FlagsAt(v, xs[..|xs| - 1], dead, ids, i);
    }
  }

  /** Whether the lookup of each of xs stays inside its module. */
  function Found(v: seq<Placed>, xs: seq<int>, dead: seq<int>): (r: seq<bool>)
    ensures |r| == |xs|
  {
    if xs == [] then [] else Found(v, xs[..|xs| - 1], dead) + [AdjacentOf(v, xs[|xs| - 1], dead).Some?]
  }

  lemma {:induction false} FoundAt(v: seq<Placed>, xs: seq<int>, dead: seq<int>, i: nat)
    requires i < |xs|
    ensures Found(v, xs, dead)[i] == AdjacentOf(v, xs[i], dead).Some?
  {
    if i < |xs| - 1 {
      FoundAt(v, xs[..|xs| - 1], dead, i);
    }
  }

  /** The output IDs once the dead channel's copied signal is erased: the
      first occurrence of the ID goes when found at an index of at least
      `least`. */
  function Erased(ids: seq<int>, x: int, least: nat): seq<int> {
    var k := IndexOf(ids, x);
    if k >= least then RemoveAt(ids, k) else ids
  }

  /** One dead channel's effect on the output IDs: the copied signal is
      erased, and the rebuilt one is appended unless the ID is still there
      (AddSignal refuses it). */
  function RecoveryStep(ids: seq<int>, x: int, recovers: bool, least: nat): seq<int> {
    var kept := Erased(ids, x, least);
    if recovers && x !in kept then kept + [x] else kept
  }

  /** The output signal IDs after the dead channels, in order: the input IDs,
      then one RecoveryStep per dead channel. The process erases from index
      0 on; `least` = 1 is the source as written. */
  function Recovered(ids: seq<int>, dead: seq<int>, flags: seq<bool>, least: nat): seq<int>
    requires |flags| == |dead|
  {
    if dead == [] then ids
    else
      var n := |dead| - 1;
      RecoveryStep(Recovered(ids, dead[..n], flags[..n], least), dead[n], flags[n], least)
  }

  lemma RemoveAtMembers(s: seq<int>, k: nat)
    requires k < |s| && UniqueIds(s)
    ensures UniqueIds(RemoveAt(s, k))
    ensures forall y :: y in RemoveAt(s, k) <==> y in s && y != s[k]
  {
    var r := RemoveAt(s, k);
    forall i, j | 0 <= i < j < |r|
      ensures r[i] != r[j]
    {
      var i', j' := if i < k then i else i + 1, if j < k then j else j + 1;
      assert r[i] == s[i'] && r[j] == s[j'];
    }
    forall y
      ensures y in r <==> y in s && y != s[k]
    {
      if y in r {
        var i :| 0 <= i < |r| && r[i] == y;
        assert y == s[if i < k then i else i + 1];
      }
      if y in s && y != s[k] {
        var i :| 0 <= i < |s| && s[i] == y;
        assert y == r[if i < k then i else i - 1];
      }
    }
  }

  /** One corrected step: the dead channel's ID is present afterwards exactly
      when it was rebuilt, and every other ID stays as it was. */
  lemma RecoveryStepMembers(ids: seq<int>, x: int, recovers: bool)
    requires UniqueIds(ids)
    ensures UniqueIds(RecoveryStep(ids, x, recovers, 0))
    ensures x in RecoveryStep(ids, x, recovers, 0) <==> recovers
    ensures forall y :: y != x ==> (y in RecoveryStep(ids, x, recovers, 0) <==> y in ids)
  {
    var k := IndexOf(ids, x);
    if k >= 0 {
      RemoveAtMembers(ids, k);
    }
    var kept := if k >= 0 then RemoveAt(ids, k) else ids;
    assert x !in kept;
    if recovers {
      assert RecoveryStep(ids, x, recovers, 0) == kept + [x];
    }
  }

  /** Recovered over one more dead channel is one more RecoveryStep. */
  lemma RecoveredNext(ids: seq<int>, dead: seq<int>, flags: seq<bool>, x: nat, least: nat)
    requires |flags| == |dead| && x < |dead|
    ensures Recovered(ids, dead[..x + 1], flags[..x + 1], least)
      == RecoveryStep(Recovered(ids, dead[..x], flags[..x], least), dead[x], flags[x], least)
  {
    assert dead[..x + 1][..x] == dead[..x] && flags[..x + 1][..x] == flags[..x];
  }

  /** With unique input IDs and unique dead channels, a dead channel's ID
      ends up in the output exactly when it was rebuilt, every other ID is
      kept, and no ID occurs twice. */
  lemma {:induction false} RecoveredMembers(ids: seq<int>, dead: seq<int>, flags: seq<bool>)
    requires UniqueIds(ids) && UniqueIds(dead) && |flags| == |dead|
    ensures UniqueIds(Recovered(ids, dead, flags, 0))
    ensures forall i :: 0 <= i < |dead| ==> (dead[i] in Recovered(ids, dead, flags, 0) <==> flags[i])
    ensures forall y :: y !in dead ==> (y in Recovered(ids, dead, flags, 0) <==> y in ids)
  {
    if dead != [] {
      var n := |dead| - 1;
      var prev := Recovered(ids, dead[..n], flags[..n], 0);
      RecoveredMembers(ids, dead[..n], flags[..n]);
      RecoveryStepMembers(prev, dead[n], flags[n]);
      var r := Recovered(ids, dead, flags, 0);
      assert r == RecoveryStep(prev, dead[n], flags[n], 0);
      forall i | 0 <= i < n
        ensures dead[i] in r <==> flags[i]
      {
        assert dead[i] == dead[..n][i] && flags[i] == flags[..n][i];
      }
      forall y | y !in dead
        ensures y in r <==> y in ids
      {
        assert y !in dead[..n];
      }
    }
  }

  /** As written, a dead channel whose copied signal sits at index 0 is never
      erased, so its rebuilt signal is refused as a duplicate and the dead
      channel's raw signal stays in the output. */
  lemma AsWrittenKeepsFirstDeadSignal()
    ensures Recovered([7, 8], [7], [true], 1) == [7, 8]
    ensures Recovered([7, 8], [7], [true], 0) == [8, 7]
  {
    assert [7][..0] == [] && [true][..0] == [];
    assert IndexOf([7, 8], 7) == 0;
    assert RemoveAt([7, 8], 0) == [8];
  }

  /** As written, whichever channels are dead and whichever are rebuilt,
      the output's first signal is the input's first: index 0 is never
      erased. So when the first input signal is a dead channel's, its raw
      signal stays and a rebuilt one is refused as a duplicate, where the
      corrected erasure keeps the ID exactly when it is rebuilt
      (RecoveredMembers). */
  lemma {:induction false} AsWrittenKeepsFirstSignal(ids: seq<int>, dead: seq<int>, flags: seq<bool>)
    requires |ids| > 0 && |flags| == |dead|
    ensures |Recovered(ids, dead, flags, 1)| > 0 && Recovered(ids, dead, flags, 1)[0] == ids[0]
  {
    if dead != [] {
      var n := |dead| - 1;
      AsWrittenKeepsFirstSignal(ids, dead[..n], flags[..n]);
      var prev := Recovered(ids, dead[..n], flags[..n], 1);
      var k := IndexOf(prev, dead[n]);
      if k >= 1 {
        assert RemoveAt(prev, k)[0] == prev[0];
      }
    }
  }

  /** The sum of the charges each scaled by the share, point by point. */
  function Scaled(c: seq<real>, share: real): real {
    if c == [] then 0.0 else Scaled(c[..|c| - 1], share) + share * c[|c| - 1]
  }

  lemma ScaledStep(c: seq<real>, n: nat, share: real)
    requires n < |c|
    ensures Scaled(c[..n + 1], share) == Scaled(c[..n], share) + share * c[n]
  {
    assert c[..n + 1][..n] == c[..n];
  }

  lemma {:induction false} ScaledSum(c: seq<real>, share: real)
    ensures Scaled(c, share) == share * Sum(c)
  {
    if c != [] {
      ScaledSum(c[..|c| - 1], share);
    }
  }

  /** The kind-1 loop with the charge alone halved: each point's charge moves
      in `share` to the same time on `to`, and as much is taken off `from`.
      The source alternates the two updates point by point; since the update
      at point n only touches points at or before n, the charge it reads at n
      is still the original one, so filling `to` first and then draining
      `from` ends in the same state. */
  method Transfer(from: Signal, to: Signal, share: real)
    requires from.Valid() && to.Valid() && from != to
    modifies from, to
    ensures from.Valid() && to.Valid()
    ensures from.signalID == old(from.signalID) && to.signalID == old(to.signalID)
    ensures from.times == old(from.times)
    ensures forall j :: 0 <= j < |from.times| ==> from.times[j] in to.times
    ensures forall t :: t in old(to.times) ==> t in to.times
    ensures Sum(to.charges) == Sum(old(to.charges)) + Scaled(old(from.charges), share)
    ensures Sum(from.charges) == Sum(old(from.charges)) - Scaled(old(from.charges), share)
  {
    ShareInto(from, to, share);
    TakeShare(from, share);
  }

  /** The kind 2 and 3 loops that fill the rebuilt signal with a share of a
      neighbour's charge at the neighbour's times. */
  method ShareInto(from: Signal, to: Signal, share: real)
    requires from.Valid() && to.Valid() && from != to
    modifies to
    ensures to.Valid() && to.signalID == old(to.signalID)
    ensures forall j :: 0 <= j < |from.times| ==> from.times[j] in to.times
    ensures forall t :: t in old(to.times) ==> t in to.times
    ensures Sum(to.charges) == Sum(old(to.charges)) + Scaled(from.charges, share)
  {
    var times, charges := from.times, from.charges;
    var n := 0;
    while n < |times|
      invariant 0 <= n <= |times| == |charges|
      invariant to.Valid() && to.signalID == old(to.signalID)
      invariant forall j :: 0 <= j < n ==> times[j] in to.times
      invariant forall t :: t in old(to.times) ==> t in to.times
      invariant Sum(to.charges) == Sum(old(to.charges)) + Scaled(charges[..n], share)
    {
      ScaledStep(charges, n, share);
      to.IncreaseAmplitude(times[n], share * charges[n]);
      n := n + 1;
    }
    assert charges[..n] == charges;
  }

  /** The kind 2 and 3 loops that take a share of each point's charge off a
      neighbour, keeping its times. */
  method TakeShare(from: Signal, share: real)
    requires from.Valid()
    modifies from
    ensures from.Valid() && from.signalID == old(from.signalID)
    ensures from.times == old(from.times)
    ensures Sum(from.charges) == Sum(old(from.charges)) - Scaled(old(from.charges), share)
  {
    ghost var c0 := from.charges;
    var n := 0;
    while n < |from.times|
      invariant 0 <= n <= |from.times| == |c0|
      invariant from.Valid() && from.signalID == old(from.signalID)
      invariant from.times == old(from.times)
      invariant forall j :: n <= j < |c0| ==> from.charges[j] == c0[j]
      invariant Sum(from.charges) == Sum(c0) - Scaled(c0[..n], share)
    {
      TakeShareAt(from, c0, n, share);
      n := n + 1;
    }
    assert c0[..n] == c0;
  }

  /** One pass of the TakeShare loop: the share of point n's original
      charge c0[n] is taken off the first point with point n's time, which
      leaves the points after n as they were. */
  method TakeShareAt(from: Signal, ghost c0: seq<real>, n: nat, share: real)
    requires from.Valid() && n < |from.times| == |c0|
    requires forall j :: n <= j < |c0| ==> from.charges[j] == c0[j]
    requires Sum(from.charges) == Sum(c0) - Scaled(c0[..n], share)
    modifies from
    ensures from.Valid() && from.signalID == old(from.signalID)
    ensures from.times == old(from.times)
    ensures forall j :: n + 1 <= j < |c0| ==> from.charges[j] == c0[j]
    ensures Sum(from.charges) == Sum(c0) - Scaled(c0[..n + 1], share)
  {
    ScaledStep(c0, n, share);
    IndexOfAtMost(from.times, n);
    from.IncreaseAmplitude(from.times[n], -(share * from.charges[n]));
  }

  /** IncreaseAmplitude(TVector2(t, d)) on a signal's points as values: d
      is added at time t, or (t, d) is appended. */
  function PointAdded(times: seq<real>, charges: seq<real>, t: real, d: real): (r: (seq<real>, seq<real>))
    requires |times| == |charges|
    ensures |r.0| == |r.1| && |times| <= |r.0| <= |times| + 1
    ensures r.0[..|times|] == times
  {
    var k := IndexOf(times, t);
    if k >= 0 then (times, charges[k := charges[k] + d]) else (times + [t], charges + [d])
  }

  /** The times share * t for the times t, in order. */
  function ScaledTimes(ts: seq<real>, share: real): (r: seq<real>)
    ensures |r| == |ts| && forall j :: 0 <= j < |ts| ==> r[j] == share * ts[j]
  {
    seq(|ts|, j requires 0 <= j < |ts| => share * ts[j])
  }

  /** The kind 2 and 3 fill loops as written: `IncreaseAmplitude(share *
      GetPoint(n))` scales the whole TVector2, so each point (t, c) of the
      neighbour adds share * c at time share * t. The right charge moves,
      but every time the signal gains is a scaled neighbour time; the
      corrected ShareInto puts the charge at the neighbour's own times. */
  method ShareIntoAsWritten(from: Signal, to: Signal, share: real)
    requires from.Valid() && to.Valid() && from != to
    modifies to
    ensures to.Valid() && to.signalID == old(to.signalID)
    ensures |old(to.times)| <= |to.times| && to.times[..|old(to.times)|] == old(to.times)
    ensures forall k :: |old(to.times)| <= k < |to.times| ==> to.times[k] in ScaledTimes(from.times, share)
    ensures forall t :: t in ScaledTimes(from.times, share) ==> t in to.times
    ensures Sum(to.charges) == Sum(old(to.charges)) + Scaled(from.charges, share)
  {
    var times, charges := from.times, from.charges;
    ghost var scaled := ScaledTimes(times, share);
    ghost var base := to.times;
    var n := 0;
    while n < |times|
      invariant 0 <= n <= |times| == |charges|
      invariant to.Valid() && to.signalID == old(to.signalID)
      invariant |base| <= |to.times| && to.times[..|base|] == base
      invariant forall k :: |base| <= k < |to.times| ==> to.times[k] in scaled[..n]
      invariant forall t :: t in scaled[..n] ==> t in to.times
      invariant Sum(to.charges) == Sum(old(to.charges)) + Scaled(charges[..n], share)
    {
      ScaledStep(charges, n, share);
      var t := share * times[n];
      assert t == scaled[n] && scaled[..n + 1] == scaled[..n] + [t];
      to.IncreaseAmplitude(t, share * charges[n]);
      n := n + 1;
    }
    assert charges[..n] == charges && scaled[..n] == scaled;
  }

  /** The point that GetPoint(n)/2 adds to a signal: TVector2 division
      halves the time along with the charge. */
  function HalvingStep(times: seq<real>, charges: seq<real>, n: nat): (r: (seq<real>, seq<real>))
    requires |times| == |charges| && n < |times|
    ensures |r.0| == |r.1| && |times| <= |r.0| <= |times| + 1
    ensures r.0[..|times|] == times
  {
    PointAdded(times, charges, -times[n] / 2.0, -charges[n] / 2.0)
  }

  /** As written, a pass of the kind-1 depletion loop at a point with a
      nonzero time leaves that point's charge as it was and adds the
      negative half charge at time -t/2 instead. */
  lemma AsWrittenHalvingMissesPoint(times: seq<real>, charges: seq<real>, n: nat)
    requires |times| == |charges| && n < |times| && times[n] != 0.0
    ensures HalvingStep(times, charges, n).1[n] == charges[n]
    ensures -times[n] / 2.0 in HalvingStep(times, charges, n).0
  {
    var k := IndexOf(times, -times[n] / 2.0);
    if k >= 0 {
      assert k != n;
    }
  }

  /** The kind-1 loop as written, on a signal holding the single point
      (1, 1): the state after k passes. */
  function HalvingRun(k: nat): (r: (seq<real>, seq<real>))
    ensures |r.0| == |r.1| >= 1
  {
    if k == 0 then ([1.0], [1.0])
    else
      var prev := HalvingRun(k - 1);
      if k - 1 < |prev.0| then HalvingStep(prev.0, prev.1, k - 1) else prev
  }

  /** (-1/2)^j and its magnitude 2^-j. */
  function Power(j: nat): real {
    if j == 0 then 1.0 else -Power(j - 1) / 2.0
  }

  function Magnitude(j: nat): (m: real)
    ensures m > 0.0
  {
    if j == 0 then 1.0 else Magnitude(j - 1) / 2.0
  }

  lemma {:induction false} PowerMagnitude(j: nat)
    ensures Power(j) == Magnitude(j) || Power(j) == -Magnitude(j)
  {
    if j > 0 {
      PowerMagnitude(j - 1);
    }
  }

  lemma {:induction false} MagnitudeDecreases(i: nat, j: nat)
    requires i < j
    ensures Magnitude(j) < Magnitude(i)
  {
    if i < j - 1 {
      MagnitudeDecreases(i, j - 1);
    }
  }

  /** As written, every pass of the kind-1 loop adds a new point at half the
      previous time, so after k passes the signal holds k + 1 points and the
      loop, bounded by the growing point count, is still running: it never
      ends in exact arithmetic. */
  lemma {:induction false} HalvingLoopOutrunsItsBound(k: nat)
    ensures |HalvingRun(k).0| == k + 1
    ensures forall j :: 0 <= j <= k ==> HalvingRun(k).0[j] == Power(j)
  {
    if k > 0 {
      HalvingLoopOutrunsItsBound(k - 1);
      HalvingNext(k);
    }
  }

  /** Pass k of the loop appends (-1/2)^k, which no earlier point holds. */
  lemma HalvingNext(k: nat)
    requires k > 0 && |HalvingRun(k - 1).0| == k
    requires forall j :: 0 <= j < k ==> HalvingRun(k - 1).0[j] == Power(j)
    ensures HalvingRun(k).0 == HalvingRun(k - 1).0 + [Power(k)]
  {
    var prev := HalvingRun(k - 1);
    var t := -prev.0[k - 1] / 2.0;
    assert t == Power(k);
    PowersDistinct(prev.0, k, t);
    HalvingAppends(prev.0, prev.1, k - 1, t);
  }

  /** A halved time not yet on the signal is appended as a new point. */
  lemma HalvingAppends(times: seq<real>, charges: seq<real>, n: nat, t: real)
    requires |times| == |charges| && n < |times|
    requires t == -times[n] / 2.0 && IndexOf(times, t) == -1
    ensures HalvingStep(times, charges, n).0 == times + [t]
  {
  }

  /** The next power differs from all the earlier ones. */
  lemma PowersDistinct(ts: seq<real>, k: nat, t: real)
    requires |ts| == k && forall j :: 0 <= j < k ==> ts[j] == Power(j)
    requires t == Power(k)
    ensures IndexOf(ts, t) == -1
  {
    forall j | 0 <= j < k
      ensures ts[j] != t
    {
      PowerMagnitude(j);
      PowerMagnitude(k);
      MagnitudeDecreases(j, k);
    }
  }

  class RecoveryProcess {
    /** fChannelIds: the dead DAQ channels. */
    const channelIds: seq<int>
    /** The readout's placed modules, plane after plane, as the process
        reads them: nothing in the process changes the readout. */
    const layout: seq<Placed>

    constructor (dead: seq<int>, r: Readout)
      ensures channelIds == dead && layout == View(Members(Entries(r.planes)))
    {
      channelIds := dead;
      layout := View(Members(Entries(r.planes)));
    }

    /** The neighbours of the first module, plane by plane, whose DAQ range
        holds the ID. */
    method GetAdjacentSignalIds(signalId: int) returns (adjacent: Option<Adjacency>)
      ensures adjacent == AdjacentOf(layout, signalId, channelIds)
    {
      var k := 0;
      while k < |layout|
        invariant 0 <= k <= |layout|
        invariant forall j :: 0 <= j < k ==> !Holds(layout[j], signalId)
      {
        var current := layout[k];
        if current.minDaqId <= signalId <= current.maxDaqId {
          // the index DaqToReadoutChannel returns
          var r := IndexOf(DaqIds(current.channels), signalId);
          adjacent := Neighbours(current.channels, r, channelIds);
          AdjacentAt(layout, k, signalId, channelIds);
          return;
        }
        k := k + 1;
      }
      AdjacentNone(layout, signalId, channelIds);
      return Some(Adjacency(0, -1, -1));
    }

    /** Copies the input signals to the (initialised) output event, then
        handles the dead channels in order: a channel the lookup places
        outside its module stops the event. */
    method ProcessEvent(input: SignalEvent, output: SignalEvent) returns (outcome: Outcome)
      requires input.Valid() && output.Valid() && input != output
      requires output.signals == [] && UniqueIds(IdsOf(input.signals))
      modifies output, input.signals
      ensures IdsOf(input.signals) == old(IdsOf(input.signals))
      ensures outcome == Processed <==>
        forall i :: 0 <= i < |channelIds| ==> AdjacentOf(layout, channelIds[i], channelIds).Some?
      ensures outcome == Processed ==>
        IdsOf(output.signals) == Recovered(IdsOf(input.signals), channelIds,
          Flags(layout, channelIds, channelIds, IdsOf(input.signals)), 0)
    {
      ghost var ids := IdsOf(input.signals);
      label Start:
      CopySignals(input, output);
      EventKept@Start(input);
      assert Progress(input, output, ids, channelIds[..0], []);
      outcome := RecoverAll(input, output, ids);
    }

    /** The second loop of ProcessEvent: the dead channels in order, from a
        full copy of the input. */
    method RecoverAll(input: SignalEvent, output: SignalEvent, ghost ids: seq<int>) returns (outcome: Outcome)
      requires Progress(input, output, ids, channelIds[..0], [])
      modifies output, input.signals
      ensures IdsOf(input.signals) == ids
      ensures outcome == Processed <==>
        forall i :: 0 <= i < |channelIds| ==> AdjacentOf(layout, channelIds[i], channelIds).Some?
      ensures outcome == Processed ==>
        IdsOf(output.signals) == Recovered(ids, channelIds, Flags(layout, channelIds, channelIds, ids), 0)
    {
      ghost var flags := Flags(layout, channelIds, channelIds, ids);
      ghost var found := Found(layout, channelIds, channelIds);
      assert flags[..0] == [];
      for x := 0 to |channelIds|
        invariant Progress(input, output, ids, channelIds[..x], flags[..x])
        invariant forall i :: 0 <= i < x ==> found[i]
      {
        var ok := RecoverChannel(input, output, x, ids, flags, found);
        if !ok {
          FoundAt(layout, channelIds, channelIds, x);
          return OutsideModule(channelIds[x]);
        }
      }
      forall i | 0 <= i < |channelIds|
        ensures AdjacentOf(layout, channelIds[i], channelIds).Some?
      {
        FoundAt(layout, channelIds, channelIds, i);
      }
      assert channelIds[..|channelIds|] == channelIds && flags[..|channelIds|] == flags;
      return Processed;
    }

    /** The dead channel at index x: its neighbours are looked up and, when
        the lookup stays inside the module, the channel is recovered; false
        otherwise. */
    method RecoverChannel(input: SignalEvent, output: SignalEvent, x: nat, ghost ids: seq<int>,
        ghost flags: seq<bool>, ghost found: seq<bool>) returns (ok: bool)
      requires x < |channelIds| && flags == Flags(layout, channelIds, channelIds, ids)
      requires found == Found(layout, channelIds, channelIds)
      requires Progress(input, output, ids, channelIds[..x], flags[..x])
      requires forall i :: 0 <= i < x ==> found[i]
      modifies output, input.signals
      ensures ok == found[x]
      ensures ok ==> forall i :: 0 <= i < x + 1 ==> found[i]
      ensures ok ==> Progress(input, output, ids, channelIds[..x + 1], flags[..x + 1])
      ensures !ok ==> Progress(input, output, ids, channelIds[..x], flags[..x])
    {
      FoundAt(layout, channelIds, channelIds, x);
      FlagsAt(layout, channelIds, channelIds, ids, x);
      var adjacent := GetAdjacentSignalIds(channelIds[x]);
      ok := adjacent.Some?;
      if ok {
        RecoverWith(input, output, channelIds[x], adjacent.value);
        RecoveredNext(ids, channelIds, flags, x, 0);
      }
    }
  }

  /** The recovery so far: the events are paired, the input keeps its IDs
      and the output's IDs are those the dead channels handled so far
      leave. */
  ghost predicate Progress(input: SignalEvent, output: SignalEvent, ids: seq<int>, dead: seq<int>, flags: seq<bool>)
    reads input, input.signals, output, output.signals
  {
    Paired(input, output) && IdsOf(input.signals) == ids
    && |flags| == |dead| && IdsOf(output.signals) == Recovered(ids, dead, flags, 0)
  }

  /** The two events of the recovery: both valid, distinct, and sharing no
      signal object. */
  ghost predicate Paired(input: SignalEvent, output: SignalEvent)
    reads input, input.signals, output, output.signals
  {
    input.Valid() && output.Valid() && input != output && Disjoint(output.signals, input.signals)
  }

  /** No signal object of the first sequence is one of the second's. */
  predicate Disjoint(a: seq<Signal>, b: seq<Signal>) {
    forall i, j :: 0 <= i < |a| && 0 <= j < |b| ==> a[i] != b[j]
  }

  lemma DisjointRemoveAt(a: seq<Signal>, b: seq<Signal>, k: nat)
    requires k < |a| && Disjoint(a, b)
    ensures Disjoint(RemoveAt(a, k), b)
  {
  }

  lemma DisjointAppend(a: seq<Signal>, b: seq<Signal>, x: Signal)
    requires Disjoint(a, b) && forall j :: 0 <= j < |b| ==> b[j] != x
    ensures Disjoint(a + [x], b)
  {
  }

  /** One dead channel with its neighbours found: its copied signal is
      erased from the output and, when both neighbours have a signal in the
      input, the rebuilt signal is added. */
  method RecoverWith(input: SignalEvent, output: SignalEvent, dead: int, a: Adjacency)
    requires Paired(input, output)
    modifies output, input.signals
    ensures Paired(input, output)
    ensures IdsOf(input.signals) == old(IdsOf(input.signals))
    ensures IdsOf(output.signals) == RecoveryStep(old(IdsOf(output.signals)), dead, Recovers(Some(a), old(IdsOf(input.signals))), 0)
  {
    var left, right := FindNeighbours(input, a);
    ghost var i, j := IndexOf(IdsOf(input.signals), a.left), IndexOf(IdsOf(input.signals), a.right);
    label Start:
    EraseCopy(input, output, dead);
    EventKept@Start(input);
    if left != null && right != null {
      AddRebuiltId(input, output, left, right, a.kind, dead, i, j);
    }
  }

  /** AddRebuilt seen from the IDs alone. */
  method AddRebuiltId(input: SignalEvent, output: SignalEvent, left: Signal, right: Signal, kind: int, dead: int,
      ghost i: int, ghost j: int)
    requires Paired(input, output)
    requires 0 <= i < |input.signals| && left == input.signals[i]
    requires 0 <= j < |input.signals| && right == input.signals[j]
    modifies output, left, right
    ensures Paired(input, output)
    ensures IdsOf(input.signals) == old(IdsOf(input.signals))
    ensures IdsOf(output.signals) ==
      if dead in old(IdsOf(output.signals)) then old(IdsOf(output.signals)) else old(IdsOf(output.signals)) + [dead]
  {
    AddRebuilt(input, output, left, right, kind, dead, i, j);
  }

  /** The rebuilt signal is made from the neighbours' signals and added to
      the output, unless its ID is still there. */
  method AddRebuilt(input: SignalEvent, output: SignalEvent, left: Signal, right: Signal, kind: int, dead: int,
      ghost i: int, ghost j: int)
    requires Paired(input, output)
    requires 0 <= i < |input.signals| && left == input.signals[i]
    requires 0 <= j < |input.signals| && right == input.signals[j]
    modifies output, left, right
    ensures Paired(input, output)
    ensures IdsOf(input.signals) == old(IdsOf(input.signals))
    ensures IdsOf(output.signals) ==
      if dead in old(IdsOf(output.signals)) then old(IdsOf(output.signals)) else old(IdsOf(output.signals)) + [dead]
    ensures left != right ==>
              Sum(left.charges) == Kept(kind, old(Sum(left.charges)))
              && Sum(right.charges) == Kept(kind, old(Sum(right.charges)))
    ensures dead !in old(IdsOf(output.signals)) ==>
              |DataOf(output.signals)| == |old(output.signals)| + 1
              && DataOf(output.signals)[..|old(output.signals)|] == old(DataOf(output.signals))
    ensures dead !in old(IdsOf(output.signals)) && left != right ==>
              Sum(DataOf(output.signals)[|old(output.signals)|].charges)
              == RebuiltCharge(kind, old(Sum(left.charges)), old(Sum(right.charges)))
  {
    label Found:
    var recovered := Rebuild(input, left, right, kind, dead);
    EventKept@Found(output);
    DataOfKept@Found(output.signals);
    AdmitRebuilt(input, output, recovered);
  }

  /** The rebuilt signal joins the output, unless its ID is still there;
      the output's signals keep their values. */
  method AdmitRebuilt(input: SignalEvent, output: SignalEvent, recovered: Signal)
    requires Paired(input, output) && recovered.Valid()
    modifies output
    ensures Paired(input, output)
    ensures IdsOf(input.signals) == old(IdsOf(input.signals))
    ensures IdsOf(output.signals) ==
      if recovered.signalID in old(IdsOf(output.signals)) then old(IdsOf(output.signals))
      else old(IdsOf(output.signals)) + [recovered.signalID]
    ensures recovered.signalID !in old(IdsOf(output.signals)) ==>
              DataOf(output.signals)
              == old(DataOf(output.signals)) + [SignalData(recovered.signalID, recovered.times, recovered.charges)]
  {
    label Rebuilt:
    Admit(input, output, recovered);
    EventKept@Rebuilt(input);
  }

  /** The first part of a dead channel's handling: the output's signal with
      the dead ID, if any, is erased. */
  method EraseCopy(input: SignalEvent, output: SignalEvent, dead: int)
    requires output.Valid() && input != output && Disjoint(output.signals, input.signals)
    modifies output
    ensures output.Valid() && Disjoint(output.signals, input.signals)
    ensures IdsOf(output.signals) == Erased(old(IdsOf(output.signals)), dead, 0)
  {
    ghost var before := output.signals;
    var index := output.GetSignalIndex(dead);
    if index >= 0 {
      output.RemoveSignalWithId(dead);
      DisjointRemoveAt(before, input.signals, index);
    }
  }

  /** The input signals of both neighbours, or nulls when a neighbour is
      missing (-1) or has no signal in the input. */
  method FindNeighbours(input: SignalEvent, a: Adjacency) returns (left: Signal?, right: Signal?)
    requires input.Valid()
    ensures (left != null && right != null) <==> Recovers(Some(a), IdsOf(input.signals))
    ensures left != null && right != null ==>
      left == input.signals[IndexOf(IdsOf(input.signals), a.left)]
      && right == input.signals[IndexOf(IdsOf(input.signals), a.right)]
  {
    if a.left == -1 || a.right == -1 {
      return null, null;
    }
    left := input.GetSignalById(a.left);
    right := input.GetSignalById(a.right);
  }

  /** The charge total a rebuilt signal of the kind receives from
      neighbours holding the totals l and r: half of each for kind 1, 1/6
      and 2/6 (the nearer neighbour the larger share) for kinds 2 and 3, and
      nothing for any other kind. */
  function RebuiltCharge(kind: int, l: real, r: real): real {
    if kind == 1 then l / 2.0 + r / 2.0
    else if kind == 2 then l / 6.0 + 2.0 * r / 6.0
    else if kind == 3 then 2.0 * l / 6.0 + r / 6.0
    else 0.0
  }

  /** What a neighbour holding the total c keeps: half for kind 1, three
      quarters for kinds 2 and 3, all of it otherwise. */
  function Kept(kind: int, c: real): real {
    if kind == 1 then c - c / 2.0
    else if kind == 2 || kind == 3 then c - c / 4.0
    else c
  }

  /** The charge of an event as values: its signals' charge totals added
      up. */
  function EventCharge(ds: seq<SignalData>): real {
    if ds == [] then 0.0 else EventCharge(ds[..|ds| - 1]) + Sum(ds[|ds| - 1].charges)
  }

  lemma EventChargeAppend(ds: seq<SignalData>, d: SignalData)
    ensures EventCharge(ds + [d]) == EventCharge(ds) + Sum(d.charges)
  {
    assert (ds + [d])[..|ds|] == ds;
  }

  /** Replacing one signal changes the event's charge by the difference of
      the two signals' totals. */
  lemma {:induction false} EventChargeUpdate(ds: seq<SignalData>, k: nat, d: SignalData)
    requires k < |ds|
    ensures EventCharge(ds[k := d]) == EventCharge(ds) - Sum(ds[k].charges) + Sum(d.charges)
  {
    var n := |ds| - 1;
    if k == n {
      assert ds[k := d][..n] == ds[..n];
    } else {
      assert ds[k := d][..n] == ds[..n][k := d];
      EventChargeUpdate(ds[..n], k, d);
    }
  }

  /** ProcessEvent as written, for a kind-1 dead channel whose ID the output
      does not hold: the output's earlier signals keep the values they were
      copied with (AddRebuilt), which for the first dead channel are the
      input's values before any depletion (CopySignals), and the rebuilt
      signal with half of each neighbour's total l and r is added. The
      halving lands on the input's signals, so the output's charge grows by
      (l + r) / 2 instead of staying the same. */
  lemma AsWrittenRecoveryGainsCharge(before: seq<SignalData>, after: seq<SignalData>, l: real, r: real)
    requires |after| == |before| + 1 && after[..|before|] == before
    requires Sum(after[|before|].charges) == RebuiltCharge(1, l, r)
    ensures EventCharge(after) == EventCharge(before) + l / 2.0 + r / 2.0
    ensures l + r > 0.0 ==> EventCharge(after) > EventCharge(before)
  {
    assert after == before + [after[|before|]];
    EventChargeAppend(before, after[|before|]);
  }

  /** The point charges with the share of each taken off. */
  function Drained(c: seq<real>, share: real): (r: seq<real>)
    ensures |r| == |c|
  {
    if c == [] then [] else Drained(c[..|c| - 1], share) + [c[|c| - 1] - share * c[|c| - 1]]
  }

  lemma {:induction false} DrainedSum(c: seq<real>, share: real)
    ensures Sum(Drained(c, share)) == Sum(c) - Scaled(c, share)
  {
    if c != [] {
      var n := |c| - 1;
      DrainedSum(c[..n], share);
      assert (Drained(c[..n], share) + [c[n] - share * c[n]])[..n] == Drained(c[..n], share);
    }
  }

  /** Halving every point keeps half the charge, as Kept says for kind 1. */
  lemma HalvedSum(c: seq<real>)
    ensures Sum(Drained(c, 1.0 / 2.0)) == Kept(1, Sum(c))
  {
    DrainedSum(c, 1.0 / 2.0);
    ScaledSum(c, 1.0 / 2.0);
  }

  /** The evidently intended kind-1 recovery, on the output's values: the
      output's copies of the two neighbours (entries i and j) are halved
      point by point and the rebuilt signal is added. */
  function IntendedKindOne(out: seq<SignalData>, i: nat, j: nat, rebuilt: SignalData): (r: seq<SignalData>)
    requires i < |out| && j < |out| && i != j
    ensures |r| == |out| + 1 && r[|out|] == rebuilt
  {
    var mid := out[i := out[i].(charges := Drained(out[i].charges, 1.0 / 2.0))];
    mid[j := mid[j].(charges := Drained(mid[j].charges, 1.0 / 2.0))] + [rebuilt]
  }

  /** The intended kind-1 recovery keeps the event's charge: the rebuilt
      signal receives what the two neighbours' copies give up. */
  lemma IntendedKindOneKeepsCharge(out: seq<SignalData>, i: nat, j: nat, rebuilt: SignalData)
    requires i < |out| && j < |out| && i != j
    requires Sum(rebuilt.charges) == RebuiltCharge(1, Sum(out[i].charges), Sum(out[j].charges))
    ensures EventCharge(IntendedKindOne(out, i, j, rebuilt)) == EventCharge(out)
    ensures Sum(IntendedKindOne(out, i, j, rebuilt)[i].charges) == Kept(1, Sum(out[i].charges))
    ensures Sum(IntendedKindOne(out, i, j, rebuilt)[j].charges) == Kept(1, Sum(out[j].charges))
  {
    var li := out[i].(charges := Drained(out[i].charges, 1.0 / 2.0));
    var mid := out[i := li];
    var rj := mid[j].(charges := Drained(mid[j].charges, 1.0 / 2.0));
    assert mid[j] == out[j];
    assert IntendedKindOne(out, i, j, rebuilt) == mid[j := rj] + [rebuilt];
    HalvedSum(out[i].charges);
    HalvedSum(out[j].charges);
    EventChargeUpdate(out, i, li);
    EventChargeUpdate(mid, j, rj);
    EventChargeAppend(mid[j := rj], rebuilt);
  }

  /** The charge totals of the four channels around two neighbouring dead
      channels: the live left neighbour, the two rebuilt channels and the
      live right neighbour. */
  datatype DeadPair = DeadPair(left: real, nearLeft: real, nearRight: real, right: real)

  function PairCharge(p: DeadPair): real {
    p.left + p.nearLeft + p.nearRight + p.right
  }

  /** Two neighbouring dead channels as written, from neighbour totals l
      and r: the channel recovered first (kind 3 for the left one of the
      pair, kind 2 for the right one) takes its shares and a quarter off
      each neighbour, and the second channel then reads the neighbours
      already depleted. */
  function AsWrittenDeadPair(l: real, r: real, first: int): (p: DeadPair)
    requires first == 2 || first == 3
    ensures p.left == Kept(5 - first, Kept(first, l)) && p.right == Kept(5 - first, Kept(first, r))
  {
    var second := 5 - first;
    var c1 := RebuiltCharge(first, l, r);
    var c2 := RebuiltCharge(second, Kept(first, l), Kept(first, r));
    var l2 := Kept(second, Kept(first, l));
    var r2 := Kept(second, Kept(first, r));
    if first == 3 then DeadPair(l2, c1, c2, r2) else DeadPair(l2, c2, c1, r2)
  }

  /** As written, the four channels end with 49/48 of one neighbour's total
      and 47/48 of the other's, whichever channel of the pair comes first:
      the charge is kept only when the two neighbours hold the same total. */
  lemma AsWrittenDeadPairSkewsCharge(l: real, r: real, first: int)
    requires first == 2 || first == 3
    ensures PairCharge(AsWrittenDeadPair(l, r, first))
            == if first == 3 then (49.0 * l + 47.0 * r) / 48.0 else (47.0 * l + 49.0 * r) / 48.0
    ensures PairCharge(AsWrittenDeadPair(l, r, first)) == l + r <==> l == r
    ensures AsWrittenDeadPair(48.0, 0.0, 3) == DeadPair(27.0, 16.0, 6.0, 0.0)
  {
  }

  /** The evidently intended recovery of two neighbouring dead channels:
      each rebuilt channel takes its shares of the neighbours' undepleted
      totals, and each neighbour gives up a quarter of its own total twice,
      which is the split s_{i-1}/2, (2s_{i-1} + s_{i+2})/6,
      (s_{i-1} + 2s_{i+2})/6, s_{i+2}/2 the process documents. */
  function IntendedDeadPair(l: real, r: real): (p: DeadPair)
    ensures p.nearLeft == RebuiltCharge(3, l, r) && p.nearRight == RebuiltCharge(2, l, r)
  {
    DeadPair(l - l / 4.0 - l / 4.0, RebuiltCharge(3, l, r), RebuiltCharge(2, l, r), r - r / 4.0 - r / 4.0)
  }

  /** The intended split keeps the neighbours' charge, gives each neighbour
      half its total, and agrees with the code as written exactly when the
      two neighbours hold the same total. */
  lemma IntendedDeadPairKeepsCharge(l: real, r: real, first: int)
    requires first == 2 || first == 3
    ensures PairCharge(IntendedDeadPair(l, r)) == l + r
    ensures IntendedDeadPair(l, r) == DeadPair(l / 2.0, (2.0 * l + r) / 6.0, (l + 2.0 * r) / 6.0, r / 2.0)
    ensures PairCharge(AsWrittenDeadPair(l, r, first)) == PairCharge(IntendedDeadPair(l, r)) <==> l == r
  {
    AsWrittenDeadPairSkewsCharge(l, r, first);
  }

  /** The rebuilt signal of a dead channel from the neighbours' signals:
      kind 1 moves half of each neighbour's charge into it, which keeps the
      charge total; kinds 2 and 3 give it 1/6 and 2/6 of the neighbours'
      charge and then take a quarter off each neighbour. The charge lands at
      the neighbours' times. */
  method Rebuild(input: SignalEvent, left: Signal, right: Signal, kind: int, dead: int) returns (recovered: Signal)
    requires input.Valid() && left in input.signals && right in input.signals
    modifies left, right
    ensures input.signals == old(input.signals) && input.Valid() && IdsOf(input.signals) == old(IdsOf(input.signals))
    ensures fresh(recovered) && recovered.Valid() && recovered.signalID == dead
    ensures left.times == old(left.times) && right.times == old(right.times)
    ensures left != right ==>
              Sum(recovered.charges) == RebuiltCharge(kind, old(Sum(left.charges)), old(Sum(right.charges)))
              && Sum(left.charges) == Kept(kind, old(Sum(left.charges)))
              && Sum(right.charges) == Kept(kind, old(Sum(right.charges)))
    ensures left != right && kind == 1 ==>
              Sum(recovered.charges) + Sum(left.charges) + Sum(right.charges)
              == old(Sum(left.charges)) + old(Sum(right.charges))
    ensures 1 <= kind <= 3 ==> forall t :: t in old(left.times) || t in old(right.times) ==> t in recovered.times
  {
    recovered := new Signal();
    recovered.SetSignalID(dead);
    assert Sum(recovered.charges) == 0.0;
    Apportion(input, left, right, recovered, kind);
  }

  /** The charge moves of Rebuild into the signal `to`: the source's three
      kind tests and its shared depletion test, with the kinds exclusive. */
  method Apportion(input: SignalEvent, left: Signal, right: Signal, to: Signal, kind: int)
    requires input.Valid() && left in input.signals && right in input.signals
    requires to.Valid() && to !in input.signals
    modifies left, right, to
    ensures input.signals == old(input.signals) && input.Valid() && IdsOf(input.signals) == old(IdsOf(input.signals))
    ensures to.Valid() && to.signalID == old(to.signalID)
    ensures left.times == old(left.times) && right.times == old(right.times)
    ensures left != right ==>
              Sum(to.charges) == Sum(old(to.charges)) + RebuiltCharge(kind, old(Sum(left.charges)), old(Sum(right.charges)))
              && Sum(left.charges) == Kept(kind, old(Sum(left.charges)))
              && Sum(right.charges) == Kept(kind, old(Sum(right.charges)))
    ensures 1 <= kind <= 3 ==> forall t :: t in old(left.times) || t in old(right.times) ==> t in to.times
  {
    KindShares(kind, left.charges, right.charges);
    if kind == 1 {
      Halve(input, left, right, to);
    } else if kind == 2 {
      Skew(input, left, right, to, 1.0 / 6.0, 2.0 / 6.0);
    } else if kind == 3 {
      Skew(input, left, right, to, 2.0 / 6.0, 1.0 / 6.0);
    }
  }

  /** The shares of each kind, summed over a neighbour's points, are the
      fractions RebuiltCharge and Kept apply to its charge total. */
  lemma KindShares(kind: int, l: seq<real>, r: seq<real>)
    ensures kind == 1 ==>
              Scaled(l, 1.0 / 2.0) + Scaled(r, 1.0 / 2.0) == RebuiltCharge(kind, Sum(l), Sum(r))
              && Sum(l) - Scaled(l, 1.0 / 2.0) == Kept(kind, Sum(l)) && Sum(r) - Scaled(r, 1.0 / 2.0) == Kept(kind, Sum(r))
    ensures kind == 2 ==>
              Scaled(l, 1.0 / 6.0) + Scaled(r, 2.0 / 6.0) == RebuiltCharge(kind, Sum(l), Sum(r))
    ensures kind == 3 ==>
              Scaled(l, 2.0 / 6.0) + Scaled(r, 1.0 / 6.0) == RebuiltCharge(kind, Sum(l), Sum(r))
    ensures kind == 2 || kind == 3 ==>
              Sum(l) - Scaled(l, 1.0 / 4.0) == Kept(kind, Sum(l)) && Sum(r) - Scaled(r, 1.0 / 4.0) == Kept(kind, Sum(r))
  {
    ScaledSum(l, 1.0 / 2.0);
    ScaledSum(r, 1.0 / 2.0);
    ScaledSum(l, 1.0 / 6.0);
    ScaledSum(r, 1.0 / 6.0);
    ScaledSum(l, 2.0 / 6.0);
    ScaledSum(r, 2.0 / 6.0);
    ScaledSum(l, 1.0 / 4.0);
    ScaledSum(r, 1.0 / 4.0);
  }

  /** Kind 1: half of each neighbour's charge moves into the rebuilt
      signal. */
  method Halve(input: SignalEvent, left: Signal, right: Signal, to: Signal)
    requires input.Valid() && left in input.signals && right in input.signals
    requires to.Valid() && to !in input.signals
    modifies left, right, to
    ensures input.signals == old(input.signals) && input.Valid() && IdsOf(input.signals) == old(IdsOf(input.signals))
    ensures to.Valid() && to.signalID == old(to.signalID)
    ensures left.times == old(left.times) && right.times == old(right.times)
    ensures forall t :: t in old(left.times) || t in old(right.times) ==> t in to.times
    ensures left != right ==>
              Sum(to.charges) == Sum(old(to.charges)) + Scaled(old(left.charges), 1.0 / 2.0) + Scaled(old(right.charges), 1.0 / 2.0)
              && Sum(left.charges) == Sum(old(left.charges)) - Scaled(old(left.charges), 1.0 / 2.0)
              && Sum(right.charges) == Sum(old(right.charges)) - Scaled(old(right.charges), 1.0 / 2.0)
  {
    MoveShare(input, left, to, 1.0 / 2.0);
    MoveShare(input, right, to, 1.0 / 2.0);
  }

  /** Kinds 2 and 3: the rebuilt signal receives a share of each
      neighbour's charge, then a quarter is taken off each neighbour. */
  method Skew(input: SignalEvent, left: Signal, right: Signal, to: Signal, leftShare: real, rightShare: real)
    requires input.Valid() && left in input.signals && right in input.signals
    requires to.Valid() && to !in input.signals
    modifies left, right, to
    ensures input.signals == old(input.signals) && input.Valid() && IdsOf(input.signals) == old(IdsOf(input.signals))
    ensures to.Valid() && to.signalID == old(to.signalID)
    ensures left.times == old(left.times) && right.times == old(right.times)
    ensures forall t :: t in old(left.times) || t in old(right.times) ==> t in to.times
    ensures left != right ==>
              Sum(to.charges) == Sum(old(to.charges)) + Scaled(old(left.charges), leftShare) + Scaled(old(right.charges), rightShare)
              && Sum(left.charges) == Sum(old(left.charges)) - Scaled(old(left.charges), 1.0 / 4.0)
              && Sum(right.charges) == Sum(old(right.charges)) - Scaled(old(right.charges), 1.0 / 4.0)
  {
    Fill(input, left, to, leftShare);
    Fill(input, right, to, rightShare);
    Deplete(input, left, 1.0 / 4.0);
    Deplete(input, right, 1.0 / 4.0);
  }

  /** Transfer from a signal of the input event to a signal outside it; the
      event keeps its signal IDs. */
  method MoveShare(input: SignalEvent, from: Signal, to: Signal, share: real)
    requires input.Valid() && from in input.signals && to.Valid() && to !in input.signals
    modifies from, to
    ensures input.signals == old(input.signals) && input.Valid() && IdsOf(input.signals) == old(IdsOf(input.signals))
    ensures to.Valid() && to.signalID == old(to.signalID)
    ensures from.times == old(from.times)
    ensures forall t :: t in old(from.times) || t in old(to.times) ==> t in to.times
    ensures Sum(to.charges) == Sum(old(to.charges)) + Scaled(old(from.charges), share)
    ensures Sum(from.charges) == Sum(old(from.charges)) - Scaled(old(from.charges), share)
  {
    Transfer(from, to, share);
  }

  /** ShareInto from a signal of the input event to a signal outside it;
      the event keeps its signal IDs. */
  method Fill(input: SignalEvent, from: Signal, to: Signal, share: real)
    requires input.Valid() && from in input.signals && to.Valid() && to !in input.signals
    modifies to
    ensures input.signals == old(input.signals) && input.Valid() && IdsOf(input.signals) == old(IdsOf(input.signals))
    ensures to.Valid() && to.signalID == old(to.signalID)
    ensures forall t :: t in from.times || t in old(to.times) ==> t in to.times
    ensures Sum(to.charges) == Sum(old(to.charges)) + Scaled(from.charges, share)
  {
    ShareInto(from, to, share);
  }

  /** TakeShare on a signal of the input event; the event keeps its signal
      IDs. */
  method Deplete(input: SignalEvent, from: Signal, share: real)
    requires input.Valid() && from in input.signals
    modifies from
    ensures input.signals == old(input.signals) && input.Valid() && IdsOf(input.signals) == old(IdsOf(input.signals))
    ensures from.times == old(from.times)
    ensures Sum(from.charges) == Sum(old(from.charges)) - Scaled(old(from.charges), share)
  {
    TakeShare(from, share);
  }

  /** The first loop of ProcessEvent: every input signal is added to the
      empty output, as a copy. */
  method CopySignals(input: SignalEvent, output: SignalEvent)
    requires input.Valid() && output.Valid() && input != output
    requires output.signals == [] && UniqueIds(IdsOf(input.signals))
    modifies output
    ensures output.Valid() && IdsOf(output.signals) == IdsOf(input.signals) && Disjoint(output.signals, input.signals)
    ensures DataOf(output.signals) == DataOf(input.signals)
  {
    ghost var ids := IdsOf(input.signals);
    ghost var data := DataOf(input.signals);
    label Start:
    var n := 0;
    while n < |input.signals|
      invariant 0 <= n <= |input.signals|
      invariant output.Valid() && IdsOf(output.signals) == ids[..n] && Disjoint(output.signals, input.signals)
      invariant DataOf(output.signals) == data[..n]
    {
      CopyOne(input, output, ids, data, n);
      n := n + 1;
    }
    assert ids[..n] == ids && data[..n] == data;
    DataOfKept@Start(input.signals);
  }

  /** One pass of the copy loop: the output gains a copy of input signal n,
      whose value is entry n of the snapshot `data`. */
  method CopyOne(input: SignalEvent, output: SignalEvent, ghost ids: seq<int>, ghost data: seq<SignalData>, n: nat)
    requires input.Valid() && output != input && n < |input.signals|
    requires ids == IdsOf(input.signals) && UniqueIds(ids) && data == DataOf(input.signals)
    requires output.Valid() && IdsOf(output.signals) == ids[..n] && Disjoint(output.signals, input.signals)
    requires DataOf(output.signals) == data[..n]
    modifies output
    ensures output.Valid() && IdsOf(output.signals) == ids[..n + 1] && Disjoint(output.signals, input.signals)
    ensures DataOf(output.signals) == data[..n + 1]
  {
    CopyStep(ids, n);
    DataOfAt(input.signals, n);
    assert data[..n + 1] == data[..n] + [data[n]];
    Admit(input, output, input.signals[n]);
  }

  /** Signals whose fields did not change keep their values. */
  twostate lemma {:induction false} DataOfKept(ss: seq<Signal>)
    requires forall i :: 0 <= i < |ss| ==> unchanged(ss[i])
    ensures DataOf(ss) == old(DataOf(ss))
  {
    if ss != [] {
      DataOfKept(ss[..|ss| - 1]);
    }
  }

  /** The last signal's value ends the values of all of them. */
  lemma DataOfLast(ss: seq<Signal>)
    requires ss != []
    ensures DataOf(ss) == DataOf(ss[..|ss| - 1]) + [SignalData(ss[|ss| - 1].signalID, ss[|ss| - 1].times, ss[|ss| - 1].charges)]
  {
  }

  /** With unique IDs, the next ID is new to the ones copied so far. */
  lemma CopyStep(ids: seq<int>, n: nat)
    requires UniqueIds(ids) && n < |ids|
    ensures ids[n] !in ids[..n] && ids[..n + 1] == ids[..n] + [ids[n]]
  {
  }

  /** AddSignal on the output event, which adds a fresh copy or nothing, so
      the output stays apart from the input. */
  method Admit(input: SignalEvent, output: SignalEvent, signal: Signal)
    requires output.Valid() && signal.Valid() && output != input && Disjoint(output.signals, input.signals)
    modifies output
    ensures output.Valid() && Disjoint(output.signals, input.signals)
    ensures IdsOf(output.signals) ==
      if signal.signalID in old(IdsOf(output.signals)) then old(IdsOf(output.signals))
      else old(IdsOf(output.signals)) + [signal.signalID]
    ensures signal.signalID !in old(IdsOf(output.signals)) ==>
              output.signals[|output.signals| - 1].times == signal.times
              && output.signals[|output.signals| - 1].charges == signal.charges
    ensures output.signals[..|old(output.signals)|] == old(output.signals)
    ensures signal.signalID !in old(IdsOf(output.signals)) ==>
              DataOf(output.signals) == old(DataOf(output.signals)) + [SignalData(signal.signalID, signal.times, signal.charges)]
  {
    ghost var before := output.signals;
    label Before:
    output.AddSignal(signal);
    if |output.signals| > |before| {
      assert output.signals == before + [output.signals[|before|]];
      DisjointAppend(before, input.signals, output.signals[|before|]);
      DataOfLast(output.signals);
      DataOfKept@Before(before);
    }
  }
}
