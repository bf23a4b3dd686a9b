/** TRestDetectorHitsReductionProcess: the hits of an event are merged in
    place, pair by pair, while they lie closer than a distance that grows
    by a constant factor from round to round, until the distance reaches its
    minimum and the hit count is at most the allowed number of nodes. */
module HitsReduction {
  import opened SeqUtil
  import opened RestHits
  import opened HitsEvents

  /** Every hit carries positive energy, so any two of them can be merged. */
  predicate Positive(e: seq<real>) {
    forall k :: 0 <= k < |e| ==> e[k] > 0.0
  }

  /** No two hits lie closer than d. */
  ghost predicate Separated(h: Hits, d: real)
    reads h
    requires h.Valid()
  {
    forall a, b :: 0 <= a < b < h.nHits ==> h.GetDistance2(a, b) >= d * d
  }

  /** factor to the power n. */
  function Power(factor: real, n: nat): real {
    if n == 0 then 1.0 else Power(factor, n - 1) * factor
  }

  /** One more round multiplies the distance by the factor. */
  lemma PowerStep(starting: real, factor: real, n: nat)
    ensures starting * Power(factor, n + 1) == starting * Power(factor, n) * factor
  {
  }

  /** Merging two positive energies into one keeps every energy positive. */
  lemma MergedPositive(e: seq<real>, n: nat, m: nat)
    requires Positive(e) && n < |e| && m < |e| && n != m
    ensures Positive(RemoveAt(e[n := e[n] + e[m]], m))
  {
    var merged := e[n := e[n] + e[m]];
    assert Positive(merged);
    RemoveAtIndex(merged, m);
  }

  /** One pass of the double loop over pairs (i, j), i < j: a pair closer
      than distance is merged into hit i, and j moves on past the hit that
      took the erased one's place. A pass that merges nothing leaves the hits
      as they were and has seen every pair at least distance apart. */
  method MergePass(hits: Hits, distance: real) returns (merged: bool)
    requires hits.Valid() && Positive(hits.energy)
    modifies hits
    ensures hits.Valid() && Positive(hits.energy)
    ensures hits.totEnergy == old(hits.totEnergy) && hits.nHits <= old(hits.nHits)
    ensures merged <==> hits.nHits < old(hits.nHits)
    ensures !merged ==> unchanged(hits) && Separated(hits, distance)
  {
    merged := false;
    var i := 0;
    while i < hits.nHits
      invariant hits.Valid() && Positive(hits.energy) && 0 <= i
      invariant hits.totEnergy == old(hits.totEnergy) && hits.nHits <= old(hits.nHits)
      invariant merged <==> hits.nHits < old(hits.nHits)
      invariant !merged ==> unchanged(hits)
      invariant !merged ==> forall a, b :: 0 <= a < i && a < b < hits.nHits ==> hits.GetDistance2(a, b) >= distance * distance
      decreases hits.nHits - i
    {
      merged := MergeWith(hits, distance, i, merged);
      i := i + 1;
    }
  }

  /** The inner loop of MergePass for hit i: every later hit closer than
      distance is merged into it. */
  method MergeWith(hits: Hits, distance: real, i: nat, mergedBefore: bool) returns (merged: bool)
    requires hits.Valid() && Positive(hits.energy) && i < hits.nHits
    modifies hits
    ensures hits.Valid() && Positive(hits.energy)
    ensures hits.totEnergy == old(hits.totEnergy) && hits.nHits <= old(hits.nHits)
    ensures merged <==> mergedBefore || hits.nHits < old(hits.nHits)
    ensures hits.nHits == old(hits.nHits) ==> unchanged(hits)
    ensures hits.nHits == old(hits.nHits) ==>
              forall b :: i < b < hits.nHits ==> hits.GetDistance2(i, b) >= distance * distance
  {
    merged := mergedBefore;
    var j := i + 1;
    while j < hits.nHits
      invariant hits.Valid() && Positive(hits.energy) && i < hits.nHits && i < j
      invariant hits.totEnergy == old(hits.totEnergy) && hits.nHits <= old(hits.nHits)
      invariant merged <==> mergedBefore || hits.nHits < old(hits.nHits)
      invariant hits.nHits == old(hits.nHits) ==> unchanged(hits)
      invariant hits.nHits == old(hits.nHits) ==>
                  forall b :: i < b < j && b < hits.nHits ==> hits.GetDistance2(i, b) >= distance * distance
      decreases hits.nHits - j
    {
      if hits.GetDistance2(i, j) < distance * distance {
        MergedPositive(hits.energy, i, j);
        hits.MergeHits(i, j);
        merged := true;
      }
      j := j + 1;
    }
  }

  class HitsReductionProcess {
    var startingDistance: real
    var minimumDistance: real
    var distanceFactor: real
    var maxNodes: real
    var inputHitsEvent: HitsEvent?
    var outputHitsEvent: HitsEvent?

    constructor (starting: real, minimum: real, factor: real, nodes: real)
      ensures startingDistance == starting && minimumDistance == minimum
      ensures distanceFactor == factor && maxNodes == nodes
      ensures inputHitsEvent == null && outputHitsEvent == null
    {
      startingDistance, minimumDistance, distanceFactor, maxNodes := starting, minimum, factor, nodes;
      inputHitsEvent, outputHitsEvent := null, null;
    }

    /** Reduces the event's hits in place and returns the same event. At
        most maxRounds rounds are run: done says whether the rounds ended on
        their own, with the distance at its minimum and at most maxNodes hits
        left; rounds is the number of rounds run. */
    method ProcessEvent(evInput: HitsEvent, maxRounds: nat) returns (output: HitsEvent, done: bool, rounds: nat)
      requires evInput.Valid() && Positive(evInput.hits.energy)
      modifies this, evInput.hits
      ensures output == evInput && inputHitsEvent == evInput && outputHitsEvent == evInput
      ensures startingDistance == old(startingDistance) && minimumDistance == old(minimumDistance)
      ensures distanceFactor == old(distanceFactor) && maxNodes == old(maxNodes)
      ensures evInput.Valid() && Positive(evInput.hits.energy)
      ensures evInput.hits.nHits <= old(evInput.hits.nHits)
      ensures evInput.hits.totEnergy == old(evInput.hits.totEnergy)
      ensures done ==> startingDistance * Power(distanceFactor, rounds) >= minimumDistance
                       && evInput.hits.nHits as real <= maxNodes
      ensures !done ==> rounds == maxRounds
    {
      inputHitsEvent := evInput;
      outputHitsEvent := inputHitsEvent;
      done, rounds := Reduce(outputHitsEvent, startingDistance, minimumDistance, distanceFactor, maxNodes, maxRounds);
      output := outputHitsEvent;
    }
  }

  /** The rounds of HitsReductionProcess.ProcessEvent, from the starting
      distance on. */
  method Reduce(ev: HitsEvent, starting: real, minimum: real, factor: real, maxNodes: real, maxRounds: nat)
    returns (done: bool, rounds: nat)
    requires ev.Valid() && Positive(ev.hits.energy)
    modifies ev.hits
    ensures ev.Valid() && Positive(ev.hits.energy)
    ensures ev.hits.nHits <= old(ev.hits.nHits) && ev.hits.totEnergy == old(ev.hits.totEnergy)
    ensures done ==> starting * Power(factor, rounds) >= minimum && ev.hits.nHits as real <= maxNodes
    ensures !done ==> rounds == maxRounds
  {
    var distance := starting;
    rounds := 0;
    while distance < minimum || ev.hits.nHits as real > maxNodes
      invariant ev.Valid() && Positive(ev.hits.energy) && rounds <= maxRounds
      invariant ev.hits.nHits <= old(ev.hits.nHits) && ev.hits.totEnergy == old(ev.hits.totEnergy)
      invariant distance == starting * Power(factor, rounds)
      decreases maxRounds - rounds
    {
      if rounds == maxRounds {
        return false, rounds;
      }
      MergeUntilSeparated(ev, distance);
      PowerStep(starting, factor, rounds);
      distance := distance * factor;
      rounds := rounds + 1;
    }
    return true, rounds;
  }

  /** The merge passes of one round, repeated until a whole pass merges
      nothing. */
  method MergeUntilSeparated(ev: HitsEvent, distance: real)
    requires ev.Valid() && Positive(ev.hits.energy)
    modifies ev.hits
    ensures ev.Valid() && Positive(ev.hits.energy) && Separated(ev.hits, distance)
    ensures ev.hits.nHits <= old(ev.hits.nHits) && ev.hits.totEnergy == old(ev.hits.totEnergy)
  {
    var hits := ev.hits;
    var merged := true;
    while merged
      invariant ev.Valid() && Positive(hits.energy)
      invariant hits.nHits <= old(hits.nHits) && hits.totEnergy == old(hits.totEnergy)
      invariant !merged ==> Separated(hits, distance)
      decreases hits.nHits + (if merged then 1 else 0)
    {
      merged := MergePass(hits, distance);
    }
  }
}
