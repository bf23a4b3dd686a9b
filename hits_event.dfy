/** TRestDetectorHitsEvent: an event holding its hits in a TRestHits object,
    with three auxiliary TRestHits buffers that GetXZHits, GetYZHits and
    GetXYZHits clear and refill. */
module HitsEvents {
  import opened SeqUtil
  import opened RestHits

  /** The hits of one type, in their original order. */
  function OfKind(hs: seq<Hit>, k: HitType): (r: seq<Hit>)
    ensures |r| <= |hs|
    ensures forall h :: h in r ==> h in hs && h.kind == k
  {
    if hs == [] then []
    else OfKind(hs[..|hs| - 1], k) + (if hs[|hs| - 1].kind == k then [hs[|hs| - 1]] else [])
  }

  /** No hit of the requested type is dropped. */
  lemma {:induction false} OfKindComplete(hs: seq<Hit>, k: HitType, i: nat)
    requires i < |hs| && hs[i].kind == k
    ensures hs[i] in OfKind(hs, k)
  {
    if i < |hs| - 1 {
      assert hs[..|hs| - 1][i] == hs[i];
      OfKindComplete(hs[..|hs| - 1], k, i);
    }
  }

  /** Filtering keeps everything exactly when every hit already has the type. */
  lemma OfKindAll(hs: seq<Hit>, k: HitType)
    ensures OfKind(hs, k) == hs <==> forall i :: 0 <= i < |hs| ==> hs[i].kind == k
  {
    if forall i :: 0 <= i < |hs| ==> hs[i].kind == k {
      OfKindKeepsAll(hs, k);
    }
    if OfKind(hs, k) == hs {
      forall i | 0 <= i < |hs| ensures hs[i].kind == k {
        assert hs[i] in OfKind(hs, k);
      }
    }
  }

  lemma {:induction false} OfKindKeepsAll(hs: seq<Hit>, k: HitType)
    requires forall i :: 0 <= i < |hs| ==> hs[i].kind == k
    ensures OfKind(hs, k) == hs
  {
    if hs != [] {
      var init := hs[..|hs| - 1];
      assert forall i :: 0 <= i < |init| ==> init[i] == hs[i];
      OfKindKeepsAll(init, k);
      SplitLast(hs);
    }
  }

  lemma OfKindPrefix(hs: seq<Hit>, i: nat, k: HitType)
    requires i < |hs|
    ensures OfKind(hs[..i + 1], k) == OfKind(hs[..i], k) + (if hs[i].kind == k then [hs[i]] else [])
  {
    assert hs[..i + 1][..i] == hs[..i];
  }

  /** Number of hits that satisfy a per-hit test. */
  function CountWhere(hs: seq<Hit>, test: Hit -> bool): (n: nat)
    ensures n <= |hs|
  {
    if hs == [] then 0 else CountWhere(hs[..|hs| - 1], test) + (if test(hs[|hs| - 1]) then 1 else 0)
  }

  lemma {:induction false} CountWhereBounds(hs: seq<Hit>, test: Hit -> bool)
    ensures CountWhere(hs, test) > 0 <==> exists i :: 0 <= i < |hs| && test(hs[i])
    ensures CountWhere(hs, test) == |hs| <==> forall i :: 0 <= i < |hs| ==> test(hs[i])
  {
    if hs != [] {
      var init := hs[..|hs| - 1];
      CountWhereBounds(init, test);
      assert forall i :: 0 <= i < |init| ==> init[i] == hs[i];
      if exists i :: 0 <= i < |hs| && test(hs[i]) {
        var i :| 0 <= i < |hs| && test(hs[i]);
        if i < |init| {
          assert test(init[i]);
        }
      }
    }
  }

  class HitsEvent {
    var hits: Hits
    var xzHits: Hits
    var yzHits: Hits
    var xyzHits: Hits

    ghost predicate Valid()
      reads this, hits, xzHits, yzHits, xyzHits
    {
      hits.Valid() && xzHits.Valid() && yzHits.Valid() && xyzHits.Valid()
      && hits != xzHits && hits != yzHits && hits != xyzHits
      && xzHits != yzHits && xzHits != xyzHits && yzHits != xyzHits
    }

    constructor ()
      ensures Valid() && hits.HitList() == []
      ensures fresh(hits) && fresh(xzHits) && fresh(yzHits) && fresh(xyzHits)
    {
      hits := new Hits();
      xzHits := new Hits();
      yzHits := new Hits();
      xyzHits := new Hits();
    }

    method AddHit(x: real, y: real, z: real, en: real, t: real, kind: HitType)
      requires Valid()
      modifies hits
      ensures Valid()
      ensures hits.HitList() == old(hits.HitList()) + [Hit(x, y, z, en, t, kind)]
      ensures hits.totEnergy == old(hits.totEnergy) + en
    {
      hits.AddHit(x, y, z, en, t, kind);
    }

    /** Removes every hit and replaces the three buffers by fresh empty ones. */
    method Initialize()
      requires Valid()
      modifies this, hits
      ensures Valid() && hits == old(hits) && hits.nHits == 0 && hits.HitList() == []
      ensures fresh(xzHits) && fresh(yzHits) && fresh(xyzHits)
      ensures xzHits.HitList() == [] && yzHits.HitList() == [] && xyzHits.HitList() == []
    {
      hits.RemoveHits();
      xzHits := new Hits();
      yzHits := new Hits();
      xyzHits := new Hits();
    }

    /** NLoop random swaps; each draw is the pair of Uniform(0, 1) values the
        source takes from gRandom, turned into hit indices by truncation. */
    method Shuffle(draws: seq<(real, real)>)
      requires Valid()
      requires forall d :: d in draws ==> 0.0 <= d.0 < 1.0 && 0.0 <= d.1 < 1.0
      modifies hits
      ensures Valid() && hits.nHits == old(hits.nHits) && hits.totEnergy == old(hits.totEnergy)
      ensures multiset(hits.HitList()) == multiset(old(hits.HitList()))
      ensures old(hits.nHits) < 2 ==> hits.HitList() == old(hits.HitList())
    {
      var nHits := hits.nHits;
      if nHits >= 2 {
        var n := 0;
        while n < |draws|
          invariant 0 <= n <= |draws|
          invariant Valid() && hits.nHits == nHits && hits.totEnergy == old(hits.totEnergy)
          invariant multiset(hits.HitList()) == multiset(old(hits.HitList()))
        {
          var hit1 := TruncatedIndex(nHits, draws[n].0);
          var hit2 := TruncatedIndex(nHits, draws[n].1);
          ghost var before := hits.HitList();
          hits.SwapHits(hit1, hit2);
          SwappedMultiset(before, hit1, hit2);
          n := n + 1;
        }
      }
    }

    method GetXZHits() returns (r: Hits)
      requires Valid()
      modifies xzHits
      ensures Valid() && r == xzHits
      ensures r.HitList() == OfKind(hits.HitList(), XZ)
    {
      CollectKind(hits, xzHits, XZ);
      r := xzHits;
    }

    method GetYZHits() returns (r: Hits)
      requires Valid()
      modifies yzHits
      ensures Valid() && r == yzHits
      ensures r.HitList() == OfKind(hits.HitList(), YZ)
    {
      CollectKind(hits, yzHits, YZ);
      r := yzHits;
    }

    method GetXYZHits() returns (r: Hits)
      requires Valid()
      modifies xyzHits
      ensures Valid() && r == xyzHits
      ensures r.HitList() == OfKind(hits.HitList(), XYZ)
    {
      CollectKind(hits, xyzHits, XYZ);
      r := xyzHits;
    }

    /** inCylinder stands for the per-hit test counted by
        TRestHits::GetNumberOfHitsInsideCylinder(x0, x1, radius). */
    function AnyHitInsideCylinder(inCylinder: Hit -> bool): (r: bool)
      reads this, hits, xzHits, yzHits, xyzHits
      requires Valid()
      ensures r <==> exists i :: 0 <= i < hits.nHits && inCylinder(hits.HitList()[i])
    {
      CountWhereBounds(hits.HitList(), inCylinder);
      CountWhere(hits.HitList(), inCylinder) > 0
    }

    function AllHitsInsideCylinder(inCylinder: Hit -> bool): (r: bool)
      reads this, hits, xzHits, yzHits, xyzHits
      requires Valid()
      ensures r <==> forall i :: 0 <= i < hits.nHits ==> inCylinder(hits.HitList()[i])
    {
      CountWhereBounds(hits.HitList(), inCylinder);
      CountWhere(hits.HitList(), inCylinder) == hits.nHits
    }
  }

  /** Shared body of GetXZHits, GetYZHits and GetXYZHits: the buffer is
      emptied and refilled with the hits of one type. */
  method CollectKind(source: Hits, buffer: Hits, k: HitType)
    requires source.Valid() && buffer.Valid() && source != buffer
    modifies buffer
    ensures buffer.Valid()
    ensures buffer.HitList() == OfKind(source.HitList(), k)
  {
    ghost var hs := source.HitList();
    buffer.RemoveHits();
    var xs, ys, zs, es, ts, ks := source.x, source.y, source.z, source.energy, source.time, source.kinds;
    assert hs == Zip(xs, ys, zs, es, ts, ks);
    var i := 0;
    while i < source.nHits
      invariant 0 <= i <= |hs|
      invariant buffer.Valid() && buffer.HitList() == OfKind(hs[..i], k)
    {
      CollectStep(hs, xs, ys, zs, es, ts, ks, i, k);
      if ks[i] == k {
        buffer.AddHit(xs[i], ys[i], zs[i], es[i], ts[i], k);
      }
      i := i + 1;
    }
    OfKindWhole(hs, k, buffer.HitList(), i);
  }

  /** One step of the refill: the next hit is appended exactly when it has the type. */
  lemma CollectStep(hs: seq<Hit>, xs: seq<real>, ys: seq<real>, zs: seq<real>, es: seq<real>, ts: seq<real>, ks: seq<HitType>, i: nat, k: HitType)
    requires |ys| == |xs| && |zs| == |xs| && |es| == |xs| && |ts| == |xs| && |ks| == |xs|
    requires hs == Zip(xs, ys, zs, es, ts, ks) && i < |hs|
    ensures OfKind(hs[..i + 1], k) == OfKind(hs[..i], k) + (if ks[i] == k then [Hit(xs[i], ys[i], zs[i], es[i], ts[i], k)] else [])
  {
    OfKindPrefix(hs, i, k);
  }

  lemma OfKindWhole(hs: seq<Hit>, k: HitType, b: seq<Hit>, i: nat)
    requires i == |hs| && b == OfKind(hs[..i], k)
    ensures b == OfKind(hs, k)
  {
    assert hs[..i] == hs;
  }

  /** (Int_t)(n * u) for a draw u in [0, 1). */
  method TruncatedIndex(n: int, u: real) returns (i: int)
    requires n > 0 && 0.0 <= u < 1.0
    ensures 0 <= i < n
    ensures i == (n as real * u).Floor
  {
    var p := n as real * u;
    assert p < n as real by {
      assert n as real * u < n as real * 1.0;
    }
    assert p >= 0.0;
    i := p.Floor;
  }
}
