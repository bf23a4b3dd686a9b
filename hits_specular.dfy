/** TRestDetectorHitsSpecularProcess: every hit of the input event is
    appended to the process's own output event, mirrored in a plane given by
    a point and a normal. */
module HitsSpecular {
  import opened SeqUtil
  import opened Geometry
  import opened RestHits
  import opened HitsEvents

  /** The normal and the point InitFromConfigFile fall back to. */
  const DefaultNormal: Vec3 := Vec3(0.0, 0.0, 1.0)
  const DefaultPosition: Vec3 := Vec3(0.0, 0.0, 1.0)

  /** TVector3::Unit, given the vector's length: the vector scaled to length
      one, or the vector itself when it is zero. */
  function Unit(v: Vec3, length: real): (u: Vec3)
    requires length >= 0.0 && length * length == Dot3(v, v)
  {
    if length > 0.0 then Scale3(1.0 / length, v) else v
  }

  /** Scaling by k scales the squared length by k * k. */
  lemma ScaledSquare(k: real, v: Vec3)
    ensures Dot3(Scale3(k, v), Scale3(k, v)) == (k * k) * Dot3(v, v)
  {
  }

  /** Reordering a product of four factors. */
  lemma OneSquared(k: real, l: real)
    requires k * l == 1.0
    ensures (k * k) * (l * l) == 1.0
  {
    assert (k * k) * (l * l) == (k * l) * (k * l);
  }

  /** A nonzero vector becomes a unit vector along it; the zero vector stays. */
  lemma UnitIsUnit(v: Vec3, length: real)
    requires length >= 0.0 && length * length == Dot3(v, v)
    ensures length > 0.0 ==> Dot3(Unit(v, length), Unit(v, length)) == 1.0
    ensures length == 0.0 ==> Unit(v, length) == v && Dot3(v, v) == 0.0
  {
    if length > 0.0 {
      var k := 1.0 / length;
      assert k * length == 1.0;
      ScaledSquare(k, v);
      OneSquared(k, length);
    }
  }

  /** One hit mirrored in the plane through c with normal n; energy, time
      and type are kept. */
  function Mirrored(h: Hit, c: Vec3, n: Vec3): Hit {
    var p := Reflect(Vec3(h.x, h.y, h.z), c, n);
    h.(x := p.x, y := p.y, z := p.z)
  }

  /** Every hit mirrored, in order. */
  function Reflected(hs: seq<Hit>, c: Vec3, n: Vec3): (r: seq<Hit>)
    ensures |r| == |hs|
  {
    if hs == [] then [] else Reflected(hs[..|hs| - 1], c, n) + [Mirrored(hs[|hs| - 1], c, n)]
  }

  /** Hit i of the output is the reflection of hit i of the input, with its
      energy, time and type copied. */
  lemma {:induction false} ReflectedAt(hs: seq<Hit>, c: Vec3, n: Vec3, i: nat)
    requires i < |hs|
    ensures var h := Reflected(hs, c, n)[i];
            Vec3(h.x, h.y, h.z) == Reflect(Vec3(hs[i].x, hs[i].y, hs[i].z), c, n)
            && h.energy == hs[i].energy && h.time == hs[i].time && h.kind == hs[i].kind
  {
    if i < |hs| - 1 {
      ReflectedAt(hs[..|hs| - 1], c, n, i);
    }
  }

  /** With a unit normal, mirroring the output again gives the input back. */
  lemma {:induction false} ReflectedTwice(hs: seq<Hit>, c: Vec3, n: Vec3)
    requires Dot3(n, n) == 1.0
    ensures Reflected(Reflected(hs, c, n), c, n) == hs
  {
    if hs != [] {
      var init := hs[..|hs| - 1];
      var h := hs[|hs| - 1];
      ReflectedTwice(init, c, n);
      assert Reflected(hs, c, n)[..|hs| - 1] == Reflected(init, c, n);
      ReflectInvolution(Vec3(h.x, h.y, h.z), c, n);
    }
  }

  /** Hits on the mirror plane stay where they are. */
  lemma {:induction false} ReflectedFixesPlane(hs: seq<Hit>, c: Vec3, n: Vec3)
    requires forall i :: 0 <= i < |hs| ==> Dot3(Sub3(Vec3(hs[i].x, hs[i].y, hs[i].z), c), n) == 0.0
    ensures Reflected(hs, c, n) == hs
  {
    if hs != [] {
      var h := hs[|hs| - 1];
      ReflectedFixesPlane(hs[..|hs| - 1], c, n);
      ReflectFixesPlane(Vec3(h.x, h.y, h.z), c, n);
    }
  }

  /** The energies are those of the input, in the same order. */
  lemma {:induction false} ReflectedEnergies(hs: seq<Hit>, c: Vec3, n: Vec3)
    ensures Energies(Reflected(hs, c, n)) == Energies(hs)
  {
    if hs != [] {
      ReflectedEnergies(hs[..|hs| - 1], c, n);
    }
  }

  class HitsSpecularProcess {
    var normal: Vec3
    var position: Vec3
    const outputEvent: HitsEvent

    /** Initialize, with the header's normal (0, 0, 1) and position at the
        origin. */
    constructor ()
      ensures normal == DefaultNormal && position == Vec3(0.0, 0.0, 0.0)
      ensures fresh(outputEvent) && outputEvent.Valid() && outputEvent.hits.HitList() == []
    {
      normal := DefaultNormal;
      position := Vec3(0.0, 0.0, 0.0);
      outputEvent := new HitsEvent();
    }

    /** InitFromConfigFile: the "normal" and "position" parameters, each
        with its default when not given; the normal is scaled to unit
        length. length is the length of the configured normal. */
    method InitFromConfigFile(givenNormal: Option<Vec3>, givenPosition: Option<Vec3>, length: real)
      requires var n := if givenNormal.Some? then givenNormal.value else DefaultNormal;
               length >= 0.0 && length * length == Dot3(n, n)
      modifies this
      ensures normal == Unit(if givenNormal.Some? then givenNormal.value else DefaultNormal, length)
      ensures position == (if givenPosition.Some? then givenPosition.value else DefaultPosition)
      ensures Dot3(normal, normal) == 1.0 || Dot3(normal, normal) == 0.0
    {
      var n := if givenNormal.Some? then givenNormal.value else DefaultNormal;
      UnitIsUnit(n, length);
      normal := Unit(n, length);
      position := if givenPosition.Some? then givenPosition.value else DefaultPosition;
    }

    /** Appends every input hit, mirrored in the configured plane, to the
        output event, which is returned. */
    method ProcessEvent(input: HitsEvent) returns (output: HitsEvent)
      requires input.hits.Valid() && outputEvent.Valid() && input.hits != outputEvent.hits
      modifies outputEvent.hits
      ensures output == outputEvent && outputEvent.Valid()
      ensures outputEvent.hits.HitList()
              == old(outputEvent.hits.HitList()) + Reflected(input.hits.HitList(), position, normal)
    {
      ghost var hs := input.hits.HitList();
      ghost var before := outputEvent.hits.HitList();
      var hit := 0;
      while hit < input.hits.nHits
        invariant 0 <= hit <= |hs| && input.hits.Valid() && input.hits.HitList() == hs
        invariant outputEvent.Valid()
        invariant outputEvent.hits.HitList() == before + Reflected(hs[..hit], position, normal)
      {
        var p := Vec3(input.hits.x[hit], input.hits.y[hit], input.hits.z[hit]);
        var v := Sub3(p, position);
        var vByN := Dot3(v, normal);
        var reflectionVector := Sub3(v, Scale3(2.0 * vByN, normal));
        p := Add3(position, reflectionVector);
        outputEvent.AddHit(p.x, p.y, p.z, input.hits.energy[hit], input.hits.time[hit], input.hits.kinds[hit]);
        assert hs[..hit + 1][..hit] == hs[..hit];
        hit := hit + 1;
      }
      assert hs[..hit] == hs;
      return outputEvent;
    }
  }
}
