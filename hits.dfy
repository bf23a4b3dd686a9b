/** TRestHits: a set of hits kept as parallel vectors (x, y, z, energy, time,
    type) together with the cached hit count fNHits and energy total
    fTotEnergy, updated in place by append, erase, swap and merge. */
module RestHits {
  import opened SeqUtil

  datatype HitType = Unknown | X | Y | Z | XY | XZ | YZ | XYZ | Veto

  /** One hit, read across the parallel vectors at one index. */
  datatype Hit = Hit(x: real, y: real, z: real, energy: real, time: real, kind: HitType)

  /** Energies never increase from one hit to the next. */
  predicate NonIncreasing(s: seq<real>) {
    forall i :: 0 <= i < |s| - 1 ==> s[i + 1] <= s[i]
  }

  /** Adjacent order is the same as order between any two hits. */
  lemma {:induction false} NonIncreasingEverywhere(s: seq<real>, i: nat, j: nat)
    requires NonIncreasing(s)
    requires i <= j < |s|
    ensures s[j] <= s[i]
    decreases j - i
  {
    if i < j {
      NonIncreasingEverywhere(s, i + 1, j);
    }
  }

  function Zip(x: seq<real>, y: seq<real>, z: seq<real>, e: seq<real>, t: seq<real>, k: seq<HitType>): (r: seq<Hit>)
    requires |y| == |x| && |z| == |x| && |e| == |x| && |t| == |x| && |k| == |x|
    ensures |r| == |x|
  {
    seq(|x|, i requires 0 <= i < |x| => Hit(x[i], y[i], z[i], e[i], t[i], k[i]))
  }

  /** Swapping two indices of every vector swaps the two hits. */
  lemma ZipSwapped(x: seq<real>, y: seq<real>, z: seq<real>, e: seq<real>, t: seq<real>, k: seq<HitType>, i: nat, j: nat)
    requires |y| == |x| && |z| == |x| && |e| == |x| && |t| == |x| && |k| == |x|
    requires i < |x| && j < |x|
    ensures Zip(Swapped(x, i, j), Swapped(y, i, j), Swapped(z, i, j), Swapped(e, i, j), Swapped(t, i, j), Swapped(k, i, j))
         == Swapped(Zip(x, y, z, e, t, k), i, j)
  {
  }

  /** Erasing one index of every vector erases that hit. */
  lemma ZipRemoveAt(x: seq<real>, y: seq<real>, z: seq<real>, e: seq<real>, t: seq<real>, k: seq<HitType>, n: nat)
    requires |y| == |x| && |z| == |x| && |e| == |x| && |t| == |x| && |k| == |x|
    requires n < |x|
    ensures Zip(RemoveAt(x, n), RemoveAt(y, n), RemoveAt(z, n), RemoveAt(e, n), RemoveAt(t, n), RemoveAt(k, n))
         == RemoveAt(Zip(x, y, z, e, t, k), n)
  {
  }

  /** Moving the energy of hit m onto hit n and erasing m keeps the total. */
  lemma MergedSum(e: seq<real>, n: nat, m: nat)
    requires n < |e| && m < |e| && n != m
    ensures Sum(RemoveAt(e[n := e[n] + e[m]], m)) == Sum(e)
  {
    var merged := e[n := e[n] + e[m]];
    SumUpdate(e, n, e[n] + e[m]);
    SumRemoveAt(merged, m);
  }

  function Energies(hs: seq<Hit>): (r: seq<real>)
    ensures |r| == |hs| && forall i :: 0 <= i < |hs| ==> r[i] == hs[i].energy
  {
    if hs == [] then [] else Energies(hs[..|hs| - 1]) + [hs[|hs| - 1].energy]
  }

  class Hits {
    var x: seq<real>
    var y: seq<real>
    var z: seq<real>
    var energy: seq<real>
    var time: seq<real>
    var kinds: seq<HitType>
    var nHits: int
    var totEnergy: real

    /** The count and the total energy agree with the vectors. */
    ghost predicate Valid()
      reads this
    {
      nHits == |x| && |y| == |x| && |z| == |x| && |energy| == |x| && |time| == |x| && |kinds| == |x|
      && totEnergy == Sum(energy)
    }

    /** The hits, one record per index. */
    function HitList(): (r: seq<Hit>)
      reads this
      requires Valid()
      ensures |r| == nHits
    {
      Zip(x, y, z, energy, time, kinds)
    }

    constructor ()
      ensures Valid() && nHits == 0 && HitList() == []
    {
      x, y, z, energy, time, kinds := [], [], [], [], [], [];
      nHits, totEnergy := 0, 0.0;
    }

    method AddHit(px: real, py: real, pz: real, en: real, t: real, kind: HitType)
      requires Valid()
      modifies this
      ensures Valid()
      ensures nHits == old(nHits) + 1 && totEnergy == old(totEnergy) + en
      ensures x == old(x) + [px] && y == old(y) + [py] && z == old(z) + [pz]
      ensures energy == old(energy) + [en] && time == old(time) + [t] && kinds == old(kinds) + [kind]
      ensures HitList() == old(HitList()) + [Hit(px, py, pz, en, t, kind)]
    {
      nHits := nHits + 1;
      x, y, z := x + [px], y + [py], z + [pz];
      assert (energy + [en])[..|energy|] == energy;
      energy, time, kinds := energy + [en], time + [t], kinds + [kind];
      totEnergy := totEnergy + en;
    }

    method RemoveHits()
      requires Valid()
      modifies this
      ensures Valid() && nHits == 0 && totEnergy == 0.0 && HitList() == []
    {
      nHits := 0;
      x, y, z, energy, time, kinds := [], [], [], [], [], [];
      totEnergy := 0.0;
    }

    method RemoveHit(n: int)
      requires Valid() && 0 <= n < nHits
      modifies this
      ensures Valid()
      ensures nHits == old(nHits) - 1 && totEnergy == old(totEnergy) - old(energy[n])
      ensures x == RemoveAt(old(x), n) && y == RemoveAt(old(y), n) && z == RemoveAt(old(z), n)
      ensures energy == RemoveAt(old(energy), n) && time == RemoveAt(old(time), n)
      ensures kinds == RemoveAt(old(kinds), n)
      ensures HitList() == RemoveAt(old(HitList()), n)
    {
      SumRemoveAt(energy, n);
      ZipRemoveAt(x, y, z, energy, time, kinds, n);
      nHits := nHits - 1;
      totEnergy := totEnergy - energy[n];
      x, y, z := RemoveAt(x, n), RemoveAt(y, n), RemoveAt(z, n);
      energy, time, kinds := RemoveAt(energy, n), RemoveAt(time, n), RemoveAt(kinds, n);
    }

    method SwapHits(i: int, j: int)
      requires Valid() && 0 <= i < nHits && 0 <= j < nHits
      modifies this
      ensures Valid() && nHits == old(nHits) && totEnergy == old(totEnergy)
      ensures x == Swapped(old(x), i, j) && y == Swapped(old(y), i, j) && z == Swapped(old(z), i, j)
      ensures energy == Swapped(old(energy), i, j) && time == Swapped(old(time), i, j)
      ensures kinds == Swapped(old(kinds), i, j)
      ensures HitList() == Swapped(old(HitList()), i, j)
    {
      SumSwapped(energy, i, j);
      ZipSwapped(x, y, z, energy, time, kinds, i, j);
      x, y, z := Swapped(x, i, j), Swapped(y, i, j), Swapped(z, i, j);
      energy, time, kinds := Swapped(energy, i, j), Swapped(time, i, j), Swapped(kinds, i, j);
    }

    /** The energy-weighted centre of hits n and m. */
    static function Weighted(a: real, ea: real, b: real, eb: real): real
      requires ea + eb != 0.0
    {
      (a * ea + b * eb) / (ea + eb)
    }

    /** Hit n takes the energy-weighted position and the summed energy of hits n
        and m, and hit m is erased; the energy total is left as it was, which is
        still the sum of the energies. */
    method MergeHits(n: int, m: int)
      requires Valid() && 0 <= n < nHits && 0 <= m < nHits && n != m
      requires energy[n] + energy[m] != 0.0
      modifies this
      ensures Valid() && nHits == old(nHits) - 1 && totEnergy == old(totEnergy)
      ensures x == RemoveAt(old(x)[n := Weighted(old(x[n]), old(energy[n]), old(x[m]), old(energy[m]))], m)
      ensures y == RemoveAt(old(y)[n := Weighted(old(y[n]), old(energy[n]), old(y[m]), old(energy[m]))], m)
      ensures z == RemoveAt(old(z)[n := Weighted(old(z[n]), old(energy[n]), old(z[m]), old(energy[m]))], m)
      ensures energy == RemoveAt(old(energy)[n := old(energy[n]) + old(energy[m])], m)
      ensures time == RemoveAt(old(time), m) && kinds == RemoveAt(old(kinds), m)
    {
      var total := energy[n] + energy[m];
      x := x[n := Weighted(x[n], energy[n], x[m], energy[m])];
      y := y[n := Weighted(y[n], energy[n], y[m], energy[m])];
      z := z[n := Weighted(z[n], energy[n], z[m], energy[m])];
      MergedSum(energy, n, m);
      energy := energy[n := total];
      nHits := nHits - 1;
      x, y, z := RemoveAt(x, m), RemoveAt(y, m), RemoveAt(z, m);
      energy, time, kinds := RemoveAt(energy, m), RemoveAt(time, m), RemoveAt(kinds, m);
    }

    method Translate(dx: real, dy: real, dz: real)
      requires Valid()
      modifies this
      ensures Valid() && nHits == old(nHits) && totEnergy == old(totEnergy)
      ensures energy == old(energy) && time == old(time) && kinds == old(kinds)
      ensures |x| == |old(x)| && forall i :: 0 <= i < |x| ==> x[i] == old(x[i]) + dx
      ensures |y| == |old(y)| && forall i :: 0 <= i < |y| ==> y[i] == old(y[i]) + dy
      ensures |z| == |old(z)| && forall i :: 0 <= i < |z| ==> z[i] == old(z[i]) + dz
    {
      var i := 0;
      while i < nHits
        invariant Valid() && 0 <= i <= nHits && nHits == old(nHits) && totEnergy == old(totEnergy)
        invariant energy == old(energy) && time == old(time) && kinds == old(kinds)
        invariant forall k :: 0 <= k < i ==> x[k] == old(x[k]) + dx && y[k] == old(y[k]) + dy && z[k] == old(z[k]) + dz
        invariant forall k :: i <= k < nHits ==> x[k] == old(x[k]) && y[k] == old(y[k]) && z[k] == old(z[k])
      {
        x := x[i := x[i] + dx];
        y := y[i := y[i] + dy];
        z := z[i := z[i] + dz];
        i := i + 1;
      }
    }

    method GetEnergyIntegral() returns (sum: real)
      requires Valid()
      ensures sum == totEnergy
    {
      sum := 0.0;
      var i := 0;
      while i < nHits
        invariant 0 <= i <= nHits && sum == Sum(energy[..i])
      {
        assert energy[..i + 1][..i] == energy[..i];
        sum := sum + energy[i];
        i := i + 1;
      }
      assert energy[..nHits] == energy;
    }

    method GetMaximumHitEnergy() returns (en: real)
      requires Valid()
      ensures en >= 0.0
      ensures forall i :: 0 <= i < nHits ==> energy[i] <= en
      ensures en == 0.0 || exists i :: 0 <= i < nHits && energy[i] == en
    {
      en := 0.0;
      var i := 0;
      while i < nHits
        invariant 0 <= i <= nHits && en >= 0.0
        invariant forall k :: 0 <= k < i ==> energy[k] <= en
        invariant en == 0.0 || exists k :: 0 <= k < i && energy[k] == en
      {
        if energy[i] > en {
          en := energy[i];
        }
        i := i + 1;
      }
    }

    method IsSortedByEnergy() returns (sorted: bool)
      requires Valid()
      ensures sorted <==> NonIncreasing(energy)
    {
      var i := 0;
      while i < nHits - 1
        invariant 0 <= i <= if nHits > 0 then nHits - 1 else 0
        invariant forall k :: 0 <= k < i ==> energy[k + 1] <= energy[k]
      {
        if energy[i + 1] > energy[i] {
          return false;
        }
        i := i + 1;
      }
      return true;
    }

    /** Squared distance between hits n and m. */
    function GetDistance2(n: int, m: int): (d: real)
      reads this
      requires Valid() && 0 <= n < nHits && 0 <= m < nHits
      ensures d >= 0.0
      ensures x[n] == x[m] && y[n] == y[m] && z[n] == z[m] ==> d == 0.0
    {
      SumOfSquares(x[n] - x[m], y[n] - y[m], z[n] - z[m])
    }
  }

  function Square(v: real): (r: real)
    ensures r >= 0.0
  {
    if v < 0.0 then
      assert v * v == (-v) * (-v);
      v * v
    else v * v
  }

  function SumOfSquares(a: real, b: real, c: real): (r: real)
    ensures r >= 0.0
  {
    Square(a) + Square(b) + Square(c)
  }
}
