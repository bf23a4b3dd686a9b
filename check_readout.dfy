/** The readout check macro: a 128-bit mask, split into four 32-bit words,
    selects the channels to test; positions drawn uniformly in a region of
    the readout plane are kept when some module places them on a selected
    channel. */
module CheckReadout {
  import opened Geometry

  /** The test `(0x1 << bit) & word` on one 32-bit mask word. */
  predicate BitSet(word: bv32, bit: nat)
    requires bit < 32
  {
    ((1 as bv32) << bit) & word != 0
  }

  /** Mask position n (0 <= n < 128) is enabled when bit n % 32 of word
      n / 32 is set. */
  predicate Enabled(mask: seq<bv32>, n: nat)
    requires |mask| == 4 && n < 128
  {
    BitSet(mask[n / 32], n % 32)
  }

  /** The channel ids the decoding loop pushes for the mask positions
      0 .. n-1: position k gives channel k + offset. */
  function Selected(mask: seq<bv32>, offset: int, n: nat): (r: seq<int>)
    requires |mask| == 4 && n <= 128
    ensures |r| <= n
    ensures forall k :: 0 <= k < |r| ==> offset <= r[k] < offset + n
  {
    if n == 0 then []
    else Selected(mask, offset, n - 1) + (if Enabled(mask, n - 1) then [n - 1 + offset] else [])
  }

  /** A channel is selected exactly when it lies in the window of the mask
      and the mask bit of its position is set. */
  lemma {:induction false} SelectedMembers(mask: seq<bv32>, offset: int, n: nat, c: int)
    requires |mask| == 4 && n <= 128
    ensures c in Selected(mask, offset, n) <==> offset <= c < offset + n && Enabled(mask, c - offset)
  {
    if n > 0 {
      SelectedMembers(mask, offset, n - 1, c);
    }
  }

  /** The selected channels come out in strictly increasing order. */
  lemma {:induction false} SelectedIncreasing(mask: seq<bv32>, offset: int, n: nat)
    requires |mask| == 4 && n <= 128
    ensures forall i, j :: 0 <= i < j < |Selected(mask, offset, n)| ==>
              Selected(mask, offset, n)[i] < Selected(mask, offset, n)[j]
  {
    if n > 0 {
      SelectedIncreasing(mask, offset, n - 1);
      var prev := Selected(mask, offset, n - 1);
      var r := Selected(mask, offset, n);
      if Enabled(mask, n - 1) {
        assert r == prev + [n - 1 + offset];
      } else {
        assert r == prev;
      }
    }
  }

  /** An empty mask selects no channel. */
  lemma {:induction false} SelectedNone(offset: int, n: nat)
    requires n <= 128
    ensures Selected([0, 0, 0, 0], offset, n) == []
  {
    if n > 0 {
      SelectedNone(offset, n - 1);
    }
  }

  const FullMask: seq<bv32> := [0xFFFF_FFFF, 0xFFFF_FFFF, 0xFFFF_FFFF, 0xFFFF_FFFF]

  /** Every bit of an all-ones word is set. */
  lemma FullWordBit(bit: nat)
    requires bit < 32
    ensures BitSet(0xFFFF_FFFF, bit)
  {
  }

  /** A full mask selects the 128 consecutive channels from the offset. */
  lemma {:induction false} SelectedAll(offset: int, n: nat)
    requires n <= 128
    ensures Selected(FullMask, offset, n) == seq(n, i => offset + i)
  {
    if n > 0 {
      SelectedAll(offset, n - 1);
      FullWordBit((n - 1) % 32);
      assert Enabled(FullMask, n - 1);
      var prev, all := seq(n - 1, i => offset + i), seq(n, i => offset + i);
      assert Selected(FullMask, offset, n) == prev + [n - 1 + offset];
      assert all == prev + [offset + n - 1];
    }
  }

  /** The mask decoding loop of GetHittedStripMap: the 128 mask positions in
      order, each enabled one pushing its channel id. */
  method SelectChannels(mask: array<bv32>, offset: int) returns (channelIds: seq<int>)
    requires mask.Length == 4
    ensures channelIds == Selected(mask[..], offset, 128)
  {
    channelIds := [];
    for n := 0 to 128
      invariant channelIds == Selected(mask[..], offset, n)
    {
      var enabled, channel := TestBit(mask, offset, n);
      SelectedNext(mask[..], offset, n);
      if enabled {
        channelIds := channelIds + [channel];
      }
    }
  }

  /** The loop body for mask position n: the test `(0x1 << bit) & mask[level]`
      on bit n % 32 of word n / 32, and the channel id 32 * level + bit +
      offset it pushes. */
  method TestBit(mask: array<bv32>, offset: int, n: nat) returns (enabled: bool, channel: int)
    requires mask.Length == 4 && n < 128
    ensures enabled == Enabled(mask[..], n)
    ensures channel == n + offset
  {
    var bit := n % 32;
    var level := n / 32;
    var msk: bv32 := (1 as bv32) << bit;
    enabled := msk & mask[level] != 0;
    channel := 32 * level + bit + offset;
    assert mask[..][level] == mask[level];
  }

  /** One more mask position appends its channel when it is enabled. */
  lemma SelectedNext(mask: seq<bv32>, offset: int, n: nat)
    requires |mask| == 4 && n < 128
    ensures Selected(mask, offset, n + 1)
            == Selected(mask, offset, n) + (if Enabled(mask, n) then [n + offset] else [])
  {
  }

  /** The boundaries of a rectangle of the plane. */
  datatype Box = Box(xMin: real, xMax: real, yMin: real, yMax: real)

  predicate Ordered(b: Box) {
    b.xMin <= b.xMax && b.yMin <= b.yMax
  }

  /** The point a fraction r of the way from lo to hi. Both the region
      corners and TRandom::Uniform(lo, hi), given its unit draw r, are this
      map. */
  function Affine(r: real, lo: real, hi: real): real {
    r * (hi - lo) + lo
  }

  /** The map sends 0 to lo and 1 to hi, keeps order, and sends [0, 1] into
      [lo, hi]. */
  lemma AffineBounds(r: real, s: real, lo: real, hi: real)
    requires lo <= hi
    ensures Affine(0.0, lo, hi) == lo && Affine(1.0, lo, hi) == hi
    ensures r <= s ==> Affine(r, lo, hi) <= Affine(s, lo, hi)
    ensures 0.0 <= r <= 1.0 ==> lo <= Affine(r, lo, hi) <= hi
  {
    if r <= s {
      NonNegativeProduct(s - r, hi - lo);
      assert Affine(s, lo, hi) - Affine(r, lo, hi) == (s - r) * (hi - lo);
    }
    if 0.0 <= r <= 1.0 {
      NonNegativeProduct(r, hi - lo);
      NonNegativeProduct(1.0 - r, hi - lo);
      assert hi - Affine(r, lo, hi) == (1.0 - r) * (hi - lo);
    }
  }

  lemma NonNegativeProduct(a: real, b: real)
    requires a >= 0.0 && b >= 0.0
    ensures a * b >= 0.0
  {
  }

  /** The region, given as fractions of the plane's extent in x and y,
      in plane coordinates. */
  function RegionBox(region: seq<real>, plane: Box): Box
    requires |region| == 4
  {
    Box(Affine(region[0], plane.xMin, plane.xMax), Affine(region[1], plane.xMin, plane.xMax),
        Affine(region[2], plane.yMin, plane.yMax), Affine(region[3], plane.yMin, plane.yMax))
  }

  /** The fractions are unit fractions in increasing order. */
  predicate UnitRegion(region: seq<real>)
    requires |region| == 4
  {
    0.0 <= region[0] <= region[1] <= 1.0 && 0.0 <= region[2] <= region[3] <= 1.0
  }

  /** A region of unit fractions in order maps to an ordered box inside the
      plane, and the region (0, 1, 0, 1) to the whole plane. */
  lemma RegionInsidePlane(region: seq<real>, plane: Box)
    requires |region| == 4 && Ordered(plane)
    ensures var b := RegionBox(region, plane);
            UnitRegion(region) ==>
              Ordered(b) && plane.xMin <= b.xMin && b.xMax <= plane.xMax
              && plane.yMin <= b.yMin && b.yMax <= plane.yMax
    ensures region == [0.0, 1.0, 0.0, 1.0] ==> RegionBox(region, plane) == plane
  {
    AffineBounds(region[0], region[1], plane.xMin, plane.xMax);
    AffineBounds(region[1], region[1], plane.xMin, plane.xMax);
    AffineBounds(region[2], region[3], plane.yMin, plane.yMax);
    AffineBounds(region[3], region[3], plane.yMin, plane.yMax);
  }

  /** The two unit draws behind one launched position. */
  datatype Draw = Draw(u: real, v: real)

  predicate UnitDraw(d: Draw) {
    0.0 <= d.u <= 1.0 && 0.0 <= d.v <= 1.0
  }

  /** The position a draw gives inside a box. */
  function Launch(d: Draw, b: Box): Vec2 {
    Vec2(Affine(d.u, b.xMin, b.xMax), Affine(d.v, b.yMin, b.yMax))
  }

  /** A channel found by a module counts when it is a real channel and one
      of the selected ones. */
  predicate Accepts(chFound: int, channelIds: seq<int>) {
    chFound != -1 && chFound in channelIds
  }

  /** The copies of one position that modules 0 .. m-1 keep: one for each
      module that places it on a selected channel. find(mod, pos) is the
      plane's FindChannel. */
  function Kept(pos: Vec2, find: (int, Vec2) -> int, channelIds: seq<int>, m: nat): (r: seq<Vec2>)
    ensures |r| <= m
  {
    if m == 0 then []
    else Kept(pos, find, channelIds, m - 1) + (if Accepts(find(m - 1, pos), channelIds) then [pos] else [])
  }

  /** The positions kept for a sequence of draws, in launch order. */
  function Launched(draws: seq<Draw>, b: Box, nModules: nat, find: (int, Vec2) -> int,
                    channelIds: seq<int>): (r: seq<Vec2>)
  {
    if draws == [] then []
    else Launched(draws[..|draws| - 1], b, nModules, find, channelIds)
         + Kept(Launch(draws[|draws| - 1], b), find, channelIds, nModules)
  }

  /** Every copy kept for a position is that position, and when there is
      one some module places it on a selected channel. */
  lemma {:induction false} KeptAreAccepted(pos: Vec2, find: (int, Vec2) -> int, channelIds: seq<int>, m: nat)
    ensures forall i :: 0 <= i < |Kept(pos, find, channelIds, m)| ==> Kept(pos, find, channelIds, m)[i] == pos
    ensures |Kept(pos, find, channelIds, m)| > 0 ==> exists k :: 0 <= k < m && Accepts(find(k, pos), channelIds)
  {
    if m > 0 {
      KeptAreAccepted(pos, find, channelIds, m - 1);
      var prev := Kept(pos, find, channelIds, m - 1);
      if Accepts(find(m - 1, pos), channelIds) {
        assert Kept(pos, find, channelIds, m) == prev + [pos];
      } else {
        assert Kept(pos, find, channelIds, m) == prev;
      }
    }
  }

  /** At most nModules positions are kept per draw. */
  lemma {:induction false} LaunchedCount(draws: seq<Draw>, b: Box, nModules: nat, find: (int, Vec2) -> int,
                                         channelIds: seq<int>)
    ensures |Launched(draws, b, nModules, find, channelIds)| <= |draws| * nModules
  {
    if draws != [] {
      var init := draws[..|draws| - 1];
      LaunchedCount(init, b, nModules, find, channelIds);
      assert |draws| * nModules == |init| * nModules + nModules by {
        assert |draws| == |init| + 1;
      }
    }
  }

  /** A position lies in the box and some module places it on a selected
      channel. */
  predicate InsideAccepted(p: Vec2, b: Box, nModules: nat, find: (int, Vec2) -> int, channelIds: seq<int>) {
    b.xMin <= p.x <= b.xMax && b.yMin <= p.y <= b.yMax
    && exists k :: 0 <= k < nModules && Accepts(find(k, p), channelIds)
  }

  /** Every kept position lies in the box and sits on a selected channel of
      some module. */
  lemma {:induction false} LaunchedInside(draws: seq<Draw>, b: Box, nModules: nat, find: (int, Vec2) -> int,
                                          channelIds: seq<int>)
    requires Ordered(b) && forall i :: 0 <= i < |draws| ==> UnitDraw(draws[i])
    ensures forall i :: 0 <= i < |Launched(draws, b, nModules, find, channelIds)| ==>
              InsideAccepted(Launched(draws, b, nModules, find, channelIds)[i], b, nModules, find, channelIds)
  {
    if draws != [] {
      var init := draws[..|draws| - 1];
      var d := draws[|draws| - 1];
      LaunchedInside(init, b, nModules, find, channelIds);
      var pos := Launch(d, b);
      KeptAreAccepted(pos, find, channelIds, nModules);
      assert UnitDraw(d);
      AffineBounds(d.u, d.u, b.xMin, b.xMax);
      AffineBounds(d.v, d.v, b.yMin, b.yMax);
      var prev := Launched(init, b, nModules, find, channelIds);
      var kept := Kept(pos, find, channelIds, nModules);
      var r := Launched(draws, b, nModules, find, channelIds);
      assert r == prev + kept;
      forall i | |prev| <= i < |r|
        ensures InsideAccepted(r[i], b, nModules, find, channelIds)
      {
        assert r[i] == kept[i - |prev|] == pos;
      }
    }
  }

  /** With no selected channel nothing is kept. */
  lemma {:induction false} LaunchedNothingSelected(draws: seq<Draw>, b: Box, nModules: nat, find: (int, Vec2) -> int)
    ensures Launched(draws, b, nModules, find, []) == []
  {
    if draws != [] {
      LaunchedNothingSelected(draws[..|draws| - 1], b, nModules, find);
      KeptNothingSelected(Launch(draws[|draws| - 1], b), find, nModules);
    }
  }

  lemma {:induction false} KeptNothingSelected(pos: Vec2, find: (int, Vec2) -> int, m: nat)
    ensures Kept(pos, find, [], m) == []
  {
    if m > 0 {
      KeptNothingSelected(pos, find, m - 1);
    }
  }

  /** The x and the y coordinates of a list of positions. */
  function Xs(ps: seq<Vec2>): (r: seq<real>)
    ensures |r| == |ps|
  {
    seq(|ps|, i requires 0 <= i < |ps| => ps[i].x)
  }

  function Ys(ps: seq<Vec2>): (r: seq<real>)
    ensures |r| == |ps|
  {
    seq(|ps|, i requires 0 <= i < |ps| => ps[i].y)
  }

  lemma CoordinatesConcat(a: seq<Vec2>, b: seq<Vec2>)
    ensures Xs(a + b) == Xs(a) + Xs(b) && Ys(a + b) == Ys(a) + Ys(b)
  {
    assert forall i :: 0 <= i < |a + b| ==> Xs(a + b)[i] == (Xs(a) + Xs(b))[i];
    assert forall i :: 0 <= i < |a + b| ==> Ys(a + b)[i] == (Ys(a) + Ys(b))[i];
  }

  /** The number of positions launched for a requested count N: none when N
      is not positive. */
  function Launches(N: int): nat {
    if N > 0 then N else 0
  }

  /** GetHittedStripMap, returning the coordinates of the graph's points.
      plane is the result of GetBoundaries, nModules the plane's module count,
      find its FindChannel, and draws the unit draws of the random generator.
      Exactly Launches(N) positions are drawn, and the points kept are those
      Launched gives for these draws. */
  method GetHittedStripMap(plane: Box, mask: array<bv32>, region: array<real>, N: int, offset: int,
                           nModules: nat, find: (int, Vec2) -> int, draws: seq<Draw>)
    returns (xPos: seq<real>, yPos: seq<real>)
    requires mask.Length == 4 && region.Length == 4 && N <= |draws|
    ensures var kept := Launched(draws[..Launches(N)], RegionBox(region[..], plane), nModules, find,
                                 Selected(mask[..], offset, 128));
            xPos == Xs(kept) && yPos == Ys(kept)
  {
    var box := Box(Affine(region[0], plane.xMin, plane.xMax), Affine(region[1], plane.xMin, plane.xMax),
                   Affine(region[2], plane.yMin, plane.yMax), Affine(region[3], plane.yMin, plane.yMax));
    assert box == RegionBox(region[..], plane);
    var channelIds := SelectChannels(mask, offset);
    xPos, yPos := [], [];
    var n := N;
    var done := 0;  // the generator's position in draws
    while n > 0
      invariant 0 <= done == Launches(N) - Launches(n) && done <= |draws|
      invariant n <= 0 ==> done == Launches(N)
      invariant xPos == Xs(Launched(draws[..done], box, nModules, find, channelIds))
      invariant yPos == Ys(Launched(draws[..done], box, nModules, find, channelIds))
    {
      var d := draws[done];
      var xR := Affine(d.u, box.xMin, box.xMax);
      var yR := Affine(d.v, box.yMin, box.yMax);
      xPos, yPos := KeepPosition(Vec2(xR, yR), nModules, find, channelIds, xPos, yPos);
      assert draws[..done + 1][..done] == draws[..done];
      CoordinatesConcat(Launched(draws[..done], box, nModules, find, channelIds),
                        Kept(Launch(d, box), find, channelIds, nModules));
      n := n - 1;
      done := done + 1;
    }
  }

  /** The module loop for one launched position: each module that places
      it on a selected channel pushes a copy of it. */
  method KeepPosition(pos: Vec2, nModules: nat, find: (int, Vec2) -> int, channelIds: seq<int>,
                      xIn: seq<real>, yIn: seq<real>)
    returns (xPos: seq<real>, yPos: seq<real>)
    ensures xPos == xIn + Xs(Kept(pos, find, channelIds, nModules))
    ensures yPos == yIn + Ys(Kept(pos, find, channelIds, nModules))
  {
    xPos, yPos := xIn, yIn;
    for mod := 0 to nModules
      invariant xPos == xIn + Xs(Kept(pos, find, channelIds, mod))
      invariant yPos == yIn + Ys(Kept(pos, find, channelIds, mod))
    {
      var chFound := find(mod, pos);
      var kept := Kept(pos, find, channelIds, mod);
      if chFound != -1 && chFound in channelIds {
        CoordinatesConcat(kept, [pos]);
        xPos := xPos + [pos.x];
        yPos := yPos + [pos.y];
      } else {
        assert Kept(pos, find, channelIds, mod + 1) == kept;
      }
    }
  }
}
