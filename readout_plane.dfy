/** TRestDetectorReadoutPlane: a plane given by its position and normal, a
    drift height above it, and the readout modules it holds by value. */
module ReadoutPlanes {
  import opened SeqUtil
  import opened Geometry
  import opened ReadoutModules

  /** The sentinels GetBoundaries starts from. */
  const Far: real := 1000000000.0

  /** Number of channels over all the modules. */
  function ChannelTotal(ms: seq<ReadoutModule>): nat
    reads ms
  {
    if ms == [] then 0 else ChannelTotal(ms[..|ms| - 1]) + |ms[|ms| - 1].channels|
  }

  lemma ChannelTotalStart(before: seq<ReadoutModule>, ms: seq<ReadoutModule>)
    ensures before + ms[..0] == before
  {
  }

  /** Counting one more module of a plane after the modules before it. */
  lemma ChannelTotalStep(before: seq<ReadoutModule>, ms: seq<ReadoutModule>, m: nat)
    requires m < |ms|
    ensures ChannelTotal(before + ms[..m + 1]) == ChannelTotal(before + ms[..m]) + |ms[m].channels|
  {
    assert (before + ms[..m + 1])[..|before| + m] == before + ms[..m];
  }

  /** A module with no channels adds nothing; so the total is zero exactly
      when every module is empty. */
  lemma {:induction false} ChannelTotalZero(ms: seq<ReadoutModule>)
    ensures ChannelTotal(ms) == 0 <==> forall m :: 0 <= m < |ms| ==> ms[m].channels == []
  {
    if ms != [] {
      var init := ms[..|ms| - 1];
      ChannelTotalZero(init);
      assert forall m :: 0 <= m < |init| ==> init[m] == ms[m];
    }
  }

  /** The module IDs in vector order. */
  function ModuleIds(ms: seq<ReadoutModule>): (r: seq<int>)
    reads ms`moduleId
    ensures |r| == |ms| && forall i :: 0 <= i < |ms| ==> r[i] == ms[i].moduleId
  {
    if ms == [] then [] else ModuleIds(ms[..|ms| - 1]) + [ms[|ms| - 1].moduleId]
  }

  /** The index of the first module containing the point, or -1. */
  function FirstInside(ms: seq<ReadoutModule>, p: Vec2): (k: int)
    reads ms
    ensures -1 <= k < |ms|
    ensures k >= 0 ==> ms[k].IsInside(p) && forall j :: 0 <= j < k ==> !ms[j].IsInside(p)
    ensures k == -1 ==> forall j :: 0 <= j < |ms| ==> !ms[j].IsInside(p)
  {
    if ms == [] then -1
    else
      var k := FirstInside(ms[..|ms| - 1], p);
      if k >= 0 then k else if ms[|ms| - 1].IsInside(p) then |ms| - 1 else -1
  }

  class ReadoutPlane {
    var id: int
    var position: Vec3
    var normal: Vec3
    var chargeCollection: real
    var height: real
    var modules: seq<ReadoutModule>

    constructor ()
      ensures id == -1 && position == Vec3(0.0, 0.0, 0.0) && normal == Vec3(0.0, 0.0, 1.0)
      ensures chargeCollection == 1.0 && height == 0.0 && modules == []
    {
      id := -1;
      position := Vec3(0.0, 0.0, 0.0);
      normal := Vec3(0.0, 0.0, 1.0);
      chargeCollection := 1.0;
      height := 0.0;
      modules := [];
    }

    method SetID(planeId: int)
      modifies this`id
      ensures id == planeId && modules == old(modules) && position == old(position)
      ensures normal == old(normal) && height == old(height)
    {
      id := planeId;
    }

    function GetNumberOfModules(): nat
      reads this
    {
      |modules|
    }

    /** Appends a copy of the module. */
    method AddModule(m: ReadoutModule)
      modifies this`modules
      ensures |modules| == |old(modules)| + 1 && modules[..|old(modules)|] == old(modules)
      ensures fresh(modules[|old(modules)|]) && modules[|old(modules)|].Mirrors(m)
      ensures modules[|old(modules)|].moduleId == m.moduleId
      ensures modules[|old(modules)|].channels == m.channels
      ensures modules[|old(modules)|].minDaqId == m.minDaqId && modules[|old(modules)|].maxDaqId == m.maxDaqId
      ensures id == old(id) && position == old(position) && normal == old(normal) && height == old(height)
    {
      var copy := new ReadoutModule.Copy(m);
      modules := modules + [copy];
    }

    /** The channel count summed over the modules. */
    method GetNumberOfChannels() returns (nChannels: int)
      ensures nChannels == ChannelTotal(modules)
    {
      nChannels := 0;
      var md := 0;
      while md < |modules|
        invariant 0 <= md <= |modules|
        invariant nChannels == ChannelTotal(modules[..md])
      {
        assert modules[..md + 1][..md] == modules[..md];
        nChannels := nChannels + modules[md].GetNumberOfChannels();
        md := md + 1;
      }
      assert modules[..md] == modules;
    }

    /** The first module with the ID, or null. */
    method GetModuleByID(modID: int) returns (m: ReadoutModule?)
      ensures m == null <==> modID !in ModuleIds(modules)
      ensures m != null ==> m == modules[IndexOf(ModuleIds(modules), modID)] && m.moduleId == modID
    {
      ghost var ids := ModuleIds(modules);
      var md := 0;
      while md < |modules|
        invariant 0 <= md <= |modules|
        invariant forall k :: 0 <= k < md ==> ids[k] != modID
      {
        if modules[md].moduleId == modID {
          return modules[md];
        }
        md := md + 1;
      }
      return null;
    }

    /** A negative height is fatal (the height is zeroed before exit(1)). */
    method SetHeight(h: real) returns (status: Status)
      modifies this`height
      ensures status == (if h < 0.0 then Exit(1) else Done)
      ensures height == (if h < 0.0 then 0.0 else h)
      ensures id == old(id) && modules == old(modules) && position == old(position) && normal == old(normal)
    {
      if h < 0.0 {
        height := 0.0;
        return Exit(1);
      }
      height := h;
      return Done;
    }

    /** Some module's DAQ range holds the ID. */
    method IsDaqIDInside(daqId: int) returns (inside: bool)
      ensures inside <==> exists m :: 0 <= m < |modules| && modules[m].IsDaqIdInside(daqId)
    {
      var m := 0;
      while m < |modules|
        invariant 0 <= m <= |modules|
        invariant forall k :: 0 <= k < m ==> !modules[k].IsDaqIdInside(daqId)
      {
        if modules[m].IsDaqIdInside(daqId) {
          return true;
        }
        m := m + 1;
      }
      return false;
    }

    /** Signed distance from the plane along its normal. */
    function GetDistanceTo(pos: Vec3): real
      reads this
    {
      Dot3(Sub3(pos, position), normal)
    }

    /** The position with the plane's x and y offsets removed, as passed to
        GetDistanceTo (which subtracts the whole plane position once more). */
    function Local(pos: Vec3): Vec3
      reads this
    {
      Vec3(pos.x - position.x, pos.y - position.y, pos.z)
    }

    /** 1 when the position is strictly between the plane and the cathode. */
    function IsZInsideDriftVolume(pos: Vec3): (r: int)
      reads this
      ensures r == 0 || r == 1
      ensures r == 1 <==> 0.0 < GetDistanceTo(Local(pos)) < height
    {
      var distance := GetDistanceTo(Local(pos));
      if distance > 0.0 && distance < height then 1 else 0
    }

    /** The ID of the first module holding the position, provided it lies in
        the drift volume; -1 otherwise. */
    method GetModuleIDFromPosition(pos: Vec3) returns (modId: int)
      ensures IsZInsideDriftVolume(pos) == 0 ==> modId == -1
      ensures IsZInsideDriftVolume(pos) == 1 ==>
                var k := FirstInside(modules, Vec2(Local(pos).x, Local(pos).y));
                modId == if k < 0 then -1 else modules[k].moduleId
    {
      var posNew := Local(pos);
      var distance := GetDistanceTo(posNew);
      if distance > 0.0 && distance < height {
        ghost var p := Vec2(posNew.x, posNew.y);
        var m := 0;
        while m < |modules|
          invariant 0 <= m <= |modules|
          invariant forall k :: 0 <= k < m ==> !modules[k].IsInside(p)
        {
          if modules[m].IsInside(Vec2(posNew.x, posNew.y)) {
            assert FirstInside(modules, p) == m;
            return modules[m].moduleId;
          }
          m := m + 1;
        }
        assert FirstInside(modules, p) == -1;
      }
      return -1;
    }

    /** The extremes of the module vertices, each scan starting from the
        sentinels xmin = ymin = 1e9 and xmax = ymax = -1e9. */
    method GetBoundaries() returns (xmin: real, xmax: real, ymin: real, ymax: real)
      ensures xmin == Lowest(AllVertices(modules), X, Far) && xmax == Highest(AllVertices(modules), X, -Far)
      ensures ymin == Lowest(AllVertices(modules), Y, Far) && ymax == Highest(AllVertices(modules), Y, -Far)
    {
      ghost var all := AllVertices(modules);
      AllVerticesLength(modules);
      xmin, xmax, ymin, ymax := Far, -Far, Far, -Far;
      var md := 0;
      while md < |modules|
        invariant 0 <= md <= |modules| && all == AllVertices(modules)
        invariant xmin == Lowest(all[..4 * md], X, Far) && xmax == Highest(all[..4 * md], X, -Far)
        invariant ymin == Lowest(all[..4 * md], Y, Far) && ymax == Highest(all[..4 * md], Y, -Far)
      {
        forall w | 0 <= w < 4
          ensures all[4 * md + w] == modules[md].GetVertex(w)
        {
          AllVerticesIndex(modules, md, w);
        }
        xmin, xmax, ymin, ymax := ScanModule(modules[md], all, 4 * md, xmin, xmax, ymin, ymax);
        md := md + 1;
      }
      assert all[..4 * md] == all;
    }
  }

  /** The inner loop of GetBoundaries: the four vertices of one module update
      the running extremes in turn. */
  method ScanModule(current: ReadoutModule, ghost all: seq<Vec2>, ghost start: nat,
                    xmin0: real, xmax0: real, ymin0: real, ymax0: real)
    returns (xmin: real, xmax: real, ymin: real, ymax: real)
    requires start + 4 <= |all|
    requires forall w :: 0 <= w < 4 ==> all[start + w] == current.GetVertex(w)
    requires xmin0 == Lowest(all[..start], X, Far) && xmax0 == Highest(all[..start], X, -Far)
    requires ymin0 == Lowest(all[..start], Y, Far) && ymax0 == Highest(all[..start], Y, -Far)
    ensures xmin == Lowest(all[..start + 4], X, Far) && xmax == Highest(all[..start + 4], X, -Far)
    ensures ymin == Lowest(all[..start + 4], Y, Far) && ymax == Highest(all[..start + 4], Y, -Far)
  {
    xmin, xmax, ymin, ymax := xmin0, xmax0, ymin0, ymax0;
    var v := 0;
    ghost var n := start;
    while v < 4
      invariant 0 <= v <= 4 && n == start + v
      invariant xmin == Lowest(all[..n], X, Far) && xmax == Highest(all[..n], X, -Far)
      invariant ymin == Lowest(all[..n], Y, Far) && ymax == Highest(all[..n], Y, -Far)
    {
      var vertex := current.GetVertex(v);
      ScanNext(all, n, vertex);
      if vertex.x < xmin {
        xmin := vertex.x;
      }
      if vertex.y < ymin {
        ymin := vertex.y;
      }
      if vertex.x > xmax {
        xmax := vertex.x;
      }
      if vertex.y > ymax {
        ymax := vertex.y;
      }
      v, n := v + 1, n + 1;
    }
  }

  /** One vertex further into the scan, each running extreme takes the next
      coordinate into account. */
  lemma ScanNext(vs: seq<Vec2>, n: nat, c: Vec2)
    requires n < |vs| && vs[n] == c
    ensures Lowest(vs[..n + 1], X, Far) == (if c.x < Lowest(vs[..n], X, Far) then c.x else Lowest(vs[..n], X, Far))
      && Highest(vs[..n + 1], X, -Far) == (if c.x > Highest(vs[..n], X, -Far) then c.x else Highest(vs[..n], X, -Far))
      && Lowest(vs[..n + 1], Y, Far) == (if c.y < Lowest(vs[..n], Y, Far) then c.y else Lowest(vs[..n], Y, Far))
      && Highest(vs[..n + 1], Y, -Far) == (if c.y > Highest(vs[..n], Y, -Far) then c.y else Highest(vs[..n], Y, -Far))
  {
    assert vs[..n + 1][..n] == vs[..n];
  }

  /** The coordinate a scan looks at. */
  datatype Axis = X | Y

  function Coord(v: Vec2, axis: Axis): real {
    if axis == X then v.x else v.y
  }

  /** The four vertices of a module, in GetVertex order. */
  function ModuleVertices(m: ReadoutModule): seq<Vec2>
    reads m
  {
    [m.GetVertex(0), m.GetVertex(1), m.GetVertex(2), m.GetVertex(3)]
  }

  function AllVertices(ms: seq<ReadoutModule>): seq<Vec2>
    reads ms
  {
    if ms == [] then [] else AllVertices(ms[..|ms| - 1]) + ModuleVertices(ms[|ms| - 1])
  }

  /** The running minimum of the scan: a coordinate replaces the current value
      when it is smaller. */
  function Lowest(vs: seq<Vec2>, axis: Axis, start: real): real {
    if vs == [] then start
    else
      var low := Lowest(vs[..|vs| - 1], axis, start);
      if Coord(vs[|vs| - 1], axis) < low then Coord(vs[|vs| - 1], axis) else low
  }

  /** The running maximum of the scan. */
  function Highest(vs: seq<Vec2>, axis: Axis, start: real): real {
    if vs == [] then start
    else
      var high := Highest(vs[..|vs| - 1], axis, start);
      if Coord(vs[|vs| - 1], axis) > high then Coord(vs[|vs| - 1], axis) else high
  }

  /** The scan minimum is at most the sentinel and every coordinate, and is
      the sentinel or one of the coordinates. */
  lemma {:induction false} LowestIsMinimum(vs: seq<Vec2>, axis: Axis, start: real)
    ensures Lowest(vs, axis, start) <= start
    ensures forall i :: 0 <= i < |vs| ==> Lowest(vs, axis, start) <= Coord(vs[i], axis)
    ensures Lowest(vs, axis, start) == start || exists i :: 0 <= i < |vs| && Lowest(vs, axis, start) == Coord(vs[i], axis)
  {
    if vs != [] {
      var init := vs[..|vs| - 1];
      LowestIsMinimum(init, axis, start);
      assert forall i :: 0 <= i < |init| ==> init[i] == vs[i];
    }
  }

  lemma {:induction false} HighestIsMaximum(vs: seq<Vec2>, axis: Axis, start: real)
    ensures Highest(vs, axis, start) >= start
    ensures forall i :: 0 <= i < |vs| ==> Coord(vs[i], axis) <= Highest(vs, axis, start)
    ensures Highest(vs, axis, start) == start || exists i :: 0 <= i < |vs| && Highest(vs, axis, start) == Coord(vs[i], axis)
  {
    if vs != [] {
      var init := vs[..|vs| - 1];
      HighestIsMaximum(init, axis, start);
      assert forall i :: 0 <= i < |init| ==> init[i] == vs[i];
    }
  }

  /** Every vertex of every module is counted: AllVertices holds vertex v of
      module m at position 4m + v. */
  lemma {:induction false} AllVerticesIndex(ms: seq<ReadoutModule>, m: nat, v: nat)
    requires m < |ms| && v < 4
    ensures |AllVertices(ms)| == 4 * |ms|
    ensures AllVertices(ms)[4 * m + v] == ms[m].GetVertex(v)
  {
    var init := ms[..|ms| - 1];
    if m < |ms| - 1 {
      AllVerticesIndex(init, m, v);
    } else {
      AllVerticesLength(init);
    }
  }

  lemma {:induction false} AllVerticesLength(ms: seq<ReadoutModule>)
    ensures |AllVertices(ms)| == 4 * |ms|
  {
    if ms != [] {
      AllVerticesLength(ms[..|ms| - 1]);
    }
  }
}
