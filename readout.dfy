/** TRestDetectorReadout: the readout planes of a detector, each holding its
    modules, together with the module definitions the planes are assembled
    from. */
module Readouts {
  import opened SeqUtil
  import opened Geometry
  import opened ReadoutModules
  import opened ReadoutPlanes

  /** One plane's modules, each tagged with the plane's ID. */
  function Tag(planeId: int, ms: seq<ReadoutModule>): (r: seq<(int, ReadoutModule)>)
    ensures |r| == |ms| && forall j :: 0 <= j < |ms| ==> r[j] == (planeId, ms[j])
  {
    seq(|ms|, j requires 0 <= j < |ms| => (planeId, ms[j]))
  }

  /** Every module of every plane, plane after plane and in module order
      within a plane (the order of the nested plane/module loops), tagged with
      the ID of its plane. */
  function Entries(ps: seq<ReadoutPlane>): seq<(int, ReadoutModule)>
    reads ps
  {
    if ps == [] then [] else Entries(ps[..|ps| - 1]) + Tag(ps[|ps| - 1].id, ps[|ps| - 1].modules)
  }

  /** The modules of a list of entries. */
  function Members(es: seq<(int, ReadoutModule)>): (r: seq<ReadoutModule>)
    ensures |r| == |es| && forall k :: 0 <= k < |es| ==> r[k] == es[k].1
  {
    seq(|es|, k requires 0 <= k < |es| => es[k].1)
  }

  /** The number of modules, summed plane by plane. */
  function ModuleTotal(ps: seq<ReadoutPlane>): nat
    reads ps
  {
    if ps == [] then 0 else ModuleTotal(ps[..|ps| - 1]) + |ps[|ps| - 1].modules|
  }

  /** The per-plane module counts add up to the number of listed modules. */
  lemma {:induction false} EntriesCount(ps: seq<ReadoutPlane>)
    ensures |Entries(ps)| == ModuleTotal(ps)
  {
    if ps != [] {
      EntriesCount(ps[..|ps| - 1]);
    }
  }

  lemma EntriesAppend(ps: seq<ReadoutPlane>, p: ReadoutPlane)
    ensures Entries(ps + [p]) == Entries(ps) + Tag(p.id, p.modules)
  {
    assert (ps + [p])[..|ps|] == ps;
  }

  /** The modules of the first k planes come first. */
  lemma {:induction false} EntriesPrefix(ps: seq<ReadoutPlane>, k: nat)
    requires k <= |ps|
    ensures |Entries(ps[..k])| <= |Entries(ps)|
    ensures Entries(ps)[..|Entries(ps[..k])|] == Entries(ps[..k])
  {
    if k < |ps| {
      var init := ps[..|ps| - 1];
      EntriesPrefix(init, k);
      assert init[..k] == ps[..k];
    } else {
      assert ps[..k] == ps;
    }
  }

  /** The module IDs of the first p + 1 planes: those of the first p, then
      plane p's. */
  lemma ModuleIdsStep(ps: seq<ReadoutPlane>, p: nat)
    requires p < |ps|
    ensures ModuleIds(Members(Entries(ps[..p + 1]))) == ModuleIds(Members(Entries(ps[..p]))) + ModuleIds(ps[p].modules)
  {
    assert ps[..p + 1][..p] == ps[..p];
    var before, tags := Entries(ps[..p]), Tag(ps[p].id, ps[p].modules);
    assert Members(before + tags) == Members(before) + ps[p].modules;
    var a, b := Members(before), ps[p].modules;
    assert ModuleIds(a + b) == ModuleIds(a) + ModuleIds(b);
  }

  /** No module of the first p + 1 planes carries the ID when none of the
      first p planes' does and none of plane p's. */
  lemma AbsentStep(ps: seq<ReadoutPlane>, p: nat, modId: int)
    requires p < |ps| && modId !in ModuleIds(Members(Entries(ps[..p])))
    requires forall j :: 0 <= j < |ps[p].modules| ==> ps[p].modules[j].moduleId != modId
    ensures modId !in ModuleIds(Members(Entries(ps[..p + 1])))
  {
    ModuleIdsStep(ps, p);
  }

  /** The first module carrying the ID, in plane/module order, is module m
      of plane p when no module before it carries the ID. */
  lemma ModuleFound(ps: seq<ReadoutPlane>, p: nat, m: nat, modId: int)
    requires p < |ps| && m < |ps[p].modules| && ps[p].modules[m].moduleId == modId
    requires modId !in ModuleIds(Members(Entries(ps[..p])))
    requires forall j :: 0 <= j < m ==> ps[p].modules[j].moduleId != modId
    ensures modId in ModuleIds(Members(Entries(ps)))
    ensures Members(Entries(ps))[IndexOf(ModuleIds(Members(Entries(ps))), modId)] == ps[p].modules[m]
  {
    var ids := ModuleIds(Members(Entries(ps)));
    var n := |Entries(ps[..p])|;
    EntryAt(ps, p, m);
    forall k | 0 <= k < n + m
      ensures ids[k] != modId
    {
      if k < n {
        EntriesPrefix(ps, p);
        assert Entries(ps)[k] == Entries(ps[..p])[k];
        assert ModuleIds(Members(Entries(ps[..p])))[k] == ids[k];
      } else {
        EntryAt(ps, p, k - n);
      }
    }
    IndexOfAt(ids, n + m, modId);
  }

  /** Module m of plane p sits right after the modules of the planes before
      it. */
  lemma EntryAt(ps: seq<ReadoutPlane>, p: nat, m: nat)
    requires p < |ps| && m < |ps[p].modules|
    ensures |Entries(ps[..p])| + m < |Entries(ps)|
    ensures Entries(ps)[|Entries(ps[..p])| + m] == (ps[p].id, ps[p].modules[m])
  {
    var before := Entries(ps[..p]);
    assert ps[..p + 1][..p] == ps[..p];
    assert Entries(ps[..p + 1]) == before + Tag(ps[p].id, ps[p].modules);
    EntriesPrefix(ps, p + 1);
    assert Entries(ps)[|before| + m] == Entries(ps[..p + 1])[|before| + m];
  }

  lemma {:induction false} ChannelTotalConcat(a: seq<ReadoutModule>, b: seq<ReadoutModule>)
    ensures ChannelTotal(a + b) == ChannelTotal(a) + ChannelTotal(b)
  {
    if b == [] {
      assert a + b == a;
    } else {
      var init := b[..|b| - 1];
      ChannelTotalConcat(a, init);
      assert (a + b)[..|a + b| - 1] == a + init;
    }
  }

  /** Adding a plane adds its modules to the module count and their channels
      to the channel count. */
  lemma AddedPlaneCounts(ps: seq<ReadoutPlane>, p: ReadoutPlane)
    ensures ModuleTotal(ps + [p]) == ModuleTotal(ps) + |p.modules|
    ensures ChannelTotal(Members(Entries(ps + [p]))) == ChannelTotal(Members(Entries(ps))) + ChannelTotal(p.modules)
  {
    assert (ps + [p])[..|ps|] == ps;
    EntriesAppend(ps, p);
    assert Members(Entries(ps + [p])) == Members(Entries(ps)) + Members(Tag(p.id, p.modules));
    assert Members(Tag(p.id, p.modules)) == p.modules;
    ChannelTotalConcat(Members(Entries(ps)), p.modules);
  }

  /** The inner loop of Readout.GetNumberOfChannels: the channels of each
      module of one plane are added to the running count. */
  method AddPlaneChannels(plane: ReadoutPlane, ghost before: seq<ReadoutModule>, start: int) returns (channels: int)
    requires start == ChannelTotal(before)
    ensures channels == ChannelTotal(before + plane.modules)
  {
    channels := start;
    ChannelTotalStart(before, plane.modules);
    var m := 0;
    while m < |plane.modules|
      invariant 0 <= m <= |plane.modules|
      invariant channels == ChannelTotal(before + plane.modules[..m])
    {
      ChannelTotalStep(before, plane.modules, m);
      channels := channels + plane.modules[m].GetNumberOfChannels();
      m := m + 1;
    }
    assert plane.modules[..m] == plane.modules;
  }

  lemma ChannelsThroughPlane(ps: seq<ReadoutPlane>, p: nat)
    requires p < |ps|
    ensures ChannelTotal(Members(Entries(ps[..p + 1]))) == ChannelTotal(Members(Entries(ps[..p])) + ps[p].modules)
  {
    assert ps[..p + 1] == ps[..p] + [ps[p]];
    AddedPlaneCounts(ps[..p], ps[p]);
    ChannelTotalConcat(Members(Entries(ps[..p])), ps[p].modules);
  }

  /** The names of the module definitions, in order. */
  function Names(ms: seq<ReadoutModule>): (r: seq<string>)
    reads ms
    ensures |r| == |ms| && forall i :: 0 <= i < |ms| ==> r[i] == ms[i].name
  {
    if ms == [] then [] else Names(ms[..|ms| - 1]) + [ms[|ms| - 1].name]
  }

  /** The plane IDs, in order. */
  function PlaneIds(ps: seq<ReadoutPlane>): (r: seq<int>)
    reads ps
    ensures |r| == |ps| && forall i :: 0 <= i < |ps| ==> r[i] == ps[i].id
  {
    if ps == [] then [] else PlaneIds(ps[..|ps| - 1]) + [ps[|ps| - 1].id]
  }

  /** The (plane ID, module ID, channel index) GetPlaneModuleChannel leaves
      after scanning the entries: every module whose DAQ range holds the ID
      overwrites all three, so the last one wins; with none the values passed
      in are kept. */
  function Located(es: seq<(int, ReadoutModule)>, daqId: int, init: (int, int, int)): (int, int, int)
    reads set e | e in es :: e.1
  {
    if es == [] then init
    else
      var prev := Located(es[..|es| - 1], daqId, init);
      var e := es[|es| - 1];
      if e.1.IsDaqIdInside(daqId) then (e.0, e.1.moduleId, IndexOf(DaqIds(e.1.channels), daqId)) else prev
  }

  /** Scanning one more entry of the plane being scanned. */
  lemma LocatedStep(before: seq<(int, ReadoutModule)>, tags: seq<(int, ReadoutModule)>, daqId: int, init: (int, int, int), m: nat)
    requires m < |tags|
    ensures Located(before + tags[..m + 1], daqId, init) ==
      if tags[m].1.IsDaqIdInside(daqId) then (tags[m].0, tags[m].1.moduleId, IndexOf(DaqIds(tags[m].1.channels), daqId))
      else Located(before + tags[..m], daqId, init)
  {
    assert (before + tags[..m + 1])[..|before| + m] == before + tags[..m];
  }

  /** No module holding the ID: the outputs are untouched. */
  lemma {:induction false} LocatedNone(es: seq<(int, ReadoutModule)>, daqId: int, init: (int, int, int))
    requires forall k :: 0 <= k < |es| ==> !es[k].1.IsDaqIdInside(daqId)
    ensures Located(es, daqId, init) == init
  {
    if es != [] {
      LocatedNone(es[..|es| - 1], daqId, init);
    }
  }

  /** The last module holding the ID gives the outputs. */
  lemma {:induction false} LocatedLast(es: seq<(int, ReadoutModule)>, daqId: int, init: (int, int, int), k: nat)
    requires k < |es| && es[k].1.IsDaqIdInside(daqId)
    requires forall j :: k < j < |es| ==> !es[j].1.IsDaqIdInside(daqId)
    ensures Located(es, daqId, init) == (es[k].0, es[k].1.moduleId, IndexOf(DaqIds(es[k].1.channels), daqId))
  {
    if k < |es| - 1 {
      LocatedLast(es[..|es| - 1], daqId, init, k);
    }
  }


  /** A pixel of a channel definition with the ID written next to it (-1 when
      none is written). */
  datatype PixelDef = PixelDef(pixel: Pixel, id: int)

  /** A channel definition: its written ID (-1 when none) and its pixels. */
  datatype ChannelDef = ChannelDef(id: int, pixels: seq<PixelDef>)

  function PixelsOf(ds: seq<PixelDef>): (r: seq<Pixel>)
    ensures |r| == |ds| && forall i :: 0 <= i < |ds| ==> r[i] == ds[i].pixel
  {
    seq(|ds|, i requires 0 <= i < |ds| => ds[i].pixel)
  }

  function PixelIdsOf(ds: seq<PixelDef>): (r: seq<int>)
    ensures |r| == |ds| && forall i :: 0 <= i < |ds| ==> r[i] == ds[i].id
  {
    seq(|ds|, i requires 0 <= i < |ds| => ds[i].id)
  }

  function ChannelIdsOf(ds: seq<ChannelDef>): (r: seq<int>)
    ensures |r| == |ds| && forall i :: 0 <= i < |ds| ==> r[i] == ds[i].id
  {
    seq(|ds|, i requires 0 <= i < |ds| => ds[i].id)
  }

  /** The IDs that were written, in definition order: an ID of -1 is not
      pushed. */
  function GivenIds(defIds: seq<int>): (r: seq<int>)
    ensures |r| <= |defIds|
    ensures forall i :: 0 <= i < |r| ==> r[i] != -1
  {
    if defIds == [] then []
    else GivenIds(defIds[..|defIds| - 1]) + (if defIds[|defIds| - 1] != -1 then [defIds[|defIds| - 1]] else [])
  }

  /** As many IDs as definitions means every definition wrote its ID. */
  lemma {:induction false} GivenIdsAll(defIds: seq<int>)
    requires |GivenIds(defIds)| == |defIds|
    ensures GivenIds(defIds) == defIds
  {
    if defIds != [] {
      var init := defIds[..|defIds| - 1];
      assert |GivenIds(init)| <= |init|;
      GivenIdsAll(init);
      assert defIds == init + [defIds[|defIds| - 1]];
    }
  }

  /** The elements taken in increasing ID order, i = 0, 1, ..., n - 1: for each
      ID the first element carrying it, and nothing for an ID no element
      carries. */
  function ById<T>(items: seq<T>, ids: seq<int>, n: nat): (r: seq<T>)
    requires |ids| == |items|
    ensures |r| <= n
  {
    if n == 0 then []
    else ById(items, ids, n - 1) + (if n - 1 in ids then [items[IndexOf(ids, n - 1)]] else [])
  }

  /** Nothing falls short exactly when every ID below n is carried. */
  lemma {:induction false} ByIdComplete<T>(items: seq<T>, ids: seq<int>, n: nat)
    requires |ids| == |items|
    ensures |ById(items, ids, n)| == n <==> forall i :: 0 <= i < n ==> i in ids
  {
    if n > 0 {
      ByIdComplete(items, ids, n - 1);
      assert |ById(items, ids, n - 1)| <= n - 1;
    }
  }

  /** When every ID below n is carried, position i holds the element with ID i. */
  lemma {:induction false} ByIdPositions<T>(items: seq<T>, ids: seq<int>, n: nat)
    requires |ids| == |items|
    requires forall i :: 0 <= i < n ==> i in ids
    ensures |ById(items, ids, n)| == n
    ensures forall i :: 0 <= i < n ==> ById(items, ids, n)[i] == items[IndexOf(ids, i)] && ids[IndexOf(ids, i)] == i
  {
    ByIdComplete(items, ids, n);
    if n > 0 {
      ByIdPositions(items, ids, n - 1);
    }
  }

  /** The outcome of putting definitions in ID order, as ParseModuleDefinition
      does for the pixels of a channel and for the channels of a module: with
      some but not all IDs written, or with IDs that leave a gap below the
      element count, the definition is refused with exit(0); with no ID
      written the definition order is kept. */
  function Arranged<T>(items: seq<T>, defIds: seq<int>): (Status, seq<T>)
    requires |defIds| == |items|
  {
    var ids := GivenIds(defIds);
    if ids == [] then (Done, items)
    else if |ids| != |items| then (Exit(0), [])
    else
      var ordered := ById(items, ids, |items|);
      (if |ordered| == |items| then Done else Exit(0), ordered)
  }

  /** The arrangement is accepted exactly when no ID is written, or every
      element wrote one and the IDs cover 0 .. n - 1; then position i holds
      the element written with ID i. */
  lemma ArrangedByIds<T>(items: seq<T>, defIds: seq<int>)
    requires |defIds| == |items|
    ensures Arranged(items, defIds).0 in {Done, Exit(0)}
    ensures Arranged(items, defIds).0 == Done <==>
              GivenIds(defIds) == []
              || (|GivenIds(defIds)| == |items| && forall i :: 0 <= i < |items| ==> i in defIds)
    ensures GivenIds(defIds) == [] ==> Arranged(items, defIds).1 == items
    ensures Arranged(items, defIds).0 == Done && GivenIds(defIds) != [] ==>
              |Arranged(items, defIds).1| == |items|
              && forall i :: 0 <= i < |items| ==>
                   defIds[IndexOf(defIds, i)] == i && Arranged(items, defIds).1[i] == items[IndexOf(defIds, i)]
  {
    var ids := GivenIds(defIds);
    if ids != [] && |ids| == |items| {
      GivenIdsAll(defIds);
      ByIdComplete(items, ids, |items|);
      if forall i :: 0 <= i < |items| ==> i in ids {
        ByIdPositions(items, ids, |items|);
      }
    }
  }

  /** The guard in front of each ordering loop, as written: the number of
      written IDs must be zero or the number of elements. */
  predicate IdCountAccepted(nIds: nat, n: nat) {
    !(nIds > 0 && nIds != n)
  }

  /** The ordering loop as written reads ids[j] for every j below the number of
      elements, whether or not any ID was written. */
  predicate OrderingReadsInside(nIds: nat, n: nat) {
    n <= nIds
  }

  /** With elements but no written ID the guard lets the definition through,
      and the ordering loop then reads past the end of the empty ID vector. */
  lemma GuardAdmitsUnreadableIds(n: nat)
    requires n > 0
    ensures IdCountAccepted(0, n) && !OrderingReadsInside(0, n)
  {
  }

  /** The first DAQ channel of a placed module: -1 stands for the running count
      of channels placed before it. */
  function FirstDaq(given: int, addedChannels: int): int {
    if given == -1 then addedChannels else given
  }


  /** The channels of a module definition in definition order, each with DAQ
      ID -1, readout ID -1 and its pixels in pixel-ID order; None when the
      pixels of some channel are refused. */
  function BuiltChannels(defs: seq<ChannelDef>): (r: Option<seq<Channel>>)
    ensures r.Some? ==> |r.value| == |defs|
  {
    if defs == [] then Some([])
    else
      var prev := BuiltChannels(defs[..|defs| - 1]);
      var d := defs[|defs| - 1];
      var arranged := Arranged(PixelsOf(d.pixels), PixelIdsOf(d.pixels));
      if prev.None? || arranged.0 != Done then None else Some(prev.value + [Channel(-1, -1, arranged.1)])
  }

  /** The first loop of ParseModuleDefinition: each channel definition's
      pixels are ordered by their IDs, and the first refusal stops the loop. */
  method BuildChannelVector(defs: seq<ChannelDef>) returns (built: Option<seq<Channel>>)
    ensures built == BuiltChannels(defs)
  {
    var channelVector: seq<Channel> := [];
    var c := 0;
    while c < |defs|
      invariant 0 <= c <= |defs| && BuiltChannels(defs[..c]) == Some(channelVector)
    {
      assert defs[..c + 1][..c] == defs[..c];
      var pixelStatus, pixels := Arrange(PixelsOf(defs[c].pixels), PixelIdsOf(defs[c].pixels));
      if pixelStatus != Done {
        BuiltChannelsRefused(defs, c + 1);
        return None;
      }
      channelVector := channelVector + [Channel(-1, -1, pixels)];
      c := c + 1;
    }
    assert defs[..c] == defs;
    return Some(channelVector);
  }

  /** The second loop of ParseModuleDefinition: the ordered channels are
      appended to the definition one by one. */
  method AddChannels(definition: ReadoutModule, ordered: seq<Channel>)
    modifies definition`channels
    ensures definition.channels == old(definition.channels) + ordered
    ensures definition.name == old(definition.name) && definition.size == old(definition.size)
    ensures definition.tolerance == old(definition.tolerance)
  {
    var k := 0;
    while k < |ordered|
      invariant 0 <= k <= |ordered| && definition.channels == old(definition.channels) + ordered[..k]
      invariant definition.name == old(definition.name) && definition.size == old(definition.size)
      invariant definition.tolerance == old(definition.tolerance)
    {
      definition.AddChannel(ordered[k]);
      assert ordered[..k + 1] == ordered[..k] + [ordered[k]];
      k := k + 1;
    }
    assert ordered[..k] == ordered;
  }

  /** A refused channel refuses the whole definition. */
  lemma {:induction false} BuiltChannelsRefused(defs: seq<ChannelDef>, c: nat)
    requires c <= |defs| && BuiltChannels(defs[..c]).None?
    ensures BuiltChannels(defs).None?
  {
    if c < |defs| {
      var init := defs[..|defs| - 1];
      assert init[..c] == defs[..c];
      BuiltChannelsRefused(init, c);
    } else {
      assert defs[..c] == defs;
    }
  }

  /** Channel c of the built channels carries the pixels of definition c. */
  lemma {:induction false} BuiltChannelsPixels(defs: seq<ChannelDef>, c: nat)
    requires BuiltChannels(defs).Some? && c < |defs|
    ensures Arranged(PixelsOf(defs[c].pixels), PixelIdsOf(defs[c].pixels)).0 == Done
    ensures BuiltChannels(defs).value[c] == Channel(-1, -1, Arranged(PixelsOf(defs[c].pixels), PixelIdsOf(defs[c].pixels)).1)
  {
    var init := defs[..|defs| - 1];
    if c < |init| {
      BuiltChannelsPixels(init, c);
    }
  }

  /** The guard and the ordering loop of ParseModuleDefinition, for either
      pixels or channels. With no ID written the definition order is kept. */
  method Arrange<T>(items: seq<T>, defIds: seq<int>) returns (status: Status, ordered: seq<T>)
    requires |defIds| == |items|
    ensures (status, ordered) == Arranged(items, defIds)
  {
    var ids := GivenIds(defIds);
    if |ids| > 0 && |ids| != |items| {
      return Exit(0), [];
    }
    if ids == [] {
      return Done, items;
    }
    ordered := [];
    var i := 0;
    while i < |items|
      invariant 0 <= i <= |items| && ordered == ById(items, ids, i)
    {
      var j := 0;
      while j < |items|
        invariant 0 <= j <= |items|
        invariant forall k :: 0 <= k < j ==> ids[k] != i
      {
        if ids[j] == i {
          IndexOfAt(ids, j, i);
          ordered := ordered + [items[j]];
          break;
        }
        j := j + 1;
      }
      i := i + 1;
    }
    status := if |ordered| == |items| then Done else Exit(0);
  }

  class Readout {
    var planes: seq<ReadoutPlane>
    var nPlanes: int
    var decoding: bool
    var moduleDefinitions: seq<ReadoutModule>

    /** The plane counter fNReadoutPlanes agrees with the plane vector. */
    ghost predicate Valid()
      reads this
    {
      nPlanes == |planes|
    }

    constructor ()
      ensures Valid() && planes == [] && !decoding && moduleDefinitions == []
    {
      planes, nPlanes, decoding, moduleDefinitions := [], 0, false, [];
    }

    /** Clears the planes and the decoding flag; the module definitions stay. */
    method Initialize()
      modifies this
      ensures Valid() && planes == [] && !decoding && moduleDefinitions == old(moduleDefinitions)
    {
      decoding := false;
      nPlanes := 0;
      planes := [];
    }

    function GetNumberOfReadoutPlanes(): nat
      reads this
    {
      |planes|
    }

    method GetNumberOfModules() returns (modules: int)
      ensures modules == ModuleTotal(planes) == |Entries(planes)|
    {
      modules := 0;
      var p := 0;
      while p < |planes|
        invariant 0 <= p <= |planes|
        invariant modules == ModuleTotal(planes[..p])
      {
        assert planes[..p + 1][..p] == planes[..p];
        modules := modules + planes[p].GetNumberOfModules();
        p := p + 1;
      }
      assert planes[..p] == planes;
      EntriesCount(planes);
    }

    method GetNumberOfChannels() returns (channels: int)
      ensures channels == ChannelTotal(Members(Entries(planes)))
    {
      channels := 0;
      var p := 0;
      while p < |planes|
        invariant 0 <= p <= |planes|
        invariant channels == ChannelTotal(Members(Entries(planes[..p])))
      {
        channels := AddPlaneChannels(planes[p], Members(Entries(planes[..p])), channels);
        ChannelsThroughPlane(planes, p);
        p := p + 1;
      }
      assert planes[..p] == planes;
    }

    method GetModuleDefinitionId(name: string) returns (index: int)
      ensures index == IndexOf(Names(moduleDefinitions), name)
    {
      ghost var names := Names(moduleDefinitions);
      var i := 0;
      while i < |moduleDefinitions|
        invariant 0 <= i <= |moduleDefinitions|
        invariant forall k :: 0 <= k < i ==> names[k] != name
      {
        if moduleDefinitions[i].name == name {
          IndexOfAt(names, i, name);
          return i;
        }
        i := i + 1;
      }
      return -1;
    }

    /** The first plane with the ID, or null. */
    method GetReadoutPlaneWithID(planeId: int) returns (plane: ReadoutPlane?)
      ensures plane == null <==> planeId !in PlaneIds(planes)
      ensures plane != null ==> plane == planes[IndexOf(PlaneIds(planes), planeId)] && plane.id == planeId
    {
      ghost var ids := PlaneIds(planes);
      var i := 0;
      while i < |planes|
        invariant 0 <= i <= |planes|
        invariant forall k :: 0 <= k < i ==> ids[k] != planeId
      {
        if planes[i].id == planeId {
          IndexOfAt(ids, i, planeId);
          return planes[i];
        }
        i := i + 1;
      }
      return null;
    }

    /** The first module with the ID, searching plane after plane, or null. */
    method GetReadoutModuleWithID(modId: int) returns (found: ReadoutModule?)
      ensures found == null <==> modId !in ModuleIds(Members(Entries(planes)))
      ensures found != null ==>
                found == Members(Entries(planes))[IndexOf(ModuleIds(Members(Entries(planes))), modId)]
                && found.moduleId == modId
    {
      var p := 0;
      assert planes[..0] == [];
      while p < |planes|
        invariant 0 <= p <= |planes|
        invariant modId !in ModuleIds(Members(Entries(planes[..p])))
      {
        var plane := planes[p];
        var m := 0;
        while m < |plane.modules|
          invariant 0 <= m <= |plane.modules|
          invariant forall j :: 0 <= j < m ==> plane.modules[j].moduleId != modId
        {
          if plane.modules[m].moduleId == modId {
            ModuleFound(planes, p, m, modId);
            return plane.modules[m];
          }
          m := m + 1;
        }
        AbsentStep(planes, p, modId);
        p := p + 1;
      }
      assert planes[..p] == planes;
      return null;
    }

    /** The plane at index p, or null past the counted planes. */
    method GetReadoutPlane(p: int) returns (plane: ReadoutPlane?)
      requires Valid() && 0 <= p
      ensures plane == null <==> p >= nPlanes
      ensures plane != null ==> plane == planes[p]
    {
      if p < nPlanes {
        return planes[p];
      }
      return null;
    }

    method AddReadoutPlane(plane: ReadoutPlane)
      requires Valid()
      modifies this
      ensures Valid() && planes == old(planes) + [plane] && nPlanes == old(nPlanes) + 1
      ensures decoding == old(decoding) && moduleDefinitions == old(moduleDefinitions)
    {
      planes := planes + [plane];
      nPlanes := nPlanes + 1;
    }

    /** The plane ID, module ID and channel index of a DAQ ID; the module whose
        DAQ range holds it last in plane/module order decides, and the values
        passed in come back when no module does. */
    method GetPlaneModuleChannel(daqId: int, planeId: int, moduleId: int, channelId: int)
      returns (planeOut: int, moduleOut: int, channelOut: int)
      ensures (planeOut, moduleOut, channelOut) == Located(Entries(planes), daqId, (planeId, moduleId, channelId))
    {
      ghost var init := (planeId, moduleId, channelId);
      planeOut, moduleOut, channelOut := planeId, moduleId, channelId;
      var p := 0;
      while p < |planes|
        invariant 0 <= p <= |planes|
        invariant (planeOut, moduleOut, channelOut) == Located(Entries(planes[..p]), daqId, init)
      {
        var plane := planes[p];
        ghost var before := Entries(planes[..p]);
        ghost var tags := Tag(plane.id, plane.modules);
        assert before + tags[..0] == before;
        assert planes[..p + 1][..p] == planes[..p];
        var m := 0;
        while m < |plane.modules|
          invariant 0 <= m <= |plane.modules|
          invariant Entries(planes[..p + 1]) == before + tags
          invariant (planeOut, moduleOut, channelOut) == Located(before + tags[..m], daqId, init)
        {
          var current := plane.modules[m];
          LocatedStep(before, tags, daqId, init, m);
          if current.IsDaqIdInside(daqId) {
            planeOut := plane.id;
            moduleOut := current.moduleId;
            channelOut := current.DaqToReadoutChannel(daqId);
          }
          m := m + 1;
        }
        assert tags[..m] == tags;
        p := p + 1;
      }
      assert planes[..p] == planes;
    }
      /** A module definition: each channel, with DAQ ID -1, receives its pixels
        in pixel-ID order, and the module its channels in channel-ID order.
        A definition the ordering refuses ends the program with exit(0). */
    method ParseModuleDefinition(modName: string, size: Vec2, tolerance: real, defs: seq<ChannelDef>)
      returns (status: Status, definition: ReadoutModule)
      ensures fresh(definition) && definition.name == modName && definition.size == size
      ensures definition.tolerance == tolerance
      ensures BuiltChannels(defs).None? ==> status == Exit(0)
      ensures BuiltChannels(defs).Some? ==>
                status == Arranged(BuiltChannels(defs).value, ChannelIdsOf(defs)).0
                && (status == Done ==> definition.channels == Arranged(BuiltChannels(defs).value, ChannelIdsOf(defs)).1)
    {
      definition := new ReadoutModule();
      definition.SetName(modName);
      definition.SetSize(size.x, size.y);
      definition.SetTolerance(tolerance);
      var built := BuildChannelVector(defs);
      if built.None? {
        return Exit(0), definition;
      }
      var ordered;
      status, ordered := Arrange(built.value, ChannelIdsOf(defs));
      if status != Done {
        return;
      }
      AddChannels(definition, ordered);
    }

    /** One module entry of a plane definition. The module definition with the
        name receives the entry's ID, origin and rotation, and its channels
        their DAQ and readout IDs, from the decoding file when there is one
        and from their index otherwise, counted from the entry's first DAQ
        channel (-1: the number of channels placed so far). A name with no
        definition, or a decoding file whose row count differs from the
        channel count, ends the program with exit(1). The decoding-error flag
        shared by all modules is passed in and its new value returned. */
    method PlaceModule(modName: string, modId: int, origin: Vec2, rotation: Rotation, givenFirst: int,
                       file: string, fileExists: bool, rows: seq<(int, int)>, decodingError: bool,
                       addedChannels: int)
      returns (status: Status, placed: ReadoutModule?, addedAfter: int, decodingErrorAfter: bool)
      requires forall m :: m in moduleDefinitions ==> |m.channels| > 0
      modifies this, moduleDefinitions
      ensures planes == old(planes) && nPlanes == old(nPlanes) && moduleDefinitions == old(moduleDefinitions)
      ensures forall m :: m in moduleDefinitions && m != placed ==> unchanged(m)
      ensures placed == null <==> modName !in old(Names(moduleDefinitions))
      ensures placed == null ==> status == Exit(1) && addedAfter == addedChannels && decodingErrorAfter == decodingError
      ensures placed != null ==>
                placed == moduleDefinitions[IndexOf(old(Names(moduleDefinitions)), modName)]
                && placed.moduleId == modId && placed.origin == origin && placed.rotation == rotation
                && placed.name == modName && |placed.channels| == |old(placed.channels)|
                && (decoding <==> DecodingRequested(file, decodingError) && fileExists)
                && (decodingErrorAfter <==> decodingError || (DecodingRequested(file, decodingError) && !fileExists))
      ensures placed != null ==>
                var first := FirstDaq(givenFirst, addedChannels);
                var n := |old(placed.channels)|;
                status == (if decoding && n != |DecodedPairs(rows, first)| then Exit(1) else Done)
                && (status == Done ==>
                      addedAfter == addedChannels + n
                      && placed.channels == Assign(old(placed.channels),
                                                   (if decoding then DecodedPairs(rows, first)
                                                    else DefaultPairs(n, first))[..n])
                      && forall ch :: 0 <= ch < n ==> placed.IsDaqIdInside(placed.channels[ch].daqId))
    {
      addedAfter, decodingErrorAfter := addedChannels, decodingError;
      var mid := GetModuleDefinitionId(modName);
      if mid == -1 {
        return Exit(1), null, addedAfter, decodingErrorAfter;
      }
      placed := moduleDefinitions[mid];
      ghost var chs := placed.channels;
      placed.SetModuleID(modId);
      placed.SetOrigin(origin.x, origin.y);
      placed.SetRotation(rotation);
      var first := FirstDaq(givenFirst, addedChannels);
      decoding := DecodingRequested(file, decodingError);
      if decoding && !fileExists {
        decoding := false;
        decodingErrorAfter := true;
      }
      var rdChannel: seq<(int, int)> := [];
      if decoding && fileExists {
        rdChannel := ReadoutModule.ReadDecoding(rows, first);
      }
      if decoding && |placed.channels| != |rdChannel| {
        return Exit(1), placed, addedAfter, decodingErrorAfter;
      }
      if !decoding {
        rdChannel := DefaultPairs(|placed.channels|, first);
      }
      placed.AssignChannels(rdChannel);
      addedAfter := addedChannels + |placed.channels|;
      placed.SetMinMaxDaqIDs();
      status := Done;
    }
  }
}
