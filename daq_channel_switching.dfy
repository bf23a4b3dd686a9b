/** TRestDetectorDaqChannelSwitchingProcess: moves the DAQ IDs of chosen
    readout modules so that each module's lowest DAQ ID becomes a configured
    first DAQ channel, and optionally parks the channels of every other
    module on an unreachable DAQ ID. Events pass through untouched. */
module DaqChannelSwitching {
  import opened SeqUtil
  import opened ReadoutModules
  import opened ReadoutPlanes
  import opened Readouts

  /** std::numeric_limits<Int_t>::max(), where the search for the lowest DAQ
      ID starts. */
  const IntMax: int := 2147483647

  /** -1e9 converted to an Int_t DAQ ID: the ID of an ignored module's
      channels. */
  const ParkedDaqId: int := -1000000000

  function Min(a: int, b: int): int {
    if b < a then b else a
  }

  /** The running minimum of the DAQ IDs, starting from IntMax. */
  function LowestDaq(chs: seq<Channel>): int {
    if chs == [] then IntMax else Min(LowestDaq(chs[..|chs| - 1]), chs[|chs| - 1].daqId)
  }

  /** The running minimum is below every DAQ ID and is one of them unless it
      is still the starting value; with DAQ IDs in the Int_t range it is one
      of them whenever there is a channel. */
  lemma {:induction false} LowestDaqIsMinimum(chs: seq<Channel>)
    ensures LowestDaq(chs) <= IntMax
    ensures forall i :: 0 <= i < |chs| ==> LowestDaq(chs) <= chs[i].daqId
    ensures LowestDaq(chs) == IntMax || LowestDaq(chs) in DaqIds(chs)
    ensures |chs| > 0 && (forall i :: 0 <= i < |chs| ==> chs[i].daqId <= IntMax) ==> LowestDaq(chs) in DaqIds(chs)
  {
    if chs != [] {
      var init := chs[..|chs| - 1];
      LowestDaqIsMinimum(init);
      assert forall i :: 0 <= i < |init| ==> init[i] == chs[i];
      assert DaqIds(chs) == DaqIds(init) + [chs[|chs| - 1].daqId];
    }
  }

  /** Each DAQ ID moved by first minus the lowest DAQ ID; channel IDs and
      pixels are kept. */
  function Rebased(chs: seq<Channel>, first: int): (r: seq<Channel>)
    ensures |r| == |chs|
  {
    var low := LowestDaq(chs);
    seq(|chs|, i requires 0 <= i < |chs| => chs[i].(daqId := chs[i].daqId - low + first))
  }

  /** After re-basing, the module's lowest DAQ ID is the configured first DAQ
      channel. */
  lemma RebasedStartsAtFirst(chs: seq<Channel>, first: int)
    requires |chs| > 0 && forall i :: 0 <= i < |chs| ==> chs[i].daqId <= IntMax
    ensures first in DaqIds(Rebased(chs, first))
    ensures forall i :: 0 <= i < |chs| ==> Rebased(chs, first)[i].daqId >= first
  {
    LowestDaqIsMinimum(chs);
    var k :| 0 <= k < |chs| && chs[k].daqId == LowestDaq(chs);
    assert DaqIds(Rebased(chs, first))[k] == first;
  }

  /** Re-basing keeps the differences between DAQ IDs, the channel IDs and
      the pixels. */
  lemma RebasedKeepsLayout(chs: seq<Channel>, first: int, i: nat, j: nat)
    requires i < |chs| && j < |chs|
    ensures Rebased(chs, first)[i].daqId - Rebased(chs, first)[j].daqId == chs[i].daqId - chs[j].daqId
    ensures Rebased(chs, first)[i].channelId == chs[i].channelId
    ensures Rebased(chs, first)[i].pixels == chs[i].pixels
  {
  }

  /** Every channel moved to ParkedDaqId; channel IDs and pixels are kept. */
  function Parked(chs: seq<Channel>): (r: seq<Channel>)
    ensures |r| == |chs|
  {
    seq(|chs|, i requires 0 <= i < |chs| => chs[i].(daqId := ParkedDaqId))
  }

  /** A parked module reads no DAQ ID but ParkedDaqId, and parking twice is
      parking once. */
  lemma ParkedReadsNothing(chs: seq<Channel>, daqId: int)
    requires daqId != ParkedDaqId
    ensures daqId !in DaqIds(Parked(chs))
    ensures forall i :: 0 <= i < |chs| ==> Parked(chs)[i].channelId == chs[i].channelId
  {
  }

  lemma ParkedTwice(chs: seq<Channel>)
    ensures Parked(Parked(chs)) == Parked(chs)
  {
  }

  /** Every module of the readout, plane after plane. */
  ghost function ModulesOf(r: Readout): seq<ReadoutModule>
    reads r, r.planes
  {
    Members(Entries(r.planes))
  }

  /** The channels of each module, in module order. */
  function ChannelsOf(ms: seq<ReadoutModule>): (cs: seq<seq<Channel>>)
    reads ms`channels
    ensures |cs| == |ms|
  {
    if ms == [] then [] else ChannelsOf(ms[..|ms| - 1]) + [ms[|ms| - 1].channels]
  }

  /** Entry k of the list is module k's channels. */
  lemma {:induction false} ChannelsOfAt(ms: seq<ReadoutModule>)
    ensures forall k :: 0 <= k < |ms| ==> ChannelsOf(ms)[k] == ms[k].channels
  {
    if ms != [] {
      var init := ms[..|ms| - 1];
      ChannelsOfAt(init);
      assert ChannelsOf(ms) == ChannelsOf(init) + [ms[|ms| - 1].channels];
      forall k | 0 <= k < |ms| - 1
        ensures ChannelsOf(ms)[k] == ms[k].channels
      {
        assert ms[k] == init[k];
      }
    }
  }

  /** The planes hold their modules by value: no module object is listed
      twice. */
  predicate Distinct(ms: seq<ReadoutModule>) {
    |ms| <= 1 || (ms[|ms| - 1] !in ms[..|ms| - 1] && Distinct(ms[..|ms| - 1]))
  }

  /** Two positions of a Distinct list hold two different modules. */
  lemma {:induction false} DistinctAt(ms: seq<ReadoutModule>, i: nat, j: nat)
    requires Distinct(ms) && i < j < |ms|
    ensures ms[i] != ms[j]
  {
    if j < |ms| - 1 {
      DistinctAt(ms[..|ms| - 1], i, j);
    } else {
      assert ms[i] in ms[..|ms| - 1];
    }
  }

  /** What the process does to the channels of one module: a module with a
      configured first DAQ channel is re-based when it is the one found for
      its ID; an unconfigured module is parked when undefined modules are
      ignored; anything else is left alone. */
  function Switched(chs: seq<Channel>, id: int, defs: map<int, int>, ignore: bool, found: bool): seq<Channel> {
    if id in defs then (if found then Rebased(chs, defs[id]) else chs)
    else if ignore then Parked(chs)
    else chs
  }

  /** The outcome of Switched for each kind of module: the found module of a
      configured ID starts at its first DAQ channel and keeps its layout; an
      unconfigured one reads only ParkedDaqId when ignored and is otherwise
      untouched. */
  lemma SwitchedOutcome(chs: seq<Channel>, id: int, defs: map<int, int>, ignore: bool, found: bool)
    requires forall i :: 0 <= i < |chs| ==> chs[i].daqId <= IntMax
    ensures |Switched(chs, id, defs, ignore, found)| == |chs|
    ensures id in defs && found && |chs| > 0 ==> defs[id] in DaqIds(Switched(chs, id, defs, ignore, found))
    ensures id in defs && found ==> forall i :: 0 <= i < |chs| ==> Switched(chs, id, defs, ignore, found)[i].daqId >= defs[id]
    ensures id !in defs && ignore ==> forall i :: 0 <= i < |chs| ==> Switched(chs, id, defs, ignore, found)[i].daqId == ParkedDaqId
    ensures (id in defs && !found) || (id !in defs && !ignore) ==> Switched(chs, id, defs, ignore, found) == chs
  {
    if id in defs && found && |chs| > 0 {
      RebasedStartsAtFirst(chs, defs[id]);
    }
  }

  /** The channels of every module after the process, given the channels
      before it and the module IDs: module k is the one found for its ID when
      no earlier module carries that ID. */
  function SwitchedAll(cs: seq<seq<Channel>>, ids: seq<int>, defs: map<int, int>, ignore: bool): (r: seq<seq<Channel>>)
    requires |cs| == |ids|
    ensures |r| == |cs|
  {
    seq(|cs|, k requires 0 <= k < |cs| => Switched(cs[k], ids[k], defs, ignore, IndexOf(ids, ids[k]) == k))
  }

  /** Over the whole readout: each configured ID that some module carries has
      exactly its first such module re-based, every later module with that ID
      is untouched, and with ignore every unconfigured module is parked. */
  lemma SwitchedAllOutcome(cs: seq<seq<Channel>>, ids: seq<int>, defs: map<int, int>, ignore: bool, k: nat)
    requires |cs| == |ids| && k < |cs|
    ensures ids[k] in defs && (forall j :: 0 <= j < k ==> ids[j] != ids[k]) ==>
              SwitchedAll(cs, ids, defs, ignore)[k] == Rebased(cs[k], defs[ids[k]])
    ensures ids[k] in defs && (exists j :: 0 <= j < k && ids[j] == ids[k]) ==>
              SwitchedAll(cs, ids, defs, ignore)[k] == cs[k]
    ensures ids[k] !in defs ==> SwitchedAll(cs, ids, defs, ignore)[k] == if ignore then Parked(cs[k]) else cs[k]
  {
    if forall j :: 0 <= j < k ==> ids[j] != ids[k] {
      IndexOfAt(ids, k, ids[k]);
    } else {
      IndexOfAtMost(ids, k);
    }
  }

  /** The channels while the configured keys are visited: a module whose ID
      is still to come has its channels from before, any other its final
      ones. */
  function RebaseProgress(cs: seq<seq<Channel>>, ids: seq<int>, defs: map<int, int>, remaining: set<int>): (r: seq<seq<Channel>>)
    requires |cs| == |ids|
    ensures |r| == |cs|
  {
    seq(|cs|, k requires 0 <= k < |cs| => if ids[k] in remaining then cs[k] else SwitchedAll(cs, ids, defs, false)[k])
  }

  /** Before the first key every module has its channels from before; after
      the last, the final ones. */
  lemma RebaseProgressEnds(cs: seq<seq<Channel>>, ids: seq<int>, defs: map<int, int>)
    requires |cs| == |ids|
    ensures RebaseProgress(cs, ids, defs, defs.Keys) == cs
    ensures RebaseProgress(cs, ids, defs, {}) == SwitchedAll(cs, ids, defs, false)
  {
  }

  /** Visiting key id changes the channels of the first module carrying it, if
      any, and of no other module. */
  lemma RebaseProgressStep(cs: seq<seq<Channel>>, ids: seq<int>, defs: map<int, int>, remaining: set<int>, id: int)
    requires |cs| == |ids| && id in remaining && id in defs
    ensures id !in ids ==> RebaseProgress(cs, ids, defs, remaining - {id}) == RebaseProgress(cs, ids, defs, remaining)
    ensures id in ids ==> RebaseProgress(cs, ids, defs, remaining)[IndexOf(ids, id)] == cs[IndexOf(ids, id)]
    ensures id in ids ==>
              RebaseProgress(cs, ids, defs, remaining - {id}) ==
              RebaseProgress(cs, ids, defs, remaining)[IndexOf(ids, id) := Rebased(cs[IndexOf(ids, id)], defs[id])]
  {
    var at := IndexOf(ids, id);
    forall k | 0 <= k < |cs| && ids[k] == id && k != at
      ensures IndexOf(ids, ids[k]) != k
    {
    }
  }

  /** The channels while the modules are parked in order: every unconfigured
      module before position upto is parked. */
  function ParkProgress(cs: seq<seq<Channel>>, ids: seq<int>, defs: map<int, int>, upto: int): (r: seq<seq<Channel>>)
    requires |cs| == |ids|
    ensures |r| == |cs|
  {
    seq(|cs|, k requires 0 <= k < |cs| => if ids[k] !in defs && k < upto then Parked(cs[k]) else cs[k])
  }

  lemma ParkProgressStart(cs: seq<seq<Channel>>, ids: seq<int>, defs: map<int, int>)
    requires |cs| == |ids|
    ensures ParkProgress(cs, ids, defs, 0) == cs
  {
  }

  /** Parking one more module changes only its own channels. */
  lemma ParkProgressStep(cs: seq<seq<Channel>>, ids: seq<int>, defs: map<int, int>, u: nat)
    requires |cs| == |ids| && u < |cs|
    ensures ParkProgress(cs, ids, defs, u)[u] == cs[u]
    ensures ids[u] in defs ==> ParkProgress(cs, ids, defs, u + 1) == ParkProgress(cs, ids, defs, u)
    ensures ids[u] !in defs ==> ParkProgress(cs, ids, defs, u + 1) == ParkProgress(cs, ids, defs, u)[u := Parked(cs[u])]
  {
  }

  /** Re-basing first and then parking every unconfigured module is the whole
      switch with undefined modules ignored. */
  lemma ParkAfterRebase(cs: seq<seq<Channel>>, ids: seq<int>, defs: map<int, int>)
    requires |cs| == |ids|
    ensures ParkProgress(SwitchedAll(cs, ids, defs, false), ids, defs, |cs|) == SwitchedAll(cs, ids, defs, true)
  {
  }

  /** When a call changed the channels of module at alone, the channel list
      changed at that position alone. */
  twostate lemma OnlyOneChanged(ms: seq<ReadoutModule>, new at: nat)
    requires Distinct(ms) && at < |ms|
    requires forall k :: 0 <= k < |ms| && ms[k] != ms[at] ==> ms[k].channels == old(ms[k].channels)
    ensures old(ChannelsOf(ms))[at] == old(ms[at].channels)
    ensures ChannelsOf(ms) == old(ChannelsOf(ms))[at := ms[at].channels]
  {
    ChannelsOfAt(ms);
    ChannelsOfAtBefore(ms);
    forall k | 0 <= k < |ms| && k != at
      ensures ms[k].channels == old(ms[k].channels)
    {
      if k < at {
        DistinctAt(ms, k, at);
      } else {
        DistinctAt(ms, at, k);
      }
    }
  }

  /** ChannelsOfAt, in the state before a call. */
  twostate lemma ChannelsOfAtBefore(ms: seq<ReadoutModule>)
    ensures forall k :: 0 <= k < |ms| ==> old(ChannelsOf(ms))[k] == old(ms[k].channels)
  {
    if ms != [] {
      var init := ms[..|ms| - 1];
      ChannelsOfAtBefore(init);
      assert old(ChannelsOf(ms)) == old(ChannelsOf(init)) + [old(ms[|ms| - 1].channels)];
      forall k | 0 <= k < |ms| - 1
        ensures old(ChannelsOf(ms))[k] == old(ms[k].channels)
      {
        assert ms[k] == init[k];
      }
    }
  }

  /** The lowest DAQ ID of the module's channels, by the scan of InitProcess. */
  method LowestDaqId(mod: ReadoutModule) returns (mindaq: int)
    ensures mindaq == LowestDaq(mod.channels)
    ensures mindaq <= IntMax && forall i :: 0 <= i < |mod.channels| ==> mindaq <= mod.channels[i].daqId
  {
    mindaq := IntMax;
    var i := 0;
    while i < |mod.channels|
      invariant 0 <= i <= |mod.channels|
      invariant mindaq == LowestDaq(mod.channels[..i])
    {
      assert mod.channels[..i + 1][..i] == mod.channels[..i];
      if mod.channels[i].daqId < mindaq {
        mindaq := mod.channels[i].daqId;
      }
      i := i + 1;
    }
    assert mod.channels[..i] == mod.channels;
    LowestDaqIsMinimum(mod.channels);
  }

  /** Re-bases the module's DAQ IDs on first, channel by channel. */
  method RebaseModule(mod: ReadoutModule, first: int)
    modifies mod`channels
    ensures mod.channels == Rebased(old(mod.channels), first)
  {
    var mindaq := LowestDaqId(mod);
    ghost var target := Rebased(mod.channels, first);
    var i := 0;
    while i < |mod.channels|
      invariant 0 <= i <= |mod.channels| == |target|
      invariant forall k :: 0 <= k < i ==> mod.channels[k] == target[k]
      invariant forall k :: i <= k < |target| ==> mod.channels[k] == old(mod.channels)[k]
    {
      mod.channels := mod.channels[i := mod.channels[i].(daqId := mod.channels[i].daqId - mindaq + first)];
      i := i + 1;
    }
  }

  /** Parks every channel of the module on ParkedDaqId. */
  method ParkModule(mod: ReadoutModule)
    modifies mod`channels
    ensures mod.channels == Parked(old(mod.channels))
  {
    ghost var target := Parked(mod.channels);
    var i := 0;
    while i < |mod.channels|
      invariant 0 <= i <= |mod.channels| == |target|
      invariant forall k :: 0 <= k < i ==> mod.channels[k] == target[k]
      invariant forall k :: i <= k < |target| ==> mod.channels[k] == old(mod.channels)[k]
    {
      mod.channels := mod.channels[i := mod.channels[i].(daqId := ParkedDaqId)];
      i := i + 1;
    }
  }

  /** The module list of each plane, plane by plane. */
  ghost function PlaneModules(ps: seq<ReadoutPlane>): (mods: seq<seq<ReadoutModule>>)
    reads ps`modules
    ensures |mods| == |ps|
  {
    if ps == [] then [] else PlaneModules(ps[..|ps| - 1]) + [ps[|ps| - 1].modules]
  }

  /** Entry q is plane q's module list. */
  lemma {:induction false} PlaneModulesAt(ps: seq<ReadoutPlane>)
    ensures forall q :: 0 <= q < |ps| ==> PlaneModules(ps)[q] == ps[q].modules
  {
    if ps != [] {
      PlaneModulesAt(ps[..|ps| - 1]);
    }
  }

  /** The lists one after the other. */
  function Flatten(mods: seq<seq<ReadoutModule>>): (r: seq<ReadoutModule>)
  {
    if mods == [] then [] else Flatten(mods[..|mods| - 1]) + mods[|mods| - 1]
  }

  /** The readout's modules are its planes' module lists one after the other. */
  lemma {:induction false} MembersFlatten(ps: seq<ReadoutPlane>)
    ensures Members(Entries(ps)) == Flatten(PlaneModules(ps))
  {
    if ps != [] {
      var init := ps[..|ps| - 1];
      MembersFlatten(init);
      var before, tags := Entries(init), Tag(ps[|ps| - 1].id, ps[|ps| - 1].modules);
      assert Members(before + tags) == Members(before) + ps[|ps| - 1].modules;
      assert PlaneModules(ps)[..|ps| - 1] == PlaneModules(init);
    }
  }

  /** x is the least of the keys s; std::map visits its keys from the least
      up. */
  predicate IsLeast(x: int, s: set<int>) {
    x in s && forall y :: y in s ==> x <= y
  }

  /** Some key of a non-empty set. */
  lemma PickKey(s: set<int>) returns (x: int)
    requires s != {}
    ensures x in s
  {
    if forall y :: y !in s {
      assert false;
    }
    x :| x in s;
  }

  /** A finite non-empty set of keys has a least element. */
  lemma LeastExists(s: set<int>)
    requires s != {}
    ensures exists x :: IsLeast(x, s)
  {
    var x := PickKey(s);
    if s - {x} != {} {
      LeastExists(s - {x});
      var z :| IsLeast(z, s - {x});
      var least := if x < z then x else z;
      forall y | y in s
        ensures least <= y
      {
        if y != x {
          assert y in s - {x};
        }
      }
      assert IsLeast(least, s);
    } else {
      assert s == {x};
      assert IsLeast(x, s);
    }
  }

  ghost function Least(s: set<int>): (x: int)
    requires s != {}
    ensures x in s && forall y :: y in s ==> x <= y
  {
    LeastExists(s);
    var x :| IsLeast(x, s); x
  }

  /** A <module id firstdaqchannel> element is skipped when either value reads
      as -1. */
  predicate Usable(e: (int, int)) {
    e.0 != -1 && e.1 != -1
  }

  /** The first-DAQ-channel map the module elements define, later elements
      overriding earlier ones. */
  function ConfigDefs(es: seq<(int, int)>): map<int, int> {
    if es == [] then map[]
    else
      var defs := ConfigDefs(es[..|es| - 1]);
      if Usable(es[|es| - 1]) then defs[es[|es| - 1].0 := es[|es| - 1].1] else defs
  }

  /** A module ID is configured exactly when a usable element names it. */
  lemma {:induction false} ConfigDefsKeys(es: seq<(int, int)>, id: int)
    ensures id in ConfigDefs(es) <==> exists i :: 0 <= i < |es| && Usable(es[i]) && es[i].0 == id
  {
    if es != [] {
      var init, last := es[..|es| - 1], es[|es| - 1];
      ConfigDefsKeys(init, id);
      if id in ConfigDefs(es) && !(Usable(last) && last.0 == id) {
        var i :| 0 <= i < |init| && Usable(init[i]) && init[i].0 == id;
        assert es[i] == init[i];
      }
      if id !in ConfigDefs(es) {
        forall i | 0 <= i < |es| && Usable(es[i])
          ensures es[i].0 != id
        {
          if i < |init| {
            assert es[i] == init[i];
          }
        }
      }
    }
  }

  /** A configured module ID takes the first DAQ channel of the last usable
      element that names it. */
  lemma {:induction false} ConfigDefsValue(es: seq<(int, int)>, id: int)
    requires id in ConfigDefs(es)
    ensures exists i :: 0 <= i < |es| && es[i] == (id, ConfigDefs(es)[id]) && Usable(es[i])
                        && forall j :: i < j < |es| && Usable(es[j]) ==> es[j].0 != id
  {
    var init, last := es[..|es| - 1], es[|es| - 1];
    if Usable(last) && last.0 == id {
      assert es[|es| - 1] == (id, ConfigDefs(es)[id]);
    } else {
      ConfigDefsValue(init, id);
      var i :| 0 <= i < |init| && init[i] == (id, ConfigDefs(init)[id]) && Usable(init[i])
               && forall j :: i < j < |init| && Usable(init[j]) ==> init[j].0 != id;
      assert es[i] == (id, ConfigDefs(es)[id]);
      forall j | i < j < |es| && Usable(es[j])
        ensures es[j].0 != id
      {
        if j < |init| {
          assert es[j] == init[j];
        }
      }
    }
  }

  /** Whether the key loop of InitProcess as written reaches the end of the
      map within fuel passes, given the module IDs the readout has: a key
      without a module is never stepped past. */
  ghost function AsWrittenKeyLoopEnds(remaining: set<int>, present: set<int>, fuel: nat): bool
    decreases fuel
  {
    if remaining == {} then true
    else if fuel == 0 then false
    else
      var id := Least(remaining);
      if id in present then AsWrittenKeyLoopEnds(remaining - {id}, present, fuel - 1)
      else AsWrittenKeyLoopEnds(remaining, present, fuel - 1)
  }

  /** As written, one configured module ID the readout lacks keeps InitProcess
      looping for ever, however many passes it is given. */
  lemma {:induction false} AsWrittenKeyLoopNeverEnds(remaining: set<int>, present: set<int>, fuel: nat, missing: int)
    requires missing in remaining && missing !in present
    ensures !AsWrittenKeyLoopEnds(remaining, present, fuel)
    decreases fuel
  {
    if fuel > 0 {
      var id := Least(remaining);
      if id in present {
        AsWrittenKeyLoopNeverEnds(remaining - {id}, present, fuel - 1, missing);
      } else {
        AsWrittenKeyLoopNeverEnds(remaining, present, fuel - 1, missing);
      }
    }
  }

  /** Whether the element loop of InitFromConfigFile as written reaches the
      last element within fuel passes from element pos: an element skipped by
      `continue` is never stepped past. */
  function AsWrittenElementLoopEnds(es: seq<(int, int)>, pos: nat, fuel: nat): bool
    requires pos <= |es|
    decreases fuel
  {
    if pos == |es| then true
    else if fuel == 0 then false
    else if Usable(es[pos]) then AsWrittenElementLoopEnds(es, pos + 1, fuel - 1)
    else AsWrittenElementLoopEnds(es, pos, fuel - 1)
  }

  /** As written, one element whose id or firstdaqchannel reads as -1 keeps
      InitFromConfigFile looping for ever. */
  lemma {:induction false} AsWrittenElementLoopNeverEnds(es: seq<(int, int)>, pos: nat, fuel: nat, bad: nat)
    requires pos <= bad < |es| && !Usable(es[bad])
    ensures !AsWrittenElementLoopEnds(es, pos, fuel)
    decreases fuel
  {
    if fuel > 0 {
      if Usable(es[pos]) {
        AsWrittenElementLoopNeverEnds(es, pos + 1, fuel - 1, bad);
      } else {
        AsWrittenElementLoopNeverEnds(es, pos, fuel - 1, bad);
      }
    }
  }

  class DaqChannelSwitchingProcess {
    var firstDaqChannelDef: map<int, int>
    var ignoreUndefinedModules: bool
    var readout: Readout?
    var event: object?

    constructor ()
      ensures firstDaqChannelDef == map[] && !ignoreUndefinedModules && readout == null && event == null
    {
      firstDaqChannelDef := map[];
      ignoreUndefinedModules := false;
      readout := null;
      event := null;
    }

    method Initialize()
      modifies this
      ensures firstDaqChannelDef == map[] && !ignoreUndefinedModules && readout == null && event == null
    {
      firstDaqChannelDef := map[];
      ignoreUndefinedModules := false;
      readout := null;
      event := null;
    }

    /** Reads the <module id firstdaqchannel> elements, given as the integers
        they parse to, and the ignoreUndefinedModules parameter. A skipped
        element is stepped past. */
    method InitFromConfigFile(elements: seq<(int, int)>, ignore: bool)
      modifies this
      ensures firstDaqChannelDef == old(firstDaqChannelDef) + ConfigDefs(elements)
      ensures ignoreUndefinedModules == ignore && readout == old(readout) && event == old(event)
    {
      var k := 0;
      while k < |elements|
        invariant 0 <= k <= |elements|
        invariant firstDaqChannelDef == old(firstDaqChannelDef) + ConfigDefs(elements[..k])
        invariant readout == old(readout) && event == old(event)
      {
        assert elements[..k + 1][..k] == elements[..k];
        var (id, channel) := elements[k];
        if id != -1 && channel != -1 {
          firstDaqChannelDef := firstDaqChannelDef[id := channel];
        }
        k := k + 1;
      }
      assert elements[..k] == elements;
      ignoreUndefinedModules := ignore;
    }

    /** Re-bases the module found for each configured ID, keys in increasing
        order; a key with no module is stepped past. */
    method RebaseDefinedModules(r: Readout, ghost ms: seq<ReadoutModule>, ghost ids: seq<int>, ghost cs: seq<seq<Channel>>)
      requires ms == ModulesOf(r) && ids == ModuleIds(ms) && cs == ChannelsOf(ms) && Distinct(ms)
      modifies ms`channels
      ensures ms == ModulesOf(r) && ids == ModuleIds(ms)
      ensures ChannelsOf(ms) == SwitchedAll(cs, ids, firstDaqChannelDef, false)
    {
      RebaseProgressEnds(cs, ids, firstDaqChannelDef);
      var remaining := firstDaqChannelDef.Keys;
      while remaining != {}
        invariant remaining <= firstDaqChannelDef.Keys
        invariant ms == ModulesOf(r) && ids == ModuleIds(ms)
        invariant ChannelsOf(ms) == RebaseProgress(cs, ids, firstDaqChannelDef, remaining)
        decreases remaining
      {
        LeastExists(remaining);
        var id :| IsLeast(id, remaining);
        RebaseKey(r, ms, ids, cs, remaining, id);
        remaining := remaining - {id};
      }
    }

    /** One step of RebaseDefinedModules: looks up the module with ID id and,
        when there is one, re-bases it. */
    method RebaseKey(r: Readout, ghost ms: seq<ReadoutModule>, ghost ids: seq<int>, ghost cs: seq<seq<Channel>>,
                     ghost remaining: set<int>, id: int)
      requires ms == ModulesOf(r) && ids == ModuleIds(ms) && |cs| == |ms| && Distinct(ms)
      requires id in remaining && id in firstDaqChannelDef
      requires ChannelsOf(ms) == RebaseProgress(cs, ids, firstDaqChannelDef, remaining)
      modifies ms`channels
      ensures ms == ModulesOf(r) && ids == ModuleIds(ms)
      ensures ChannelsOf(ms) == RebaseProgress(cs, ids, firstDaqChannelDef, remaining - {id})
    {
      var mod := Lookup(r, ms, ids, id);
      RebaseProgressStep(cs, ids, firstDaqChannelDef, remaining, id);
      if mod != null {
        RebaseAt(mod, firstDaqChannelDef[id], ms, IndexOf(ids, id));
      }
    }

    /** The readout's lookup by module ID, stated on the module list. */
    method Lookup(r: Readout, ghost ms: seq<ReadoutModule>, ghost ids: seq<int>, id: int) returns (mod: ReadoutModule?)
      requires ms == ModulesOf(r) && ids == ModuleIds(ms)
      ensures mod == null <==> id !in ids
      ensures mod != null ==> mod == ms[IndexOf(ids, id)]
    {
      ghost var es := Entries(r.planes);
      label lookup:
      mod := r.GetReadoutModuleWithID(id);
      assert r.planes == old@lookup(r.planes);
      assert Entries(r.planes) == es;
    }

    /** Re-bases module ms[at] alone. */
    method RebaseAt(mod: ReadoutModule, first: int, ghost ms: seq<ReadoutModule>, ghost at: int)
      requires Distinct(ms) && 0 <= at < |ms| && ms[at] == mod
      modifies mod`channels
      ensures ChannelsOf(ms) == old(ChannelsOf(ms))[at := Rebased(old(ChannelsOf(ms))[at], first)]
    {
      RebaseModule(mod, first);
      OnlyOneChanged(ms, at);
    }

    /** Parks module ms[at] alone. */
    method ParkAt(mod: ReadoutModule, ghost ms: seq<ReadoutModule>, ghost at: int)
      requires Distinct(ms) && 0 <= at < |ms| && ms[at] == mod
      modifies mod`channels
      ensures ChannelsOf(ms) == old(ChannelsOf(ms))[at := Parked(old(ChannelsOf(ms))[at])]
    {
      ParkModule(mod);
      OnlyOneChanged(ms, at);
    }

    /** The modules of the readout, plane after plane, gathered by a scan
        that changes nothing. */
    method CollectModules(r: Readout) returns (ms: seq<ReadoutModule>)
      ensures ms == ModulesOf(r)
    {
      ghost var mods := PlaneModules(r.planes);
      MembersFlatten(r.planes);
      PlaneModulesAt(r.planes);
      ms := [];
      var p := 0;
      while p < |r.planes|
        invariant 0 <= p <= |r.planes| && ms == Flatten(mods[..p])
      {
        assert mods[..p + 1][..p] == mods[..p];
        ms := ms + r.planes[p].modules;
        p := p + 1;
      }
      assert mods[..p] == mods;
    }

    /** Parks every module, plane after plane, that has no configured first
        DAQ channel. */
    method ParkUndefinedModules(r: Readout, ghost ms: seq<ReadoutModule>, ghost ids: seq<int>, ghost cs: seq<seq<Channel>>)
      requires ms == ModulesOf(r) && ids == ModuleIds(ms) && cs == ChannelsOf(ms) && Distinct(ms)
      modifies ms`channels
      ensures ms == ModulesOf(r) && ids == ModuleIds(ms)
      ensures ChannelsOf(ms) == ParkProgress(cs, ids, firstDaqChannelDef, |ms|)
    {
      var all := CollectModules(r);
      ParkEach(all, ids, cs);
    }

    /** The loop of ParkUndefinedModules, over the gathered modules ms whose
        IDs are ids. */
    method ParkEach(ms: seq<ReadoutModule>, ghost ids: seq<int>, ghost cs: seq<seq<Channel>>)
      requires |ids| == |ms| && forall k :: 0 <= k < |ms| ==> ms[k].moduleId == ids[k]
      requires cs == ChannelsOf(ms) && Distinct(ms)
      modifies ms`channels
      ensures ChannelsOf(ms) == ParkProgress(cs, ids, firstDaqChannelDef, |ms|)
    {
      ParkProgressStart(cs, ids, firstDaqChannelDef);
      var i := 0;
      while i < |ms|
        invariant 0 <= i <= |ms|
        invariant forall k :: 0 <= k < |ms| ==> ms[k].moduleId == ids[k]
        invariant ChannelsOf(ms) == ParkProgress(cs, ids, firstDaqChannelDef, i)
      {
        var mod := ms[i];
        ParkProgressStep(cs, ids, firstDaqChannelDef, i);
        if mod.moduleId !in firstDaqChannelDef {
          ParkAt(mod, ms, i);
        }
        i := i + 1;
      }
    }

    /** Takes the readout and applies the configuration to its modules: the
        channels of each module become what SwitchedAll says; module IDs and
        the planes' module lists stay. */
    method InitProcess(r: Readout?)
      requires r != null ==> Distinct(ModulesOf(r))
      modifies this`readout, (if r == null then [] else ModulesOf(r))`channels
      ensures readout == r && firstDaqChannelDef == old(firstDaqChannelDef)
      ensures ignoreUndefinedModules == old(ignoreUndefinedModules) && event == old(event)
      ensures r != null ==> ModulesOf(r) == old(ModulesOf(r)) && ModuleIds(ModulesOf(r)) == old(ModuleIds(ModulesOf(r)))
      ensures r != null ==>
                ChannelsOf(ModulesOf(r)) == SwitchedAll(old(ChannelsOf(ModulesOf(r))), ModuleIds(ModulesOf(r)),
                                                        firstDaqChannelDef, ignoreUndefinedModules)
    {
      readout := r;
      if r != null {
        SwitchModules(r);
      }
    }

    /** The body of InitProcess once a readout is present. */
    method SwitchModules(r: Readout)
      requires Distinct(ModulesOf(r))
      modifies ModulesOf(r)`channels
      ensures ModulesOf(r) == old(ModulesOf(r)) && ModuleIds(ModulesOf(r)) == old(ModuleIds(ModulesOf(r)))
      ensures ChannelsOf(ModulesOf(r)) == SwitchedAll(old(ChannelsOf(ModulesOf(r))), ModuleIds(ModulesOf(r)),
                                                      firstDaqChannelDef, ignoreUndefinedModules)
    {
      ghost var ms := ModulesOf(r);
      ghost var ids := ModuleIds(ms);
      ghost var cs := ChannelsOf(ms);
      RebaseDefinedModules(r, ms, ids, cs);
      if ignoreUndefinedModules {
        ParkUndefinedModules(r, ms, ids, ChannelsOf(ms));
        ParkAfterRebase(cs, ids, firstDaqChannelDef);
      }
    }

    /** Events pass through unchanged; the process keeps a reference. */
    method ProcessEvent(inputEvent: object?) returns (output: object?)
      modifies this
      ensures output == inputEvent && event == inputEvent
      ensures firstDaqChannelDef == old(firstDaqChannelDef) && ignoreUndefinedModules == old(ignoreUndefinedModules)
      ensures readout == old(readout)
    {
      event := inputEvent;
      return inputEvent;
    }
  }
}
