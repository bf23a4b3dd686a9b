/** TRestDetectorHitsSmearingProcess: every hit of the input event is
    appended to the process's own output event, with the energy of the hits
    of one channel type multiplied by a gain drawn once per event. */
module HitsSmearing {
  import opened SeqUtil
  import opened RestHits
  import opened HitsEvents

  /** ::tolower on one character: A-Z become a-z, anything else stays. */
  function LowerChar(c: char): (d: char)
    ensures 'A' <= c <= 'Z' ==> 'a' <= d <= 'z' && d as int - c as int == 'a' as int - 'A' as int
    ensures !('A' <= c <= 'Z') ==> d == c
  {
    if 'A' <= c <= 'Z' then (c as int - 'A' as int + 'a' as int) as char else c
  }

  /** The string with every character lowered, as std::transform does in
      place. */
  function ToLower(s: string): (r: string)
    ensures |r| == |s|
    ensures forall i :: 0 <= i < |s| ==> r[i] == LowerChar(s[i])
  {
    if s == [] then [] else ToLower(s[..|s| - 1]) + [LowerChar(s[|s| - 1])]
  }

  /** Lowering twice is lowering once, and a lowered string has no upper-case
      letter left. */
  lemma ToLowerIdempotent(s: string)
    ensures ToLower(ToLower(s)) == ToLower(s)
    ensures forall i :: 0 <= i < |s| ==> !('A' <= ToLower(s)[i] <= 'Z')
  {
    assert forall i :: 0 <= i < |s| ==> ToLower(ToLower(s))[i] == ToLower(s)[i];
  }

  /** The two channel types InitProcess accepts. */
  predicate ValidChannelType(channelType: string) {
    channelType == "veto" || channelType == "tpc"
  }

  /** The two ways of smearing a hits event. */
  datatype Mode = VetoMode | TpcMode

  /** The mode a valid channel type names. */
  function ModeOf(channelType: string): (m: Mode)
    ensures ValidChannelType(channelType) ==> (m == VetoMode <==> channelType == "veto")
  {
    if channelType == "veto" then VetoMode else TpcMode
  }

  /** Whether a hit of kind k has its energy scaled: in "veto" mode the veto
      hits, in "tpc" mode every other hit. */
  predicate Smears(mode: Mode, k: HitType) {
    if mode == VetoMode then k == Veto else k != Veto
  }

  /** The two modes select complementary sets of hits. */
  lemma SmearsComplement(k: HitType)
    ensures Smears(VetoMode, k) <==> !Smears(TpcMode, k)
    ensures Smears(VetoMode, k) <==> k == Veto
  {
  }

  /** One hit after smearing. */
  function SmearedHit(h: Hit, mode: Mode, gain: real): Hit
  {
    if Smears(mode, h.kind) then h.(energy := h.energy * gain) else h
  }

  /** Every hit after smearing, in order. */
  function Smeared(hs: seq<Hit>, mode: Mode, gain: real): (r: seq<Hit>)
    ensures |r| == |hs|
  {
    if hs == [] then [] else Smeared(hs[..|hs| - 1], mode, gain) + [SmearedHit(hs[|hs| - 1], mode, gain)]
  }

  /** Hit i of the output has the position, time and type of hit i of the
      input, and its energy is multiplied by the gain exactly when its type is
      the one the mode selects. */
  lemma {:induction false} SmearedAt(hs: seq<Hit>, mode: Mode, gain: real, i: nat)
    requires i < |hs|
    ensures var h := Smeared(hs, mode, gain)[i];
            h.x == hs[i].x && h.y == hs[i].y && h.z == hs[i].z && h.time == hs[i].time && h.kind == hs[i].kind
            && (Smears(mode, hs[i].kind) ==> h.energy == hs[i].energy * gain)
            && (!Smears(mode, hs[i].kind) ==> h.energy == hs[i].energy)
  {
    if i < |hs| - 1 {
      SmearedAt(hs[..|hs| - 1], mode, gain, i);
    }
  }

  /** A gain of one changes nothing. */
  lemma {:induction false} SmearedByOne(hs: seq<Hit>, mode: Mode)
    ensures Smeared(hs, mode, 1.0) == hs
  {
    if hs != [] {
      SmearedByOne(hs[..|hs| - 1], mode);
    }
  }

  /** Smearing one more hit of a prefix appends that hit, smeared. */
  lemma SmearedPrefix(hs: seq<Hit>, n: nat, mode: Mode, gain: real)
    requires n < |hs|
    ensures Smeared(hs[..n + 1], mode, gain) == Smeared(hs[..n], mode, gain) + [SmearedHit(hs[n], mode, gain)]
  {
    assert hs[..n + 1][..n] == hs[..n];
  }

  class HitsSmearingProcess {
    var channelType: string
    const outputEvent: HitsEvent

    /** Initialize: a fresh, empty output event; no channel type is set. */
    constructor ()
      ensures channelType == ""
      ensures fresh(outputEvent) && outputEvent.Valid() && outputEvent.hits.HitList() == []
    {
      channelType := "";
      outputEvent := new HitsEvent();
    }

    /** InitProcess. readoutFound says whether the run holds a readout. The
        result is false where the process throws: a channel type without a
        readout, or a type that is neither "veto" nor "tpc" once lowered (the
        empty type included). */
    method InitProcess(readoutFound: bool) returns (ok: bool)
      modifies this
      ensures ok <==> readoutFound && ValidChannelType(ToLower(old(channelType)))
      ensures !readoutFound && old(channelType) != "" ==> channelType == old(channelType)
      ensures readoutFound || old(channelType) == "" ==> channelType == ToLower(old(channelType))
    {
      if !readoutFound && channelType != "" {
        return false;
      }
      var lowered: string := [];
      var i := 0;
      while i < |channelType|
        invariant 0 <= i <= |channelType|
        invariant lowered == ToLower(channelType[..i])
      {
        lowered := lowered + [LowerChar(channelType[i])];
        assert channelType[..i + 1][..i] == channelType[..i];
        i := i + 1;
      }
      assert channelType[..i] == channelType;
      channelType := lowered;
      ok := channelType == "veto" || channelType == "tpc";
      assert !readoutFound ==> channelType == "";
    }

    /** Appends every input hit, smeared by gain (the Gaussian draw), to the
        output event. With a channel type other than "veto" and "tpc" the
        first hit makes the process throw: ok is false and nothing is added. */
    method ProcessEvent(input: HitsEvent, gain: real) returns (output: HitsEvent, ok: bool)
      requires input.hits.Valid() && outputEvent.Valid() && input.hits != outputEvent.hits
      modifies outputEvent.hits
      ensures output == outputEvent && outputEvent.Valid()
      ensures ok <==> ValidChannelType(channelType) || input.hits.HitList() == []
      ensures ok && ValidChannelType(channelType) ==>
                outputEvent.hits.HitList()
                == old(outputEvent.hits.HitList()) + Smeared(input.hits.HitList(), ModeOf(channelType), gain)
      ensures !(ok && ValidChannelType(channelType)) ==> outputEvent.hits.HitList() == old(outputEvent.hits.HitList())
    {
      ghost var hs := input.hits.HitList();
      ghost var before := outputEvent.hits.HitList();
      ghost var mode := ModeOf(channelType);
      var hit := 0;
      while hit < input.hits.nHits
        invariant 0 <= hit <= |hs| && input.hits.Valid() && input.hits.HitList() == hs
        invariant outputEvent.Valid()
        invariant hit > 0 ==> ValidChannelType(channelType)
        invariant outputEvent.hits.HitList() == before + Smeared(hs[..hit], mode, gain)
      {
        if channelType != "veto" && channelType != "tpc" {
          return outputEvent, false;
        }
        AddSmeared(input, hit, gain);
        SmearedPrefix(hs, hit, mode, gain);
        hit := hit + 1;
      }
      assert hs[..hit] == hs;
      return outputEvent, true;
    }

    /** The body of ProcessEvent's loop for one hit, once the channel type
        is known to be valid: the hit is copied with its energy multiplied by
        the gain when the type selects it. */
    method AddSmeared(input: HitsEvent, hit: int, gain: real)
      requires input.hits.Valid() && outputEvent.Valid() && input.hits != outputEvent.hits
      requires 0 <= hit < input.hits.nHits && ValidChannelType(channelType)
      modifies outputEvent.hits
      ensures outputEvent.Valid()
      ensures outputEvent.hits.HitList()
              == old(outputEvent.hits.HitList()) + [SmearedHit(input.hits.HitList()[hit], ModeOf(channelType), gain)]
    {
      ghost var h := input.hits.HitList()[hit];
      var hitType := input.hits.kinds[hit];
      var energy := input.hits.energy[hit];
      if channelType == "veto" {
        if hitType == Veto {
          energy := energy * gain;
        }
      } else if channelType == "tpc" {
        if hitType != Veto {
          energy := energy * gain;
        }
      }
      assert Hit(input.hits.x[hit], input.hits.y[hit], input.hits.z[hit], energy, input.hits.time[hit], hitType)
             == SmearedHit(h, ModeOf(channelType), gain);
      outputEvent.AddHit(input.hits.x[hit], input.hits.y[hit], input.hits.z[hit],
                         energy, input.hits.time[hit], hitType);
    }
  }
}
