/** TRestDetectorHitsTranslationProcess: every hit of the input event is
    appended to the process's own output event, moved by one fixed vector. */
module HitsTranslation {
  import opened SeqUtil
  import opened Geometry
  import opened RestHits
  import opened HitsEvents

  /** The translation InitFromConfigFile falls back to. */
  const DefaultTranslation: Vec3 := Vec3(0.0, 0.0, 1.0)

  /** The "translation" parameter, or the default when it is not given. */
  function ConfiguredTranslation(given: Option<Vec3>): (t: Vec3)
    ensures given.None? ==> t == DefaultTranslation
    ensures given.Some? ==> t == given.value
  {
    if given.Some? then given.value else DefaultTranslation
  }

  /** One hit moved by t, with its energy, time and type kept. */
  function Moved(h: Hit, t: Vec3): Hit {
    h.(x := h.x + t.x, y := h.y + t.y, z := h.z + t.z)
  }

  /** Every hit moved by t, in order. */
  function Translated(hs: seq<Hit>, t: Vec3): (r: seq<Hit>)
    ensures |r| == |hs|
  {
    if hs == [] then [] else Translated(hs[..|hs| - 1], t) + [Moved(hs[|hs| - 1], t)]
  }

  /** Hit i of the output is hit i of the input moved by t: its position is
      the input position plus t, and energy, time and type are copied. */
  lemma {:induction false} TranslatedAt(hs: seq<Hit>, t: Vec3, i: nat)
    requires i < |hs|
    ensures Translated(hs, t)[i] == Moved(hs[i], t)
    ensures Translated(hs, t)[i].x == hs[i].x + t.x && Translated(hs, t)[i].y == hs[i].y + t.y
            && Translated(hs, t)[i].z == hs[i].z + t.z
    ensures Translated(hs, t)[i].energy == hs[i].energy && Translated(hs, t)[i].time == hs[i].time
            && Translated(hs, t)[i].kind == hs[i].kind
  {
    if i < |hs| - 1 {
      TranslatedAt(hs[..|hs| - 1], t, i);
    }
  }

  /** The energies are those of the input, in the same order. */
  lemma {:induction false} TranslatedEnergies(hs: seq<Hit>, t: Vec3)
    ensures Energies(Translated(hs, t)) == Energies(hs)
  {
    if hs != [] {
      TranslatedEnergies(hs[..|hs| - 1], t);
    }
  }

  /** The zero vector leaves every hit where it was. */
  lemma {:induction false} TranslatedByZero(hs: seq<Hit>)
    ensures Translated(hs, Vec3(0.0, 0.0, 0.0)) == hs
  {
    if hs != [] {
      TranslatedByZero(hs[..|hs| - 1]);
    }
  }

  /** Moving by -t undoes moving by t. */
  lemma {:induction false} TranslatedBack(hs: seq<Hit>, t: Vec3)
    ensures Translated(Translated(hs, t), Scale3(-1.0, t)) == hs
  {
    if hs != [] {
      var init := hs[..|hs| - 1];
      TranslatedBack(init, t);
      assert Translated(hs, t)[..|hs| - 1] == Translated(init, t);
    }
  }

  /** Moving by a and then by b is moving by a + b. */
  lemma {:induction false} TranslatedTwice(hs: seq<Hit>, a: Vec3, b: Vec3)
    ensures Translated(Translated(hs, a), b) == Translated(hs, Add3(a, b))
  {
    if hs != [] {
      var init := hs[..|hs| - 1];
      TranslatedTwice(init, a, b);
      assert Translated(hs, a)[..|hs| - 1] == Translated(init, a);
    }
  }

  class HitsTranslationProcess {
    var translation: Vec3
    const outputEvent: HitsEvent

    /** Initialize: a fresh, empty output event and the header's zero
        translation. */
    constructor ()
      ensures translation == Vec3(0.0, 0.0, 0.0)
      ensures fresh(outputEvent) && outputEvent.Valid() && outputEvent.hits.HitList() == []
    {
      translation := Vec3(0.0, 0.0, 0.0);
      outputEvent := new HitsEvent();
    }

    /** InitFromConfigFile: given is the "translation" parameter, if any. */
    method InitFromConfigFile(given: Option<Vec3>)
      modifies this
      ensures translation == ConfiguredTranslation(given)
    {
      translation := if given.Some? then given.value else DefaultTranslation;
    }

    /** Appends every input hit, moved by the translation, to the output
        event, which is returned. */
    method ProcessEvent(input: HitsEvent) returns (output: HitsEvent)
      requires input.hits.Valid() && outputEvent.Valid() && input.hits != outputEvent.hits
      modifies outputEvent.hits
      ensures output == outputEvent && outputEvent.Valid()
      ensures outputEvent.hits.HitList()
              == old(outputEvent.hits.HitList()) + Translated(input.hits.HitList(), translation)
    {
      ghost var hs := input.hits.HitList();
      ghost var before := outputEvent.hits.HitList();
      var hit := 0;
      while hit < input.hits.nHits
        invariant 0 <= hit <= |hs| && input.hits.Valid() && input.hits.HitList() == hs
        invariant outputEvent.Valid()
        invariant outputEvent.hits.HitList() == before + Translated(hs[..hit], translation)
      {
        var position := Add3(Vec3(input.hits.x[hit], input.hits.y[hit], input.hits.z[hit]), translation);
        outputEvent.AddHit(position.x, position.y, position.z, input.hits.energy[hit],
                           input.hits.time[hit], input.hits.kinds[hit]);
        assert hs[..hit + 1][..hit] == hs[..hit];
        hit := hit + 1;
      }
      assert hs[..hit] == hs;
      return outputEvent;
    }
  }
}
