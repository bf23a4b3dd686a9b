/** TRestDetectorHitmapAnalysisProcess: the mean position of an event's hits
    is carried through an ordered list of named transformations (specular
    reflection, rotation, translation) and the result is published as the
    observables xMean, yMean and zMean; the event itself passes through. */
module HitmapAnalysis {
  import opened Geometry
  import opened HitsEvents

  /** A transformation definition, with the defaults a fresh one has. */
  datatype Transformation = Transformation(position: Vec3, vector: Vec3, angle: real, kind: string, name: string)

  const Origin := Vec3(0.0, 0.0, 0.0)

  /** A transformation nobody defined: no type, no name, normal (0,0,1). */
  const Undefined := Transformation(Origin, Vec3(0.0, 0.0, 1.0), 0.0, "", "")

  /** The first definition with the name, or Undefined when there is none. */
  function FindTransformation(defs: seq<Transformation>, name: string): (tr: Transformation)
  {
    if defs == [] then Undefined
    else if defs[0].name == name then defs[0]
    else FindTransformation(defs[1..], name)
  }

  /** FindTransformation picks the definition at the first index carrying the
      name, and Undefined exactly when no definition carries it. */
  lemma {:induction false} FindTransformationFirst(defs: seq<Transformation>, name: string)
    ensures (forall i :: 0 <= i < |defs| ==> defs[i].name != name) ==> FindTransformation(defs, name) == Undefined
    ensures forall i :: 0 <= i < |defs| && defs[i].name == name && (forall j :: 0 <= j < i ==> defs[j].name != name) ==>
                          FindTransformation(defs, name) == defs[i]
  {
    if defs != [] {
      FindTransformationFirst(defs[1..], name);
      forall i | 0 <= i < |defs| && defs[i].name == name && (forall j :: 0 <= j < i ==> defs[j].name != name)
        ensures FindTransformation(defs, name) == defs[i]
      {
        if i > 0 {
          assert defs[0].name != name;
          assert forall j :: 0 <= j < i - 1 ==> defs[1..][j] == defs[j + 1];
        }
      }
      if forall i :: 0 <= i < |defs| ==> defs[i].name != name {
        assert forall i :: 0 <= i < |defs| - 1 ==> defs[1..][i] == defs[i + 1];
      }
    }
  }

  /** Reflection of pos in the plane through tr.position with normal
      tr.vector; the origin when tr is not a specular transformation. */
  function Specular(pos: Vec3, tr: Transformation): Vec3 {
    if tr.kind != "specular" then Origin else Reflect(pos, tr.position, tr.vector)
  }

  /** pos turned about tr.position by tr.angle around tr.vector; the origin
      when tr is not a rotation. turn is TVector3::Rotate. */
  function RotationAbout(pos: Vec3, tr: Transformation, turn: (Vec3, real, Vec3) -> Vec3): Vec3 {
    if tr.kind != "rotation" then Origin
    else Add3(turn(Sub3(pos, tr.position), tr.angle, tr.vector), tr.position)
  }

  /** pos moved by tr.vector; the origin when tr is not a translation. */
  function Translation(pos: Vec3, tr: Transformation): Vec3 {
    if tr.kind != "translation" then Origin else Add3(pos, tr.vector)
  }

  /** A transformation applied to the running mean: each type is tested in
      turn, so at most one of them applies. */
  function Step(mean: Vec3, tr: Transformation, turn: (Vec3, real, Vec3) -> Vec3): Vec3 {
    var afterSpecular := if tr.kind == "specular" then Specular(mean, tr) else mean;
    var afterRotation := if tr.kind == "rotation" then RotationAbout(afterSpecular, tr, turn) else afterSpecular;
    if tr.kind == "translation" then Translation(afterRotation, tr) else afterRotation
  }

  /** The mean after the named transformations, in list order. */
  function Transformed(mean: Vec3, names: seq<string>, defs: seq<Transformation>,
                       turn: (Vec3, real, Vec3) -> Vec3): Vec3
  {
    if names == [] then mean
    else Step(Transformed(mean, names[..|names| - 1], defs, turn), FindTransformation(defs, names[|names| - 1]), turn)
  }

  /** Each transform yields the origin when handed a transformation of
      another type. */
  lemma MismatchGivesOrigin(pos: Vec3, tr: Transformation, turn: (Vec3, real, Vec3) -> Vec3)
    ensures tr.kind != "specular" ==> Specular(pos, tr) == Origin
    ensures tr.kind != "rotation" ==> RotationAbout(pos, tr, turn) == Origin
    ensures tr.kind != "translation" ==> Translation(pos, tr) == Origin
  {
  }

  /** A transformation of none of the three types, Undefined among them,
      leaves the mean where it is; each type applies its own transform. */
  lemma StepByKind(mean: Vec3, tr: Transformation, turn: (Vec3, real, Vec3) -> Vec3)
    ensures tr.kind !in {"specular", "rotation", "translation"} ==> Step(mean, tr, turn) == mean
    ensures tr.kind == "specular" ==> Step(mean, tr, turn) == Specular(mean, tr)
    ensures tr.kind == "rotation" ==> Step(mean, tr, turn) == RotationAbout(mean, tr, turn)
    ensures tr.kind == "translation" ==> Step(mean, tr, turn) == Translation(mean, tr)
  {
  }

  /** A name nobody defined changes nothing. */
  lemma UndefinedNameSkipped(mean: Vec3, names: seq<string>, name: string, defs: seq<Transformation>,
                             turn: (Vec3, real, Vec3) -> Vec3)
    requires forall i :: 0 <= i < |defs| ==> defs[i].name != name
    ensures Transformed(mean, names + [name], defs, turn) == Transformed(mean, names, defs, turn)
  {
    FindTransformationFirst(defs, name);
    assert (names + [name])[..|names|] == names;
  }

  /** Applying two lists one after the other is applying their
      concatenation: the transformations are folded in list order. */
  lemma {:induction false} TransformedConcat(mean: Vec3, a: seq<string>, b: seq<string>, defs: seq<Transformation>,
                                             turn: (Vec3, real, Vec3) -> Vec3)
    ensures Transformed(mean, a + b, defs, turn) == Transformed(Transformed(mean, a, defs, turn), b, defs, turn)
  {
    if b == [] {
      assert a + b == a;
    } else {
      TransformedConcat(mean, a, b[..|b| - 1], defs, turn);
      assert (a + b)[..|a + b| - 1] == a + b[..|b| - 1];
    }
  }

  /** With a unit normal, reflecting twice gives the point back. */
  lemma SpecularInvolution(pos: Vec3, tr: Transformation)
    requires tr.kind == "specular" && Dot3(tr.vector, tr.vector) == 1.0
    ensures Specular(Specular(pos, tr), tr) == pos
  {
    ReflectInvolution(pos, tr.position, tr.vector);
  }

  /** Points of the mirror plane stay where they are. */
  lemma SpecularFixesPlane(pos: Vec3, tr: Transformation)
    requires tr.kind == "specular" && Dot3(Sub3(pos, tr.position), tr.vector) == 0.0
    ensures Specular(pos, tr) == pos
  {
  }

  /** A translation by the opposite vector undoes a translation. */
  lemma TranslationUndone(pos: Vec3, tr: Transformation)
    requires tr.kind == "translation"
    ensures Translation(Translation(pos, tr), tr.(vector := Scale3(-1.0, tr.vector))) == pos
  {
  }

  /** The centre of a rotation stays put whenever the turn fixes the
      origin. */
  lemma RotationFixesCentre(tr: Transformation, turn: (Vec3, real, Vec3) -> Vec3)
    requires tr.kind == "rotation" && turn(Origin, tr.angle, tr.vector) == Origin
    ensures RotationAbout(tr.position, tr, turn) == tr.position
  {
    assert Sub3(tr.position, tr.position) == Origin;
  }

  class HitmapAnalysisProcess {
    var transDefinitions: seq<Transformation>
    var transformations: seq<string>
    var hitsEvent: HitsEvent?
    var xMean: real
    var yMean: real
    var zMean: real

    /** A process with the given definitions and the ordered list of names
        to apply; reading them from the configuration is not modelled. */
    constructor (defs: seq<Transformation>, names: seq<string>)
      ensures transDefinitions == defs && transformations == names && hitsEvent == null
    {
      transDefinitions, transformations := defs, names;
      hitsEvent := null;
      xMean, yMean, zMean := 0.0, 0.0, 0.0;
    }

    /** The definition with the name, by a scan of the definitions. */
    method GetTransformation(name: string) returns (tr: Transformation)
      ensures tr == FindTransformation(transDefinitions, name)
    {
      FindTransformationFirst(transDefinitions, name);
      for i := 0 to |transDefinitions|
        invariant forall j :: 0 <= j < i ==> transDefinitions[j].name != name
      {
        if transDefinitions[i].name == name {
          return transDefinitions[i];
        }
      }
      return Undefined;
    }

    /** Publishes the transformed mean of the event's hits; mean is the
        event's GetMeanPosition and turn is TVector3::Rotate. The event is
        returned as it came in. */
    method ProcessEvent(input: HitsEvent, mean: Vec3, turn: (Vec3, real, Vec3) -> Vec3) returns (output: HitsEvent)
      modifies this
      ensures output == input && hitsEvent == input
      ensures transDefinitions == old(transDefinitions) && transformations == old(transformations)
      ensures Vec3(xMean, yMean, zMean) == Transformed(mean, transformations, transDefinitions, turn)
    {
      hitsEvent := input;
      var transformedMean := mean;
      for k := 0 to |transformations|
        invariant hitsEvent == input
        invariant transDefinitions == old(transDefinitions) && transformations == old(transformations)
        invariant transformedMean == Transformed(mean, transformations[..k], transDefinitions, turn)
      {
        var tr := GetTransformation(transformations[k]);
        if tr.kind == "specular" {
          transformedMean := Specular(transformedMean, tr);
        }
        if tr.kind == "rotation" {
          transformedMean := RotationAbout(transformedMean, tr, turn);
        }
        if tr.kind == "translation" {
          transformedMean := Translation(transformedMean, tr);
        }
        assert transformations[..k + 1][..k] == transformations[..k];
      }
      assert transformations[..|transformations|] == transformations;
      xMean, yMean, zMean := transformedMean.x, transformedMean.y, transformedMean.z;
      return input;
    }
  }
}
