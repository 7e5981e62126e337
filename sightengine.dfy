/** `transformSightengineResponse` of lib/sightengine-integration.ts: a
    provider response is copied into an all-zero result record, one
    conditional at a time. A JSON object of optional numeric fields is a
    map from the field names that are present to their values. */
module Sightengine {
  import opened Common
  import opened Results

  datatype Genai = Genai(score: real, diffusion: Option<map<string, real>>, gan: Option<map<string, real>>)

  datatype Deepfake = Deepfake(score: real)

  datatype FaceAttributes = FaceAttributes(manipulation: Option<real>)

  /** The parts of the response the mapping reads; an absent object is `None`. */
  datatype Response = Response(
    genai: Option<Genai>,
    deepfake: Option<Deepfake>,
    faceAttributes: Option<FaceAttributes>)

  /** The response's diffusion fields and the display names they are stored
      under, in the order the mapping copies them. */
  const DiffusionFields: seq<(string, string)> := [
    ("wan", "Wan"), ("stable_diffusion", "Stable Diffusion"), ("midjourney", "MidJourney"),
    ("dall_e", "DALL-E"), ("flux", "Flux"), ("firefly", "Firefly"), ("imagen", "Imagen"),
    ("reve", "Reve"), ("qwen", "Qwen"), ("ideogram", "Ideogram"), ("recraft", "Recraft")]

  /** `Math.round(x * 100)`. */
  function Percent(x: real): (p: int)
    ensures 0.0 <= x <= 1.0 ==> 0 <= p <= 100
  {
    Round(x * 100.0)
  }

  /** The diffusion map after copying the fields of `fields` that `d` has. */
  function Copied(fields: seq<(string, string)>, d: map<string, real>): ScoreMap
  {
    if fields == [] then []
    else
      var (field, name) := fields[|fields| - 1];
      Copied(fields[..|fields| - 1], d) + (if field in d then [Entry(name, Percent(d[field]))] else [])
  }

  /** Every copied entry comes from a present field, under its display name,
      and every present field is copied. */
  lemma {:induction false} CopiedMeaning(fields: seq<(string, string)>, d: map<string, real>)
    ensures forall e :: e in Copied(fields, d) <==>
      exists i :: 0 <= i < |fields| && fields[i].0 in d && e == Entry(fields[i].1, Percent(d[fields[i].0]))
  {
    if fields != [] {
      var init := fields[..|fields| - 1];
      CopiedMeaning(init, d);
      assert forall i :: 0 <= i < |init| ==> init[i] == fields[i];
    }
  }

  /** The display names are pairwise different. */
  lemma DisplayNamesDistinct()
    ensures forall i, j :: 0 <= i < j < |DiffusionFields| ==> DiffusionFields[i].1 != DiffusionFields[j].1
  {
  }

  /** One `if (… !== undefined) result.diffusion[name] = …` of the source:
      the `k`-th field is copied when present. */
  method CopyField(m: ScoreMap, d: map<string, real>, k: nat) returns (m': ScoreMap)
    requires k < |DiffusionFields| && m == Copied(DiffusionFields[..k], d)
    ensures m' == Copied(DiffusionFields[..k + 1], d)
  {
    var (field, name) := DiffusionFields[k];
    assert DiffusionFields[..k + 1][..k] == DiffusionFields[..k];
    m' := m;
    if field in d {
      CopiedMeaning(DiffusionFields[..k], d);
      DisplayNamesDistinct();
      forall i | 0 <= i < |m|
        ensures m[i].name != name
      {
        assert m[i] in m;
      }
      PutNew(m, name, Percent(d[field]));
      m' := Put(m, name, Percent(d[field]));
    }
  }

  /** The diffusion map of a response's `genai.diffusion` object: the
      eleven conditional copies of the source, taken in table order. */
  method CopyDiffusion(d: map<string, real>) returns (m: ScoreMap)
    ensures m == Copied(DiffusionFields, d)
  {
    m := [];
    for k := 0 to |DiffusionFields|
      invariant m == Copied(DiffusionFields[..k], d)
    {
      m := CopyField(m, d, k);
    }
    assert DiffusionFields[..|DiffusionFields|] == DiffusionFields;
  }

  /** `deepfake.score` as a percentage, 0 without a deepfake object. */
  function DeepfakeOr0(data: Response): int
  {
    if data.deepfake.Some? then Percent(data.deepfake.value.score) else 0
  }

  /** `transformSightengineResponse`. */
  method Transform(data: Response) returns (r: AnalysisResult)
    ensures data.genai.None? ==> r.categories.genai == 0 && r.diffusion == [] && r.gan == []
    ensures data.genai.Some? ==> r.categories.genai == Percent(data.genai.value.score)
    ensures data.genai.Some? && data.genai.value.diffusion.Some? ==>
      r.diffusion == Copied(DiffusionFields, data.genai.value.diffusion.value)
    ensures (data.genai.None? || data.genai.value.diffusion.None?) ==> r.diffusion == []
    ensures r.gan == [] || (|r.gan| == 1 && r.gan[0].name == "StyleGAN")
    ensures r.llm == [] && r.other == []
    ensures r.categories.deepfake == DeepfakeOr0(data)
    ensures data.deepfake.Some? ==> r.manipulation == [Entry("Deepfake", r.categories.deepfake)]
    ensures data.deepfake.None? ==> r.manipulation == []
    ensures data.faceAttributes.Some? && data.faceAttributes.value.manipulation.Some?
      ==> r.categories.faceManipulation == Max(DeepfakeOr0(data), Percent(data.faceAttributes.value.manipulation.value))
    ensures !(data.faceAttributes.Some? && data.faceAttributes.value.manipulation.Some?)
      ==> r.categories.faceManipulation == DeepfakeOr0(data)
    ensures r.categories.faceManipulation >= r.categories.deepfake
    ensures r.overall >= r.categories.genai && r.overall >= r.categories.faceManipulation
    ensures r.overall == r.categories.genai || r.overall == r.categories.faceManipulation
    ensures r.categories.bodyManipulation == 0 && r.categories.inpainting == 0 && r.categories.styleTransfer == 0
    ensures r.technicalDetails.None?
  {
    r := CopyGenai(data.genai);
    r := CopyDeepfake(r, data.deepfake);
    r := CopyFaceManipulation(r, data.faceAttributes);
    r := r.(overall := Max(Max(r.categories.genai, r.categories.faceManipulation), r.categories.deepfake));
  }

  /** The `genai` block of the mapping, applied to the all-zero record. */
  method CopyGenai(genai: Option<Genai>) returns (r: AnalysisResult)
    ensures r.categories == Categories(if genai.Some? then Percent(genai.value.score) else 0, 0, 0, 0, 0, 0)
    ensures r.diffusion == if genai.Some? && genai.value.diffusion.Some?
      then Copied(DiffusionFields, genai.value.diffusion.value) else []
    ensures r.gan == if genai.Some? && genai.value.gan.Some? && "stylegan" in genai.value.gan.value
      then [Entry("StyleGAN", Percent(genai.value.gan.value["stylegan"]))] else []
    ensures r.llm == [] && r.manipulation == [] && r.other == [] && r.technicalDetails.None?
  {
    r := Empty;
    if genai.Some? {
      var g := genai.value;
      r := r.(categories := r.categories.(genai := Percent(g.score)));
      r := r.(overall := r.categories.genai);
      if g.diffusion.Some? {
        var diffusion := CopyDiffusion(g.diffusion.value);
        r := r.(diffusion := diffusion);
      }
      if g.gan.Some? {
        if "stylegan" in g.gan.value {
          r := r.(gan := Put(r.gan, "StyleGAN", Percent(g.gan.value["stylegan"])));
        }
      }
    }
  }

  /** The `deepfake` block: the score sets the deepfake and face
      manipulation categories and a "Deepfake" manipulation entry. */
  method CopyDeepfake(r0: AnalysisResult, deepfake: Option<Deepfake>) returns (r: AnalysisResult)
    requires r0.manipulation == []
    ensures deepfake.None? ==> r == r0
    ensures deepfake.Some? ==> var p := Percent(deepfake.value.score);
      r == r0.(categories := r0.categories.(deepfake := p, faceManipulation := p), manipulation := [Entry("Deepfake", p)])
  {
    r := r0;
    if deepfake.Some? {
      r := r.(categories := r.categories.(deepfake := Percent(deepfake.value.score)));
      r := r.(categories := r.categories.(faceManipulation := r.categories.deepfake));
      r := r.(manipulation := Put(r.manipulation, "Deepfake", r.categories.deepfake));
    }
  }

  /** The `face_attributes` block: a manipulation score raises the face
      manipulation category to it. */
  method CopyFaceManipulation(r0: AnalysisResult, faceAttributes: Option<FaceAttributes>) returns (r: AnalysisResult)
    ensures faceAttributes.Some? && faceAttributes.value.manipulation.Some? ==>
      r == r0.(categories := r0.categories.(faceManipulation :=
        Max(r0.categories.faceManipulation, Percent(faceAttributes.value.manipulation.value))))
    ensures !(faceAttributes.Some? && faceAttributes.value.manipulation.Some?) ==> r == r0
  {
    r := r0;
    if faceAttributes.Some? {
      if faceAttributes.value.manipulation.Some? {
        var manipulationScore := Percent(faceAttributes.value.manipulation.value);
        r := r.(categories := r.categories.(faceManipulation := Max(r.categories.faceManipulation, manipulationScore)));
      }
    }
  }

  /** Every score of the response is a probability. */
  predicate ScoresInUnit(data: Response)
  {
    && (data.genai.Some? ==> 0.0 <= data.genai.value.score <= 1.0)
    && (data.deepfake.Some? ==> 0.0 <= data.deepfake.value.score <= 1.0)
    && (data.faceAttributes.Some? && data.faceAttributes.value.manipulation.Some?
        ==> 0.0 <= data.faceAttributes.value.manipulation.value <= 1.0)
  }

  /** With probabilities in the response, the overall score is a
      percentage and is one of the three category scores it is the maximum of. */
  method TransformInRange(data: Response) returns (r: AnalysisResult)
    requires ScoresInUnit(data)
    ensures 0 <= r.overall <= 100
    ensures 0 <= r.categories.deepfake <= r.categories.faceManipulation <= 100
  {
    r := Transform(data);
  }
}
