/** The mock detector `analyzeImage` of lib/analysis.ts: a file-name and
    image-characteristics gate picks a high or a low score range, every
    model score is `base + Math.floor(Math.random() * span)`, and the
    categories are maxima over the model scores, capped at 100. The random
    draws are a parameter, consumed in the order the source makes them. */
module Analysis {
  import opened Common
  import opened Results
  import ImageAnalysis

  /** One mock score: `name` gets `base + Math.floor(Math.random() * span)`. */
  datatype Rule = Rule(name: string, base: nat, span: nat)

  function RuleNames(rules: seq<Rule>): (ns: seq<string>)
    ensures |ns| == |rules| && forall i :: 0 <= i < |rules| ==> ns[i] == rules[i].name
  {
    seq(|rules|, i requires 0 <= i < |rules| => rules[i].name)
  }

  /** The entries the rules write, one draw each, in rule order; each value
      lies in `[base, base + span)`. */
  function Fill(rules: seq<Rule>, draws: seq<real>): (m: ScoreMap)
    requires |draws| >= |rules| && IsRandomStream(draws)
    ensures Names(m) == RuleNames(rules)
    ensures forall i :: 0 <= i < |m| ==>
      && rules[i].base <= m[i].value
      && (rules[i].span > 0 ==> m[i].value < rules[i].base + rules[i].span)
  {
    seq(|rules|, i requires 0 <= i < |rules| => Entry(rules[i].name, rules[i].base + Pick(draws[i], rules[i].span)))
  }

  /** Every rule draws from a non-empty range below `bound`. */
  predicate RulesBelow(rules: seq<Rule>, bound: nat)
  {
    forall i :: 0 <= i < |rules| ==> 0 < rules[i].span && rules[i].base + rules[i].span <= bound
  }

  /** Every value a rule list writes lies in `[0, bound)`. */
  lemma FillBelow(rules: seq<Rule>, draws: seq<real>, bound: nat)
    requires |draws| >= |rules| && IsRandomStream(draws) && RulesBelow(rules, bound)
    ensures forall x :: x in Values(Fill(rules, draws)) ==> 0 <= x < bound
  {
    var m := Fill(rules, draws);
    forall x | x in Values(m)
      ensures 0 <= x < bound
    {
      var i :| 0 <= i < |m| && Values(m)[i] == x;
    }
  }

  lemma NamesAppend(a: ScoreMap, b: ScoreMap)
    ensures Names(a + b) == Names(a) + Names(b)
    ensures Values(a + b) == Values(a) + Values(b)
  {
  }

  /** The diffusion scores after the optional Wan entry, high branch. */
  const HighDiffusion: seq<Rule> := [
    Rule("Stable Diffusion", 45, 20), Rule("MidJourney", 20, 15), Rule("DALL-E 3", 15, 10),
    Rule("DALL-E 2", 10, 8), Rule("Flux", 8, 7), Rule("Firefly", 5, 5), Rule("Imagen", 3, 4),
    Rule("Leonardo AI", 2, 3), Rule("Reve", 1, 2), Rule("Qwen", 1, 2), Rule("Ideogram", 1, 2),
    Rule("Recraft", 0, 2)]

  /** The same models, low branch. */
  const LowDiffusion: seq<Rule> := [
    Rule("Stable Diffusion", 0, 15), Rule("MidJourney", 0, 10), Rule("DALL-E 3", 0, 8),
    Rule("DALL-E 2", 0, 5), Rule("Flux", 0, 4), Rule("Firefly", 0, 3), Rule("Imagen", 0, 2),
    Rule("Leonardo AI", 0, 2), Rule("Reve", 0, 2), Rule("Qwen", 0, 2), Rule("Ideogram", 0, 2),
    Rule("Recraft", 0, 1)]

  const GanRules: seq<Rule> := [
    Rule("StyleGAN3", 0, 8), Rule("StyleGAN2", 0, 5), Rule("StyleGAN", 0, 4),
    Rule("BigGAN", 0, 3), Rule("ProGAN", 0, 2), Rule("PGGAN", 0, 2)]

  const LlmRules: seq<Rule> := [
    Rule("GPT-4 Vision", 0, 5), Rule("GPT-4o", 0, 4), Rule("Claude 3", 0, 3),
    Rule("Gemini Pro Vision", 0, 3)]

  const ManipulationRules: seq<Rule> := [
    Rule("Face Swap", 0, 12), Rule("Deepfake", 0, 10), Rule("Face Reenactment", 0, 8),
    Rule("Body Morphing", 0, 7), Rule("Age Progression/Regression", 0, 6),
    Rule("Expression Transfer", 0, 5), Rule("Hair Style Transfer", 0, 4),
    Rule("Inpainting", 0, 8), Rule("Object Removal", 0, 6), Rule("Style Transfer", 0, 5),
    Rule("Color Grading", 0, 4), Rule("Background Replacement", 0, 7),
    Rule("Super Resolution", 0, 3), Rule("Noise Reduction", 0, 2)]

  const OtherRules: seq<Rule> := [
    Rule("Metadata Anomaly", 0, 5), Rule("Compression Artifacts", 0, 4), Rule("Watermark Removal", 0, 3)]

  /** The most draws one analysis can make. */
  const MaxDraws: nat := 49

  /** High colour complexity, a face and few edges. */
  predicate LikelyAI(c: ImageAnalysis.Characteristics)
  {
    c.colorComplexity > 0.3 && c.hasFaces && c.edgeDensity < 0.3
  }

  /** The name tests of the gate, on the lower-cased name. */
  predicate NameHit(fileName: string)
  {
    var name := Lower(fileName);
    Contains(name, "ai") || Contains(name, "generated") || Contains(name, "test")
  }

  /** The gate of the high-score branch. */
  predicate HighBranch(fileName: string, c: ImageAnalysis.Characteristics)
  {
    NameHit(fileName) || LikelyAI(c)
  }

  /** The characteristics used: the measured ones, or the defaults when
      measuring threw. */
  function Measured(measured: Option<ImageAnalysis.Characteristics>): ImageAnalysis.Characteristics
  {
    if measured.Some? then measured.value else ImageAnalysis.Fallback
  }

  /** `x || d` on an optional dimension: absent or 0 gives the default. */
  function OrDefault(x: Option<nat>, d: nat): nat
  {
    if x.Some? && x.value != 0 then x.value else d
  }

  /** The score tables: every value stays below 100 and no table has a "Wan" key. */
  lemma TablesBelow100()
    ensures RulesBelow(HighDiffusion, 100) && RulesBelow(LowDiffusion, 100)
    ensures RulesBelow(GanRules, 100) && RulesBelow(LlmRules, 100)
    ensures RulesBelow(ManipulationRules, 100) && RulesBelow(OtherRules, 100)
    ensures "Wan" !in RuleNames(HighDiffusion) && "Wan" !in RuleNames(LowDiffusion)
  {
    DiffusionBelow100();
    OthersBelow100();
    NoSecondWan();
  }

  lemma DiffusionBelow100()
    ensures RulesBelow(HighDiffusion, 100) && RulesBelow(LowDiffusion, 100)
  {
  }

  lemma OthersBelow100()
    ensures RulesBelow(GanRules, 100) && RulesBelow(LlmRules, 100)
    ensures RulesBelow(ManipulationRules, 100) && RulesBelow(OtherRules, 100)
  {
  }

  /** No diffusion table writes "Wan": no name there has three characters. */
  lemma NoSecondWan()
    ensures "Wan" !in RuleNames(HighDiffusion) && "Wan" !in RuleNames(LowDiffusion)
  {
    forall i | 0 <= i < 12
      ensures |HighDiffusion[i].name| != 3 && |LowDiffusion[i].name| != 3
    {
    }
  }

  /** The high branch: `overall` in [85, 99] and an optional Wan entry in
      [85, 99] that `overall` is raised to. */
  method HighScores(fileName: string, c: ImageAnalysis.Characteristics, rand: seq<real>)
    returns (overall: int, wan: ScoreMap, used: nat)
    requires IsRandomStream(rand) && |rand| >= 3
    ensures 1 <= used <= 3 && 85 <= overall <= 99
    ensures wan == [] || (|wan| == 1 && wan[0].name == "Wan" && 85 <= wan[0].value <= overall)
    ensures Contains(fileName, "test") || (c.hasFaces && c.colorComplexity > 0.25) ==> wan != []
  {
    overall := 85 + Pick(rand[0], 15);
    used := 1;
    var addWan := Contains(fileName, "test") || (c.hasFaces && c.colorComplexity > 0.25);
    if !addWan {
      addWan := rand[used] > 0.3;
      used := used + 1;
    }
    wan := [];
    if addWan {
      var v := 85 + Pick(rand[used], 15);
      used := used + 1;
      wan := [Entry("Wan", v)];
      overall := Max(overall, v);
    }
  }

  /** The low branch: `overall` in [0, 29], and, only for an image with a
      face, an optional Wan entry in [60, 89] that `overall` is raised to. */
  method LowScores(c: ImageAnalysis.Characteristics, rand: seq<real>)
    returns (overall: int, wan: ScoreMap, used: nat)
    requires IsRandomStream(rand) && |rand| >= 3
    ensures 1 <= used <= 3 && 0 <= overall <= 89
    ensures wan == [] ==> overall <= 29
    ensures wan == [] || (|wan| == 1 && wan[0].name == "Wan" && 60 <= wan[0].value <= overall && c.hasFaces)
  {
    overall := Pick(rand[0], 30);
    used := 1;
    wan := [];
    if c.hasFaces {
      var draw := rand[used];
      used := used + 1;
      if draw > 0.5 {
        var v := 60 + Pick(rand[used], 30);
        used := used + 1;
        wan := [Entry("Wan", v)];
        overall := Max(overall, v);
      }
    }
  }

  /** The overall score and the diffusion map (lib/analysis.ts, the two
      branches of the gate). `used` is the number of draws taken. */
  method MockDiffusion(name: string, c: ImageAnalysis.Characteristics, rand: seq<real>)
    returns (overall: int, diffusion: ScoreMap, used: nat)
    requires IsRandomStream(rand) && |rand| >= 15
    ensures used <= 15
    ensures HighBranch(name, c) ==> 85 <= overall <= 99
    ensures !HighBranch(name, c) ==> 0 <= overall <= 89
    ensures HighBranch(name, c) ==>
      Names(diffusion) == (if "Wan" in Names(diffusion) then ["Wan"] else []) + RuleNames(HighDiffusion)
    ensures !HighBranch(name, c) ==>
      Names(diffusion) == (if "Wan" in Names(diffusion) then ["Wan"] else []) + RuleNames(LowDiffusion)
    ensures "Wan" in Names(diffusion) ==> diffusion[0].value <= overall
    ensures !HighBranch(name, c) && !c.hasFaces ==> "Wan" !in Names(diffusion) && overall <= 29
    ensures forall x :: x in Values(diffusion) ==> 0 <= x <= 99
  {
    DiffusionBelow100();
    NoSecondWan();
    var rules: seq<Rule>;
    var wan: ScoreMap;
    if HighBranch(name, c) {
      overall, wan, used := HighScores(Lower(name), c, rand[..3]);
      rules := HighDiffusion;
    } else {
      overall, wan, used := LowScores(c, rand[..3]);
      rules := LowDiffusion;
    }
    var draws := rand[used..used + 12];
    var filled := Fill(rules, draws);
    FillBelow(rules, draws, 100);
    used := used + 12;
    diffusion := wan + filled;
    WanFirst(wan, filled, rules);
  }

  /** An optional Wan entry followed by a table without "Wan": "Wan" is
      present exactly when the entry is, and then comes first. */
  lemma WanFirst(wan: ScoreMap, filled: ScoreMap, rules: seq<Rule>)
    requires wan == [] || (|wan| == 1 && wan[0].name == "Wan")
    requires Names(filled) == RuleNames(rules) && "Wan" !in RuleNames(rules)
    ensures "Wan" in Names(wan + filled) <==> wan != []
    ensures Names(wan + filled) == (if wan != [] then ["Wan"] else []) + RuleNames(rules)
    ensures Values(wan + filled) == Values(wan) + Values(filled)
  {
    NamesAppend(wan, filled);
  }

  /** The six categories (lib/analysis.ts, the category block and the 100
      cap of the returned object): `genai` is the largest diffusion, GAN or
      LLM score; a missing manipulation key reads as 0. */
  function CategoriesOf(diffusion: ScoreMap, gan: ScoreMap, llm: ScoreMap, manipulation: ScoreMap): (k: Categories)
    requires |diffusion| + |gan| + |llm| > 0
    ensures var all := Values(diffusion) + Values(gan) + Values(llm);
      && (forall x :: x in all ==> Min(100, x) <= k.genai)
      && (exists x :: x in all && k.genai == Min(100, x))
    ensures k.faceManipulation >= k.deepfake
    ensures k.deepfake == Min(100, ValueOr0(manipulation, "Deepfake"))
    ensures k.styleTransfer
         == Min(100, Max(ValueOr0(manipulation, "Style Transfer"), ValueOr0(manipulation, "Hair Style Transfer")))
    ensures k.genai <= 100 && k.faceManipulation <= 100 && k.bodyManipulation <= 100
         && k.deepfake <= 100 && k.inpainting <= 100 && k.styleTransfer <= 100
  {
    var all := Values(diffusion) + Values(gan) + Values(llm);
    var faceManipulation := Max(Max(ValueOr0(manipulation, "Face Swap"), ValueOr0(manipulation, "Deepfake")),
                                ValueOr0(manipulation, "Face Reenactment"));
    Categories(
      Min(100, MaxOf(all)),
      Min(100, faceManipulation),
      Min(100, ValueOr0(manipulation, "Body Morphing")),
      Min(100, ValueOr0(manipulation, "Deepfake")),
      Min(100, ValueOr0(manipulation, "Inpainting")),
      Min(100, Max(ValueOr0(manipulation, "Style Transfer"), ValueOr0(manipulation, "Hair Style Transfer"))))
  }

  /** A read with default 0 from a map of scores in [0, 99] lies in [0, 99]. */
  lemma ValueOr0InRange(m: ScoreMap, key: string)
    requires forall x :: x in Values(m) ==> 0 <= x <= 99
    ensures 0 <= ValueOr0(m, key) <= 99
  {
    var v := Get(m, key);
    if v.Some? {
      var i :| 0 <= i < |m| && m[i] == Entry(key, v.value);
      assert Values(m)[i] == v.value;
      assert v.value in Values(m);
    }
  }

  /** With every score in [0, 99], every category is one of the scores or
      0, so lies in [0, 99]. */
  lemma CategoriesInRange(diffusion: ScoreMap, gan: ScoreMap, llm: ScoreMap, manipulation: ScoreMap)
    requires |diffusion| + |gan| + |llm| > 0
    requires forall x :: x in Values(diffusion) ==> 0 <= x <= 99
    requires forall x :: x in Values(gan) ==> 0 <= x <= 99
    requires forall x :: x in Values(llm) ==> 0 <= x <= 99
    requires forall x :: x in Values(manipulation) ==> 0 <= x <= 99
    ensures var k := CategoriesOf(diffusion, gan, llm, manipulation);
      && 0 <= k.genai <= 99 && 0 <= k.faceManipulation <= 99 && 0 <= k.bodyManipulation <= 99
      && 0 <= k.deepfake <= 99 && 0 <= k.inpainting <= 99 && 0 <= k.styleTransfer <= 99
  {
    var all := Values(diffusion) + Values(gan) + Values(llm);
    assert forall x :: x in all ==> 0 <= x <= 99;
    assert MaxOf(all) in all;
    ValueOr0InRange(manipulation, "Face Swap");
    ValueOr0InRange(manipulation, "Deepfake");
    ValueOr0InRange(manipulation, "Face Reenactment");
    ValueOr0InRange(manipulation, "Body Morphing");
    ValueOr0InRange(manipulation, "Inpainting");
    ValueOr0InRange(manipulation, "Style Transfer");
    ValueOr0InRange(manipulation, "Hair Style Transfer");
  }

  /** The technical details (lib/analysis.ts, the `technicalDetails`
      object): dimensions fall back to 1920x1080, face and text counts are
      drawn only when the characteristics report faces or text. */
  method MockTechnicalDetails(c: ImageAnalysis.Characteristics, fileSize: nat, overall: int, rand: seq<real>)
    returns (t: TechnicalDetails)
    requires IsRandomStream(rand) && |rand| >= 7
    ensures t.width == OrDefault(c.width, 1920) && t.height == OrDefault(c.height, 1080)
    ensures t.fileSize == fileSize && t.colorDepth == 24
    ensures t.compressionRatio == fileSize as real / ((t.width * t.height * 3) as real)
    ensures t.entropy == c.colorComplexity * 8.0 && t.edgeDensity == c.edgeDensity
    ensures t.colorComplexity == c.colorComplexity
    ensures t.hasFaces == c.hasFaces && t.hasText == c.hasText
    ensures |t.metadataAnomalies| == 3 <==> overall > 70
    ensures overall <= 70 ==> t.metadataAnomalies == []
    ensures |t.processingHistory| == 4
    ensures t.processingHistory[3] == (if overall > 70 then "AI generation detected" else "Standard processing")
    ensures t.faceCount.Some? <==> c.hasFaces
    ensures t.faceCount.Some? ==> 1 <= t.faceCount.value <= 3
    ensures t.textRegions.Some? <==> c.hasText
    ensures t.textRegions.Some? ==> 1 <= t.textRegions.value <= 5
    ensures 0.0 <= t.noiseLevel < 0.3 && 0.5 <= t.sharpness < 0.9
    ensures 0.0 <= t.artifacts.compression < 0.2 && 0.0 <= t.artifacts.quantization < 0.15
    ensures 0.0 <= t.artifacts.blocking < 0.1
  {
    var k := 0;
    var width := OrDefault(c.width, 1920);
    var height := OrDefault(c.height, 1080);
    var faceCount: Option<nat> := None;
    if c.hasFaces {
      faceCount := Some(Pick(rand[k], 3) + 1);
      k := k + 1;
    }
    var textRegions: Option<nat> := None;
    if c.hasText {
      textRegions := Some(Pick(rand[k], 5) + 1);
      k := k + 1;
    }
    var noiseLevel := rand[k] * 0.3;
    var sharpness := 0.5 + rand[k + 1] * 0.4;
    var artifacts := Artifacts(rand[k + 2] * 0.2, rand[k + 3] * 0.15, rand[k + 4] * 0.1);
    t := TechnicalDetails(
      width, height, fileSize, 24,
      fileSize as real / ((width * height * 3) as real),
      c.colorComplexity * 8.0, c.edgeDensity, c.colorComplexity,
      c.hasFaces, faceCount, c.hasText, textRegions,
      noiseLevel, sharpness, artifacts,
      if overall > 70 then ["Missing EXIF data", "Inconsistent timestamps", "Unusual color profile"] else [],
      ["Image loaded", "Color space conversion", "Compression applied",
       if overall > 70 then "AI generation detected" else "Standard processing"]);
  }

  /** `analyzeImage` from the lower-cased name on: `measured` is what
      `analyzeImageCharacteristics` produced, `None` when it threw. */
  method AnalyzeImage(name: string, fileSize: nat, measured: Option<ImageAnalysis.Characteristics>, rand: seq<real>)
    returns (r: AnalysisResult)
    requires IsRandomStream(rand) && |rand| >= MaxDraws
    ensures HighBranch(name, Measured(measured)) ==> 85 <= r.overall <= 99
    ensures !HighBranch(name, Measured(measured)) ==> 0 <= r.overall <= 89
    ensures !HighBranch(name, Measured(measured)) && !Measured(measured).hasFaces ==> r.overall <= 29
    ensures Names(r.gan) == RuleNames(GanRules) && Names(r.llm) == RuleNames(LlmRules)
    ensures Names(r.manipulation) == RuleNames(ManipulationRules) && Names(r.other) == RuleNames(OtherRules)
    ensures r.categories == CategoriesOf(r.diffusion, r.gan, r.llm, r.manipulation)
    ensures var k := r.categories;
      && 0 <= k.genai <= 99 && 0 <= k.faceManipulation <= 99 && 0 <= k.bodyManipulation <= 99
      && 0 <= k.deepfake <= 99 && 0 <= k.inpainting <= 99 && 0 <= k.styleTransfer <= 99
    ensures r.technicalDetails.Some?
    ensures var t := r.technicalDetails.value;
      && (|t.metadataAnomalies| == 3 <==> r.overall > 70)
      && (t.faceCount.Some? <==> Measured(measured).hasFaces)
      && (t.textRegions.Some? <==> Measured(measured).hasText)
  {
    var c := Measured(measured);
    var overall, diffusion, k := MockDiffusion(name, c, rand[..15]);

    var gan, llm, manipulation, other := MockTables(rand[k..k + 27]);
    k := k + 27;
    var technicalDetails := MockTechnicalDetails(c, fileSize, overall, rand[k..k + 7]);
    CategoriesInRange(diffusion, gan, llm, manipulation);
    r := AnalysisResult(
      Min(100, overall), CategoriesOf(diffusion, gan, llm, manipulation),
      diffusion, gan, llm, manipulation, other, Some(technicalDetails));
  }

  /** The GAN, LLM, manipulation and other tables, filled in that order
      from the next 27 draws. */
  method MockTables(rand: seq<real>) returns (gan: ScoreMap, llm: ScoreMap, manipulation: ScoreMap, other: ScoreMap)
    requires IsRandomStream(rand) && |rand| >= 27
    ensures Names(gan) == RuleNames(GanRules) && Names(llm) == RuleNames(LlmRules)
    ensures Names(manipulation) == RuleNames(ManipulationRules) && Names(other) == RuleNames(OtherRules)
    ensures forall x :: x in Values(gan) ==> 0 <= x <= 99
    ensures forall x :: x in Values(llm) ==> 0 <= x <= 99
    ensures forall x :: x in Values(manipulation) ==> 0 <= x <= 99
  {
    TablesBelow100();
    gan := Fill(GanRules, rand[..6]);
    FillBelow(GanRules, rand[..6], 100);
    llm := Fill(LlmRules, rand[6..10]);
    FillBelow(LlmRules, rand[6..10], 100);
    manipulation := Fill(ManipulationRules, rand[10..24]);
    FillBelow(ManipulationRules, rand[10..24], 100);
    other := Fill(OtherRules, rand[24..27]);
  }

  // -------------------------------------------------------------- lemmas

  /** The gate ignores letter case in the file name. */
  lemma HighBranchIgnoresCase(fileName: string, c: ImageAnalysis.Characteristics)
    ensures HighBranch(fileName, c) == HighBranch(Lower(fileName), c)
  {
    LowerIdempotent(fileName);
  }

  /** Any name with the letters "ai" next to each other, in either case,
      takes the high branch, even where they are part of a longer word
      ("portrait", "Mountain", "email"). */
  lemma AiAnywhereIsHigh(fileName: string, i: nat, c: ImageAnalysis.Characteristics)
    requires i + 1 < |fileName| && LowerChar(fileName[i]) == 'a' && LowerChar(fileName[i + 1]) == 'i'
    ensures HighBranch(fileName, c)
  {
    var name := Lower(fileName);
    assert name[i..i + 2] == "ai";
    ContainsAt(name, "ai", i);
  }

  /** A name with neither an `a` nor an `e`, in either case, contains none
      of the keywords: it takes the high branch exactly when the
      characteristics look generated. */
  lemma PlainNameNeedsCharacteristics(fileName: string, c: ImageAnalysis.Characteristics)
    requires forall i :: 0 <= i < |fileName| ==> LowerChar(fileName[i]) != 'a' && LowerChar(fileName[i]) != 'e'
    ensures HighBranch(fileName, c) <==> LikelyAI(c)
  {
    var name := Lower(fileName);
    assert 'a' !in name && 'e' !in name;
    MissingCharacter(name, "ai", 0);
    MissingCharacter(name, "generated", 1);
    MissingCharacter(name, "test", 1);
  }

  /** A string that lacks one of the characters of `t` does not include `t`. */
  lemma {:induction false} MissingCharacter(s: string, t: string, j: nat)
    requires j < |t| && t[j] !in s
    ensures !Contains(s, t)
    decreases |s|
  {
    if |s| > 0 {
      MissingCharacter(s[1..], t, j);
    }
  }
}
