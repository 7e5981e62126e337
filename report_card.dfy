/** The summary card (app/components/ReportCard.tsx): score bands, the
    category rows that are shown, and the ranked model lists. */
module ReportCard {
  import opened Common
  import opened Results
  import opened Ranking

  datatype Icon = AlertCircle | AlertTriangle | CheckCircle

  /** `getScoreColor`. */
  function ScoreColor(score: int): string
  {
    if score > 70 then "text-red-600" else if score > 40 then "text-yellow-600" else "text-green-600"
  }

  /** `getScoreBgColor`. */
  function ScoreBgColor(score: int): string
  {
    if score > 70 then "bg-red-500" else if score > 40 then "bg-yellow-500" else "bg-green-500"
  }

  /** `getScoreIcon`. */
  function ScoreIcon(score: int): Icon
  {
    if score > 70 then AlertCircle else if score > 40 then AlertTriangle else CheckCircle
  }

  /** `getScoreLabel`. */
  function ScoreLabel(score: int): string
  {
    if score > 70 then "High AI Likelihood" else if score > 40 then "Moderate AI Likelihood" else "Low AI Likelihood"
  }

  /** The label names the band, and the colour, background and icon change
      exactly where the label does: all four use the same thresholds. */
  lemma ScoreBands(s: int, t: int)
    ensures ScoreLabel(s) == "High AI Likelihood" <==> s > 70
    ensures ScoreLabel(s) == "Moderate AI Likelihood" <==> 40 < s <= 70
    ensures ScoreLabel(s) == "Low AI Likelihood" <==> s <= 40
    ensures ScoreLabel(s) == ScoreLabel(t) <==> ScoreColor(s) == ScoreColor(t)
    ensures ScoreLabel(s) == ScoreLabel(t) <==> ScoreBgColor(s) == ScoreBgColor(t)
    ensures ScoreLabel(s) == ScoreLabel(t) <==> ScoreIcon(s) == ScoreIcon(t)
  {
  }

  /** A row shown only when its value is above 0. */
  function IfPositive(title: string, v: int): seq<(string, int)>
  {
    if v > 0 then [(title, v)] else []
  }

  /** The category rows in display order: Generative AI and Face
      Manipulation always, the other four only when above 0. */
  function CategoryRows(k: Categories): seq<(string, int)>
  {
    [("Generative AI", k.genai), ("Face Manipulation", k.faceManipulation)]
    + IfPositive("Body Manipulation", k.bodyManipulation)
    + IfPositive("Deepfake", k.deepfake)
    + IfPositive("Inpainting", k.inpainting)
    + IfPositive("Style Transfer", k.styleTransfer)
  }

  lemma CategoryRowsShown(k: Categories)
    ensures var rows := CategoryRows(k);
      && 2 <= |rows| <= 6
      && rows[0] == ("Generative AI", k.genai) && rows[1] == ("Face Manipulation", k.faceManipulation)
      && (forall i :: 2 <= i < |rows| ==> rows[i].1 > 0)
      && (("Body Manipulation", k.bodyManipulation) in rows <==> k.bodyManipulation > 0)
      && (("Deepfake", k.deepfake) in rows <==> k.deepfake > 0)
      && (("Inpainting", k.inpainting) in rows <==> k.inpainting > 0)
      && (("Style Transfer", k.styleTransfer) in rows <==> k.styleTransfer > 0)
  {
    var rows := CategoryRows(k);
    var tail := IfPositive("Body Manipulation", k.bodyManipulation) + IfPositive("Deepfake", k.deepfake)
      + IfPositive("Inpainting", k.inpainting) + IfPositive("Style Transfer", k.styleTransfer);
    assert rows == [("Generative AI", k.genai), ("Face Manipulation", k.faceManipulation)] + tail;
    assert forall i :: 0 <= i < |tail| ==> tail[i].1 > 0;
    // the titles differ in length or in their first letter
    assert "Body Manipulation"[0] != "Face Manipulation"[0];
    assert |"Body Manipulation"| !in {|"Generative AI"|, |"Deepfake"|, |"Inpainting"|, |"Style Transfer"|};
    assert |"Deepfake"| !in {|"Generative AI"|, |"Face Manipulation"|, |"Inpainting"|, |"Style Transfer"|};
    assert |"Inpainting"| !in {|"Generative AI"|, |"Face Manipulation"|, |"Style Transfer"|};
    assert |"Style Transfer"| !in {|"Generative AI"|, |"Face Manipulation"|};
    CategoryRowMember(k, ("Body Manipulation", k.bodyManipulation));
    CategoryRowMember(k, ("Deepfake", k.deepfake));
    CategoryRowMember(k, ("Inpainting", k.inpainting));
    CategoryRowMember(k, ("Style Transfer", k.styleTransfer));
  }

  lemma CategoryRowMember(k: Categories, x: (string, int))
    ensures x in CategoryRows(k) <==>
      || x == ("Generative AI", k.genai) || x == ("Face Manipulation", k.faceManipulation)
      || x in IfPositive("Body Manipulation", k.bodyManipulation) || x in IfPositive("Deepfake", k.deepfake)
      || x in IfPositive("Inpainting", k.inpainting) || x in IfPositive("Style Transfer", k.styleTransfer)
  {
  }

  function Value(e: Entry): int
  {
    e.value
  }

  predicate Positive(e: Entry)
  {
    e.value > 0
  }

  /** A model list as displayed: the entries above 0, highest first. */
  function Listed(m: ScoreMap): seq<Entry>
  {
    SortDesc(Filter(m, Positive), Value)
  }

  /** The list holds exactly the positive entries, once each as often as in
      the map, in non-increasing order. */
  lemma ListedMeaning(m: ScoreMap)
    ensures forall e :: e in Listed(m) <==> e in m && e.value > 0
    ensures multiset(Listed(m)) == multiset(Filter(m, Positive))
    ensures SortedDesc(Listed(m), Value)
  {
    SortDescFacts(Filter(m, Positive), Value);
    SortDescMembers(Filter(m, Positive), Value);
    forall e | e in m && e.value > 0
      ensures e in Filter(m, Positive)
    {
      FilterKeeps(m, Positive, e);
    }
  }

  /** The manipulation list: at most ten entries of `Listed`. */
  function TopManipulations(m: ScoreMap): seq<Entry>
  {
    SliceTo(Listed(m), 10)
  }

  /** At most ten positive entries, highest first, and no positive entry
      left out is higher than one shown. */
  lemma TopManipulationsMeaning(m: ScoreMap)
    ensures var top := TopManipulations(m);
      && |top| <= 10
      && (forall e :: e in top ==> e in m && e.value > 0)
      && SortedDesc(top, Value)
      && (forall e, x :: e in m && e.value > 0 && e !in top && x in top ==> x.value >= e.value)
      && (|Filter(m, Positive)| <= 10 ==> top == Listed(m))
  {
    var listed := Listed(m);
    ListedMeaning(m);
    SortDescFacts(Filter(m, Positive), Value);
    assert |listed| == |Filter(m, Positive)|;
    var n := Min(10, |listed|);
    assert TopManipulations(m) == listed[..n];
    SortedPrefix(listed, n, Value);
    NoneSkipped(m);
  }

  /** No positive entry left out of the manipulation list is higher than
      one shown. */
  lemma NoneSkipped(m: ScoreMap)
    ensures var top := TopManipulations(m);
      forall e, x :: e in m && e.value > 0 && e !in top && x in top ==> x.value >= e.value
  {
    var listed := Listed(m);
    ListedMeaning(m);
    var n := Min(10, |listed|);
    var top := listed[..n];
    assert TopManipulations(m) == top;
    SortedPrefix(listed, n, Value);
    forall e, x | e in m && e.value > 0 && e !in top && x in top
      ensures x.value >= e.value
    {
      var j :| 0 <= j < |listed| && listed[j] == e;
      var i :| 0 <= i < n && top[i] == x;
    }
  }

  /** A prefix of a non-increasing list is non-increasing, and no element
      after it is larger than one in it. */
  lemma SortedPrefix<T>(s: seq<T>, n: nat, key: T -> int)
    requires SortedDesc(s, key) && n <= |s|
    ensures SortedDesc(s[..n], key)
    ensures forall i, j :: 0 <= i < n <= j < |s| ==> key(s[..n][i]) >= key(s[j])
  {
  }

  /** The model sections of the card, in display order. */
  datatype Section = DiffusionModels | GanModels | LlmGeneration | ManipulationTypes | OtherDetections

  /** Some entry of the map is above 0. */
  predicate AnyPositive(m: ScoreMap)
  {
    exists e :: e in m && e.value > 0
  }

  /** The sections shown. The diffusion section shows for any non-empty
      map; the others need a positive entry. */
  function Sections(r: AnalysisResult): seq<Section>
  {
    (if |r.diffusion| > 0 then [DiffusionModels] else [])
    + (if AnyPositive(r.gan) then [GanModels] else [])
    + (if AnyPositive(r.llm) then [LlmGeneration] else [])
    + (if AnyPositive(r.manipulation) then [ManipulationTypes] else [])
    + (if AnyPositive(r.other) then [OtherDetections] else [])
  }

  /** A list is non-empty exactly when the map has a positive entry. */
  lemma ListedNonEmpty(m: ScoreMap)
    ensures Listed(m) != [] <==> AnyPositive(m)
  {
    ListedMeaning(m);
    if Listed(m) != [] {
      assert Listed(m)[0] in Listed(m);
    }
  }

  /** A section other than diffusion shows exactly when its list is not
      empty; the diffusion section shows for a non-empty map even when
      every value is 0, and then lists nothing. */
  lemma SectionsShown(r: AnalysisResult)
    ensures GanModels in Sections(r) <==> Listed(r.gan) != []
    ensures LlmGeneration in Sections(r) <==> Listed(r.llm) != []
    ensures ManipulationTypes in Sections(r) <==> Listed(r.manipulation) != []
    ensures OtherDetections in Sections(r) <==> Listed(r.other) != []
    ensures DiffusionModels in Sections(r) <==> |r.diffusion| > 0
    ensures !AnyPositive(r.diffusion) ==> Listed(r.diffusion) == []
  {
    SectionMembers(r);
    ListedNonEmpty(r.gan);
    ListedNonEmpty(r.llm);
    ListedNonEmpty(r.manipulation);
    ListedNonEmpty(r.other);
    ListedNonEmpty(r.diffusion);
  }

  lemma SectionMembers(r: AnalysisResult)
    ensures GanModels in Sections(r) <==> AnyPositive(r.gan)
    ensures LlmGeneration in Sections(r) <==> AnyPositive(r.llm)
    ensures ManipulationTypes in Sections(r) <==> AnyPositive(r.manipulation)
    ensures OtherDetections in Sections(r) <==> AnyPositive(r.other)
    ensures DiffusionModels in Sections(r) <==> |r.diffusion| > 0
  {
    InSections(r, DiffusionModels);
    InSections(r, GanModels);
    InSections(r, LlmGeneration);
    InSections(r, ManipulationTypes);
    InSections(r, OtherDetections);
  }

  lemma InSections(r: AnalysisResult, x: Section)
    ensures x in Sections(r) <==>
      || (x == DiffusionModels && |r.diffusion| > 0)
      || (x == GanModels && AnyPositive(r.gan))
      || (x == LlmGeneration && AnyPositive(r.llm))
      || (x == ManipulationTypes && AnyPositive(r.manipulation))
      || (x == OtherDetections && AnyPositive(r.other))
  {
  }
}
