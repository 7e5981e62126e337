/** The chart series (app/components/ChartView.tsx): each model map becomes
    a list of bar points with a shortened label, and the categories become
    a seven-point radar. Scores are integers here, so `Math.round` leaves
    every value as it is. */
module ChartView {
  import opened Common
  import opened Results
  import opened Ranking
  import ReportCard

  /** A bar: the shortened label, the value and the original name. */
  datatype Point = Point(name: string, value: int, fullName: string)

  datatype RadarPoint = RadarPoint(category: string, value: int, fullMark: nat)

  /** `name.length > limit ? name.substring(0, limit) + '...' : name`. */
  function Shorten(name: string, limit: nat): (r: string)
    ensures |name| <= limit ==> r == name
    ensures |name| > limit ==> |r| == limit + 3 && r[..limit] == name[..limit] && r[limit..] == "..."
  {
    if |name| > limit then name[..limit] + "..." else name
  }

  function ToPoint(limit: nat): Entry -> Point
  {
    (e: Entry) => Point(Shorten(e.name, limit), e.value, e.name)
  }

  function PointValue(p: Point): int
  {
    p.value
  }

  function FullNames(ps: seq<Point>): seq<string>
  {
    Map(ps, (p: Point) => p.fullName)
  }

  /** The diffusion bars: positive entries, labels cut at 15, sorted by value. */
  function DiffusionData(m: ScoreMap): seq<Point>
  {
    SortDesc(Map(Filter(m, ReportCard.Positive), ToPoint(15)), PointValue)
  }

  /** The GAN and LLM bars: positive entries in map order, labels cut at 15. */
  function PlainData(m: ScoreMap): seq<Point>
  {
    Map(Filter(m, ReportCard.Positive), ToPoint(15))
  }

  /** The manipulation bars: the ten highest positive entries, labels cut at 20. */
  function ManipulationData(m: ScoreMap): seq<Point>
  {
    Map(ReportCard.TopManipulations(m), ToPoint(20))
  }

  /** The chart lists the same diffusion models, in the same order and with
      the same values, as the report card. */
  lemma DiffusionMatchesReport(m: ScoreMap)
    ensures DiffusionData(m) == Map(ReportCard.Listed(m), ToPoint(15))
    ensures FullNames(DiffusionData(m)) == Names(ReportCard.Listed(m))
    ensures SortedDesc(DiffusionData(m), PointValue)
  {
    SortDescMap(Filter(m, ReportCard.Positive), ToPoint(15), ReportCard.Value, PointValue);
    SortDescFacts(Map(Filter(m, ReportCard.Positive), ToPoint(15)), PointValue);
  }

  /** Every bar has a positive value, a label of at most `limit + 3`
      characters, and its full name comes from an entry of the map with that value. */
  lemma PointsMeaning(m: ScoreMap)
    ensures forall p :: p in PlainData(m) ==> p.value > 0 && |p.name| <= 18 && Entry(p.fullName, p.value) in m
    ensures forall p :: p in ManipulationData(m) ==> p.value > 0 && |p.name| <= 23 && Entry(p.fullName, p.value) in m
    ensures |ManipulationData(m)| <= 10
  {
    var f := Filter(m, ReportCard.Positive);
    forall p | p in PlainData(m)
      ensures p.value > 0 && |p.name| <= 18 && Entry(p.fullName, p.value) in m
    {
      var i :| 0 <= i < |f| && p == ToPoint(15)(f[i]);
      assert f[i] in f;
    }
    ReportCard.TopManipulationsMeaning(m);
    var top := ReportCard.TopManipulations(m);
    forall p | p in ManipulationData(m)
      ensures p.value > 0 && |p.name| <= 23 && Entry(p.fullName, p.value) in m
    {
      var i :| 0 <= i < |top| && p == ToPoint(20)(top[i]);
      assert top[i] in top;
    }
  }

  /** The GAN and LLM bars keep the order of the map. */
  lemma PlainDataInOrder(m: ScoreMap)
    ensures FullNames(PlainData(m)) == Names(Filter(m, ReportCard.Positive))
    ensures Subsequence(Filter(m, ReportCard.Positive), m)
  {
    FilterIsSubsequence(m, ReportCard.Positive);
  }

  /** The radar: overall and the six categories, each out of 100. */
  function RadarData(r: AnalysisResult): (radar: seq<RadarPoint>)
    ensures |radar| == 7 && forall i :: 0 <= i < 7 ==> radar[i].fullMark == 100
    ensures radar[0].value == r.overall && radar[1].value == r.categories.genai
    ensures radar[2].value == r.categories.faceManipulation && radar[3].value == r.categories.bodyManipulation
    ensures radar[4].value == r.categories.deepfake && radar[5].value == r.categories.inpainting
    ensures radar[6].value == r.categories.styleTransfer
  {
    [RadarPoint("Overall", r.overall, 100),
     RadarPoint("GenAI", r.categories.genai, 100),
     RadarPoint("Face Manip", r.categories.faceManipulation, 100),
     RadarPoint("Body Manip", r.categories.bodyManipulation, 100),
     RadarPoint("Deepfake", r.categories.deepfake, 100),
     RadarPoint("Inpainting", r.categories.inpainting, 100),
     RadarPoint("Style Transfer", r.categories.styleTransfer, 100)]
  }
}
