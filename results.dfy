/** The analysis result record shared by the mock analysis, the Sightengine
    mapping, the routes and the report components (the `AnalysisResult` and
    `TechnicalDetails` interfaces of lib/analysis.ts). A score map is a
    JavaScript object with string keys, whose entries enumerate in insertion
    order; it is modelled as a list of named entries. */
module Results {
  import opened Common

  datatype Entry = Entry(name: string, value: int)

  type ScoreMap = seq<Entry>

  function Names(m: ScoreMap): (ns: seq<string>)
    ensures |ns| == |m| && forall i :: 0 <= i < |m| ==> ns[i] == m[i].name
  {
    seq(|m|, i requires 0 <= i < |m| => m[i].name)
  }

  /** `Object.values(m)`. */
  function Values(m: ScoreMap): (vs: seq<int>)
    ensures |vs| == |m| && forall i :: 0 <= i < |m| ==> vs[i] == m[i].value
  {
    seq(|m|, i requires 0 <= i < |m| => m[i].value)
  }

  /** No key occurs twice, as in a JavaScript object. */
  predicate DistinctNames(m: ScoreMap)
  {
    forall i, j :: 0 <= i < j < |m| ==> m[i].name != m[j].name
  }

  /** `m[k]`: the value under `k`, if any. */
  function Get(m: ScoreMap, k: string): (r: Option<int>)
    ensures r.None? <==> k !in Names(m)
    ensures r.Some? ==> exists i :: 0 <= i < |m| && m[i] == Entry(k, r.value)
  {
    if m == [] then None
    else if m[0].name == k then Some(m[0].value)
    else
      assert Names(m) == [m[0].name] + Names(m[1..]);
      var r := Get(m[1..], k);
      assert r.Some? ==> exists i :: 0 <= i < |m[1..]| && m[1..][i] == Entry(k, r.value);
      r
  }

  /** `m[k] || 0`: a missing key reads as 0 (a stored 0 is falsy, but
      replacing it by 0 changes nothing). */
  function ValueOr0(m: ScoreMap, k: string): int
  {
    match Get(m, k)
    case Some(v) => v
    case None => 0
  }

  /** `m[k] = v`. */
  function Put(m: ScoreMap, k: string, v: int): (r: ScoreMap)
    ensures |r| == |m| || |r| == |m| + 1
  {
    if m == [] then [Entry(k, v)]
    else if m[0].name == k then [Entry(k, v)] + m[1..]
    else [m[0]] + Put(m[1..], k, v)
  }

  /** A new key goes last; an existing key keeps its place. */
  lemma {:induction false} PutNames(m: ScoreMap, k: string, v: int)
    ensures Names(Put(m, k, v)) == if k in Names(m) then Names(m) else Names(m) + [k]
  {
    if m == [] {
      assert Names([Entry(k, v)]) == [k];
    } else {
      var tail := m[1..];
      NamesCons(m[0], tail);
      assert m == [m[0]] + tail;
      if m[0].name == k {
        NamesCons(Entry(k, v), tail);
      } else {
        PutNames(tail, k, v);
        NamesCons(m[0], Put(tail, k, v));
      }
    }
  }

  lemma NamesCons(e: Entry, t: ScoreMap)
    ensures Names([e] + t) == [e.name] + Names(t)
  {
  }

  /** After `m[k] = v`, reading `k` gives `v` and every other key reads as before. */
  lemma {:induction false} PutGet(m: ScoreMap, k: string, v: int, j: string)
    ensures Get(Put(m, k, v), k) == Some(v)
    ensures j != k ==> Get(Put(m, k, v), j) == Get(m, j)
  {
    if m != [] && m[0].name != k {
      PutGet(m[1..], k, v, j);
      assert Put(m, k, v)[1..] == Put(m[1..], k, v);
    }
  }

  /** A key not yet present is appended at the end. */
  lemma {:induction false} PutNew(m: ScoreMap, k: string, v: int)
    requires k !in Names(m)
    ensures Put(m, k, v) == m + [Entry(k, v)]
  {
    if m != [] {
      var tail := m[1..];
      assert m == [m[0]] + tail;
      NamesCons(m[0], tail);
      PutNew(tail, k, v);
      assert Put(m, k, v) == [m[0]] + (tail + [Entry(k, v)]);
    }
  }

  lemma PutKeepsDistinct(m: ScoreMap, k: string, v: int)
    requires DistinctNames(m)
    ensures DistinctNames(Put(m, k, v))
  {
    var r := Put(m, k, v);
    PutNames(m, k, v);
    forall i, j | 0 <= i < j < |r|
      ensures r[i].name != r[j].name
    {
      assert Names(r)[i] == r[i].name && Names(r)[j] == r[j].name;
    }
  }

  datatype Categories = Categories(
    genai: int,
    faceManipulation: int,
    bodyManipulation: int,
    deepfake: int,
    inpainting: int,
    styleTransfer: int)

  datatype Artifacts = Artifacts(compression: real, quantization: real, blocking: real)

  datatype TechnicalDetails = TechnicalDetails(
    width: nat,
    height: nat,
    fileSize: nat,
    colorDepth: nat,
    compressionRatio: real,
    entropy: real,
    edgeDensity: real,
    colorComplexity: real,
    hasFaces: bool,
    faceCount: Option<nat>,
    hasText: bool,
    textRegions: Option<nat>,
    noiseLevel: real,
    sharpness: real,
    artifacts: Artifacts,
    metadataAnomalies: seq<string>,
    processingHistory: seq<string>)

  datatype AnalysisResult = AnalysisResult(
    overall: int,
    categories: Categories,
    diffusion: ScoreMap,
    gan: ScoreMap,
    llm: ScoreMap,
    manipulation: ScoreMap,
    other: ScoreMap,
    technicalDetails: Option<TechnicalDetails>)

  /** The all-zero result with empty maps that the Sightengine mapping starts from. */
  const Empty := AnalysisResult(0, Categories(0, 0, 0, 0, 0, 0), [], [], [], [], [], None)
}
