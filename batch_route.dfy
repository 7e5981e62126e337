/** The batch upload handler (`POST` of app/api/batch/route.ts): count
    limits, a validation loop that stops at the first offending file, then
    one result per file and the success counts. The concurrent analyses
    run here one after the other. */
module BatchRoute {
  import opened Common
  import opened Results
  import Analysis
  import AnalyzeRoute

  const MaxBatch: nat := 10

  const NoFilesMessage := "No files provided"
  const TooManyMessage := "Maximum 10 files allowed per batch"

  function BadTypeMessage(name: string): string
  {
    "Invalid file type: " + name + ". Allowed: JPEG, PNG, WEBP, HEIC"
  }

  function TooLargeMessage(name: string): string
  {
    "File too large: " + name + ". Maximum 10MB"
  }

  /** One entry of `results`: a failed entry carries the error text
      instead of the analysis. The metadata is not modelled. */
  datatype FileResult = FileResult(fileName: string, fileSize: nat, success: bool, analysis: Option<AnalysisResult>, error: Option<string>)

  datatype Summary = Summary(total: nat, successful: nat, failed: nat, results: seq<FileResult>)

  datatype Reply = Failure(status: nat, message: string) | Success(summary: Summary)

  /** A file the per-file checks accept. */
  predicate Acceptable(f: AnalyzeRoute.Upload)
  {
    f.mimeType in AnalyzeRoute.AllowedTypes && f.size <= AnalyzeRoute.MaxSize
  }

  /** The error for a file that fails a per-file check: type before size. */
  function Offence(f: AnalyzeRoute.Upload): string
    requires !Acceptable(f)
  {
    if f.mimeType !in AnalyzeRoute.AllowedTypes then BadTypeMessage(f.name) else TooLargeMessage(f.name)
  }

  /** The position of the first file that fails a per-file check. */
  function FirstOffender(files: seq<AnalyzeRoute.Upload>): (r: Option<nat>)
    ensures r.Some? ==> r.value < |files| && !Acceptable(files[r.value])
    ensures r.Some? ==> forall j :: 0 <= j < r.value ==> Acceptable(files[j])
    ensures r.None? <==> forall j :: 0 <= j < |files| ==> Acceptable(files[j])
  {
    if files == [] then None
    else if !Acceptable(files[0]) then Some(0)
    else match FirstOffender(files[1..])
      case None => None
      case Some(k) => Some(k + 1)
  }

  /** The validation loop: `None` when every file passes, else the 400
      reply naming the first file that fails. */
  method CheckFiles(files: seq<AnalyzeRoute.Upload>) returns (r: Option<Reply>)
    ensures FirstOffender(files).None? ==> r.None?
    ensures FirstOffender(files).Some? ==> r == Some(Failure(400, Offence(files[FirstOffender(files).value])))
  {
    var i := 0;
    while i < |files|
      invariant 0 <= i <= |files|
      invariant forall j :: 0 <= j < i ==> Acceptable(files[j])
    {
      var file := files[i];
      if file.mimeType !in AnalyzeRoute.AllowedTypes {
        FirstIsAt(files, i);
        return Some(Failure(400, BadTypeMessage(file.name)));
      }
      if file.size > AnalyzeRoute.MaxSize {
        FirstIsAt(files, i);
        return Some(Failure(400, TooLargeMessage(file.name)));
      }
      i := i + 1;
    }
    return None;
  }

  /** A failing file with only passing files before it is the first offender. */
  lemma {:induction false} FirstIsAt(files: seq<AnalyzeRoute.Upload>, i: nat)
    requires i < |files| && !Acceptable(files[i])
    requires forall j :: 0 <= j < i ==> Acceptable(files[j])
    ensures FirstOffender(files) == Some(i)
  {
    if i > 0 {
      FirstIsAt(files[1..], i - 1);
    }
  }

  function Succeeded(r: FileResult): bool { r.success }

  function Failed(r: FileResult): bool { !r.success }

  /** `POST`. `metadataError[i]` is the message `extractMetadata` threw for
      the `i`-th file, `None` when it succeeded; `rand[i]` are the draws of
      that file's mock analysis. */
  method Post(files: seq<AnalyzeRoute.Upload>, metadataError: seq<Option<string>>, rand: seq<seq<real>>)
    returns (reply: Reply)
    requires |metadataError| == |files| && |rand| == |files|
    requires forall i :: 0 <= i < |rand| ==> IsRandomStream(rand[i]) && |rand[i]| >= Analysis.MaxDraws
    ensures |files| == 0 ==> reply == Failure(400, NoFilesMessage)
    ensures |files| > MaxBatch ==> reply == Failure(400, TooManyMessage)
    ensures 0 < |files| <= MaxBatch && FirstOffender(files).Some? ==>
      reply == Failure(400, Offence(files[FirstOffender(files).value]))
    ensures reply.Success? <==> 0 < |files| <= MaxBatch && FirstOffender(files).None?
    ensures reply.Success? ==>
      var s := reply.summary;
      && s.total == |files| == |s.results|
      && s.successful + s.failed == s.total
      && s.successful == Count(s.results, Succeeded)
      && s.failed == Count(s.results, Failed)
      && forall i :: 0 <= i < |files| ==>
           && s.results[i].fileName == files[i].name
           && s.results[i].fileSize == files[i].size
           && (s.results[i].success <==> metadataError[i].None?)
           && (s.results[i].success ==> s.results[i].analysis.Some? && s.results[i].error.None?)
           && (!s.results[i].success ==> s.results[i].analysis.None? && s.results[i].error == metadataError[i])
  {
    if |files| == 0 {
      return Failure(400, NoFilesMessage);
    }
    if |files| > MaxBatch {
      return Failure(400, TooManyMessage);
    }
    var rejected := CheckFiles(files);
    if rejected.Some? {
      return rejected.value;
    }
    var results: seq<FileResult> := [];
    var i := 0;
    while i < |files|
      invariant 0 <= i <= |files| && |results| == i
      invariant forall j :: 0 <= j < i ==>
        && results[j].fileName == files[j].name
        && results[j].fileSize == files[j].size
        && (results[j].success <==> metadataError[j].None?)
        && (results[j].success ==> results[j].analysis.Some? && results[j].error.None?)
        && (!results[j].success ==> results[j].analysis.None? && results[j].error == metadataError[j])
    {
      var file := files[i];
      var entry: FileResult;
      if metadataError[i].None? {
        var analysis := AnalyzeRoute.MockOnServer(file, rand[i]);
        entry := FileResult(file.name, file.size, true, Some(analysis), None);
      } else {
        entry := FileResult(file.name, file.size, false, None, metadataError[i]);
      }
      results := results + [entry];
      i := i + 1;
    }
    CountsSplit(results);
    reply := Success(Summary(|files|, Count(results, Succeeded), Count(results, Failed), results));
  }

  /** Every entry either succeeded or failed. */
  lemma {:induction false} CountsSplit(results: seq<FileResult>)
    ensures Count(results, Succeeded) + Count(results, Failed) == |results|
  {
    if results != [] {
      CountsSplit(results[1..]);
      assert Filter(results, Succeeded) == (if results[0].success then [results[0]] else []) + Filter(results[1..], Succeeded);
      assert Filter(results, Failed) == (if results[0].success then [] else [results[0]]) + Filter(results[1..], Failed);
    }
  }
}
