/** The batch upload panel (app/components/BatchProcessor.tsx): the
    selected files, their previews keyed by file name, the last results and
    the error message, as fields that the handlers update. */
module BatchProcessor {
  import opened Common
  import AnalyzeRoute
  import BatchRoute

  const MaxFiles: nat := 10

  /** What the batch request gave back: the result list, or the error
      message the panel shows (the server's error text, or a fixed one). */
  datatype Outcome = Delivered(results: seq<BatchRoute.FileResult>) | Failed(message: string)

  /** The previews of `files` once every reader has finished, in file
      order: each name maps to the data URL of the last file with that name. */
  function PreviewMap(files: seq<AnalyzeRoute.Upload>, dataUrls: seq<string>): (m: map<string, string>)
    requires |dataUrls| == |files|
    ensures forall name :: name in m <==> exists i :: 0 <= i < |files| && files[i].name == name
    ensures forall name :: name in m ==> LastWithName(files, dataUrls, name, m[name])
  {
    if files == [] then map[]
    else
      var n := |files| - 1;
      var earlier := PreviewMap(files[..n], dataUrls[..n]);
      var m := earlier[files[n].name := dataUrls[n]];
      PreviewLast(files, dataUrls, earlier, m);
      m
  }

  /** The reader of the last file overwrites the preview under its name; a
      preview of any other name still comes from the last file with it. */
  lemma PreviewLast(files: seq<AnalyzeRoute.Upload>, dataUrls: seq<string>, earlier: map<string, string>, m: map<string, string>)
    requires |dataUrls| == |files| > 0
    requires forall name :: name in earlier ==>
      LastWithName(files[..|files| - 1], dataUrls[..|files| - 1], name, earlier[name])
    requires m == earlier[files[|files| - 1].name := dataUrls[|files| - 1]]
    ensures forall name :: name in m ==> LastWithName(files, dataUrls, name, m[name])
  {
    var n := |files| - 1;
    forall name | name in m
      ensures LastWithName(files, dataUrls, name, m[name])
    {
      if name == files[n].name {
        assert files[n].name == name && dataUrls[n] == m[name];
      } else {
        assert LastWithName(files[..n], dataUrls[..n], name, earlier[name]);
        var k :| 0 <= k < n && files[..n][k].name == name && dataUrls[..n][k] == earlier[name]
          && forall j :: k < j < n ==> files[..n][j].name != name;
        assert files[k].name == name && dataUrls[k] == m[name];
        forall j | k < j < |files|
          ensures files[j].name != name
        {
          if j < n {
            assert files[..n][j] == files[j];
          }
        }
      }
    }
  }

  /** `url` is the data URL of some file called `name`, and no later file
      has that name. */
  ghost predicate LastWithName(files: seq<AnalyzeRoute.Upload>, dataUrls: seq<string>, name: string, url: string)
    requires |dataUrls| == |files|
  {
    exists k :: 0 <= k < |files| && files[k].name == name && dataUrls[k] == url
      && forall j :: k < j < |files| ==> files[j].name != name
  }

  class Panel {
    var files: seq<AnalyzeRoute.Upload>
    var previews: map<string, string>
    var results: seq<BatchRoute.FileResult>
    var error: Option<string>
    var processing: bool

    /** At most ten files are ever selected. */
    ghost predicate Valid()
      reads this
    {
      |files| <= MaxFiles
    }

    constructor ()
      ensures Valid()
      ensures files == [] && previews == map[] && results == [] && error == None && !processing
    {
      files := [];
      previews := map[];
      results := [];
      error := None;
      processing := false;
    }

    /** `handleFileSelect`: no selection changes nothing; otherwise the
        first ten files replace the list, the results and the error are
        cleared, and the previews become those of the new files. An empty
        selection starts no reader, so the previews stay as they were.
        `dataUrls` are the readers' results for the kept files. */
    method Select(selected: Option<seq<AnalyzeRoute.Upload>>, dataUrls: seq<string>)
      requires Valid()
      requires selected.Some? ==> |dataUrls| == Min(|selected.value|, MaxFiles)
      modifies this
      ensures Valid()
      ensures selected.None? ==>
        files == old(files) && previews == old(previews) && results == old(results) && error == old(error)
      ensures selected.Some? ==>
        && files == selected.value[..Min(|selected.value|, MaxFiles)]
        && results == [] && error == None
        && previews == (if files == [] then old(previews) else PreviewMap(files, dataUrls))
      ensures processing == old(processing)
    {
      if selected.None? {
        return;
      }
      var kept := SliceTo(selected.value, MaxFiles);
      assert kept == selected.value[..Min(|selected.value|, MaxFiles)];
      files := kept;
      error := None;
      results := [];
      if kept != [] {
        previews := PreviewMap(kept, dataUrls);
      }
    }

    /** `handleRemoveFile`: the file at `index` leaves the list and the
        preview under its name is deleted, which also removes the preview
        of any other file with the same name. */
    method RemoveFile(index: nat)
      requires Valid() && index < |files|
      modifies this
      ensures Valid()
      ensures files == old(files[..index] + files[index + 1..])
      ensures previews == old(previews) - {old(files[index].name)}
      ensures forall f :: f in files && f.name == old(files[index].name) ==> f.name !in previews
      ensures results == old(results) && error == old(error) && processing == old(processing)
    {
      var fileName := files[index].name;
      files := files[..index] + files[index + 1..];
      previews := previews - {fileName};
    }

    /** `handleProcess`, from sending to settling: nothing happens without
        files; otherwise the results or the error message are stored and
        processing ends. */
    method Process(outcome: Outcome)
      requires Valid()
      modifies this
      ensures Valid()
      ensures files == old(files) && previews == old(previews)
      ensures old(files) == [] ==> results == old(results) && error == old(error) && processing == old(processing)
      ensures old(files) != [] ==> !processing
      ensures old(files) != [] && outcome.Delivered? ==> results == outcome.results && error == None
      ensures old(files) != [] && outcome.Failed? ==> results == [] && error == Some(outcome.message)
    {
      if |files| == 0 {
        return;
      }
      processing := true;
      error := None;
      results := [];
      match outcome {
        case Delivered(rs) =>
          results := rs;
        case Failed(message) =>
          error := Some(message);
      }
      processing := false;
    }

    /** `handleClear`. */
    method Clear()
      modifies this
      ensures Valid()
      ensures files == [] && previews == map[] && results == [] && error == None
      ensures processing == old(processing)
    {
      files := [];
      previews := map[];
      results := [];
      error := None;
    }
  }
}
