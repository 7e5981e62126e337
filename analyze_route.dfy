/** The single-image upload handler (`POST` of app/api/analyze/route.ts):
    a chain of early rejections, then the choice between the Sightengine
    mapping and the mock analysis. The form fields, the environment, the
    outcome of the Sightengine request and the random draws are parameters. */
module AnalyzeRoute {
  import opened Common
  import opened Results
  import ImageAnalysis
  import Analysis
  import Sightengine

  /** An uploaded file: its name, its MIME type and its size in bytes. */
  datatype Upload = Upload(name: string, mimeType: string, size: nat)

  const AllowedTypes: seq<string> := ["image/jpeg", "image/png", "image/webp", "image/heic"]

  /** 10 MiB. */
  const MaxSize: nat := 10 * 1024 * 1024

  const NoFileMessage := "No file provided"
  const BadTypeMessage := "Invalid file type. Allowed: JPEG, PNG, WEBP, HEIC"
  const TooLargeMessage := "File size exceeds 10MB limit"
  const FailureMessage := "Failed to analyze image"

  /** An HTTP reply: an error body with its status, or a result with status 200. */
  datatype Reply = Failure(status: nat, message: string) | Success(result: AnalysisResult)

  /** What `JSON.parse` made of a non-empty `settings` field: `null`, or a
      value whose `apiProvider`, `sightengineApiUser` and
      `sightengineApiSecret` are read (a number or a string has none). */
  datatype ParsedSettings =
    | ParsedNull
    | ParsedValue(provider: Option<string>, user: Option<string>, secret: Option<string>)

  /** The `settings` form field: absent or empty, not JSON, or parsed. */
  datatype SettingsField = NoSettings | Unparsable | Parsed(value: ParsedSettings)

  /** The settings in force: `{ apiProvider: 'mock' }` unless a non-empty
      field parsed. */
  function SettingsInForce(field: SettingsField): ParsedSettings
  {
    if field.Parsed? then field.value else ParsedValue(Some("mock"), None, None)
  }

  /** A JavaScript string is truthy when it is defined and not empty. */
  predicate Truthy(s: Option<string>)
  {
    s.Some? && s.value != ""
  }

  /** `formValue || envValue`. */
  function OrElse(formValue: Option<string>, envValue: Option<string>): (r: Option<string>)
    ensures Truthy(r) <==> Truthy(formValue) || Truthy(envValue)
  {
    if Truthy(formValue) then formValue else envValue
  }

  /** Whether the handler calls Sightengine: the provider is "sightengine"
      and both credentials, each from the form or else from the
      environment, are non-empty. */
  predicate CallsSightengine(s: ParsedSettings, envUser: Option<string>, envSecret: Option<string>)
    requires s.ParsedValue?
  {
    s.provider == Some("sightengine") && Truthy(OrElse(s.user, envUser)) && Truthy(OrElse(s.secret, envSecret))
  }

  /** The validation chain: `None` when the upload passes, else the reply. */
  function Validate(file: Option<Upload>): (r: Option<Reply>)
    ensures r.Some? ==> r.value.Failure? && r.value.status == 400
    ensures file.None? ==> r == Some(Failure(400, NoFileMessage))
    ensures file.Some? && file.value.mimeType !in AllowedTypes ==> r == Some(Failure(400, BadTypeMessage))
    ensures file.Some? && file.value.mimeType in AllowedTypes && file.value.size > MaxSize
      ==> r == Some(Failure(400, TooLargeMessage))
    ensures r.None? <==> file.Some? && file.value.mimeType in AllowedTypes && file.value.size <= MaxSize
  {
    if file.None? then Some(Failure(400, NoFileMessage))
    else if file.value.mimeType !in AllowedTypes then Some(Failure(400, BadTypeMessage))
    else if file.value.size > MaxSize then Some(Failure(400, TooLargeMessage))
    else None
  }

  /** The type check comes first: a file of the wrong type is reported as
      such however large it is, and a file of exactly 10 MiB passes. */
  lemma ValidationOrder(name: string, mimeType: string, size: nat)
    ensures mimeType !in AllowedTypes ==> Validate(Some(Upload(name, mimeType, size))) == Some(Failure(400, BadTypeMessage))
    ensures mimeType in AllowedTypes ==> Validate(Some(Upload(name, mimeType, MaxSize))).None?
    ensures mimeType in AllowedTypes ==> Validate(Some(Upload(name, mimeType, MaxSize + 1))) == Some(Failure(400, TooLargeMessage))
  {
  }

  /** `POST`. `sightengine` is the provider's parsed answer, `None` when the
      request failed or the answer was not OK; `rand` are the mock's draws. */
  method Post(file: Option<Upload>, settings: SettingsField, envUser: Option<string>, envSecret: Option<string>,
              sightengine: Option<Sightengine.Response>, rand: seq<real>)
    returns (reply: Reply)
    requires IsRandomStream(rand) && |rand| >= Analysis.MaxDraws
    ensures Validate(file).Some? ==> reply == Validate(file).value
    ensures Validate(file).None? && SettingsInForce(settings).ParsedNull? ==> reply == Failure(500, FailureMessage)
    ensures Validate(file).None? && SettingsInForce(settings).ParsedValue? ==> reply.Success?
    ensures Validate(file).None? && !settings.Parsed? ==> reply.Success? && reply.result.technicalDetails.Some?
    ensures reply.Success? ==>
      var s := SettingsInForce(settings);
      s.ParsedValue? &&
      (reply.result.technicalDetails.None? <==> CallsSightengine(s, envUser, envSecret) && sightengine.Some?)
    ensures reply.Success? && reply.result.technicalDetails.Some? ==>
      && (Analysis.NameHit(file.value.name) ==> 85 <= reply.result.overall <= 99)
      && (!Analysis.NameHit(file.value.name) ==> 0 <= reply.result.overall <= 29)
  {
    var v := Validate(file);
    if v.Some? {
      return v.value;
    }
    var upload := file.value;
    var apiSettings := ParsedValue(Some("mock"), None, None);
    if settings.Parsed? {
      apiSettings := settings.value;
    }
    if apiSettings.ParsedNull? {
      // reading `apiProvider` of null throws; the outer handler answers 500
      return Failure(500, FailureMessage);
    }
    var result: AnalysisResult;
    if apiSettings.provider == Some("sightengine") {
      var apiUser := OrElse(apiSettings.user, envUser);
      var apiSecret := OrElse(apiSettings.secret, envSecret);
      if Truthy(apiUser) && Truthy(apiSecret) {
        if sightengine.Some? {
          result := Sightengine.Transform(sightengine.value);
        } else {
          result := MockOnServer(upload, rand);
        }
      } else {
        result := MockOnServer(upload, rand);
      }
    } else {
      result := MockOnServer(upload, rand);
    }
    reply := Success(result);
  }

  /** `analyzeImage` as the server runs it: there is no browser, so the
      image characteristics are the defaults and only the name decides the
      branch. */
  method MockOnServer(upload: Upload, rand: seq<real>) returns (r: AnalysisResult)
    requires IsRandomStream(rand) && |rand| >= Analysis.MaxDraws
    ensures r.technicalDetails.Some?
    ensures Analysis.NameHit(upload.name) ==> 85 <= r.overall <= 99
    ensures !Analysis.NameHit(upload.name) ==> 0 <= r.overall <= 29
  {
    var measured := ImageAnalysis.CharacteristicsOf(ImageAnalysis.ServerSide, upload.size);
    r := Analysis.AnalyzeImage(upload.name, upload.size, measured, rand);
  }
}
