/**
 * The upload filter and the `POST /api/detect-pest` handler. The file system,
 * the environment and the analyser's network call are abstracted: the upload
 * directory is a set of live paths, `readFileSync` and `unlinkSync` either
 * succeed or fail, the API key is an optional string, and the chat-completion
 * call is given as its outcome.
 */
module Routes {

  import opened Wrappers
  import opened Openai
  import opened Schema
  import opened Storage
  import OrderedMaps

  // ---- Upload intake ----

  /** The per-file size limit given to the upload middleware: 10 MiB. */
  const MaxUploadBytes: nat := 10 * 1024 * 1024

  /** `s.startsWith(prefix)`. */
  predicate StartsWith(s: string, prefix: string) {
    |prefix| <= |s| && s[..|prefix|] == prefix
  }

  /** `mimetype.startsWith('image/')`. */
  predicate IsImageMime(mimetype: string) {
    StartsWith(mimetype, "image/")
  }

  /** What the upload middleware does with a multipart file before the handler runs. */
  datatype Intake =
    | Stored         // written to the upload directory and handed to the handler
    | FilterRejected // the file filter refused it: "Only image files are allowed"
    | TooLarge       // larger than the size limit

  /** The file filter, then the size limit. */
  function UploadIntake(mimetype: string, size: nat): (o: Intake)
    ensures o == Stored <==> IsImageMime(mimetype) && size <= MaxUploadBytes
    ensures o == FilterRejected <==> !IsImageMime(mimetype)
  {
    if !IsImageMime(mimetype) then FilterRejected
    else if size > MaxUploadBytes then TooLarge
    else Stored
  }

  // ---- The detect-pest handler ----

  /** The file the middleware stored: its temporary path and declared media type. */
  datatype UploadedFile = UploadedFile(path: string, mimetype: string)

  /** The parts of the request the handler reads: the stored file and the form's `userId`. */
  datatype PestRequest = PestRequest(file: Option<UploadedFile>, userId: Option<string>)

  datatype Body =
    | Diagnosis(result: PestDetectionResult)
    | Error(error: string, details: Option<string>)

  datatype Response = Response(status: int, body: Body)

  /** The outside effects of one request, in the order they happen. */
  datatype Effect = ReadImage | CallAnalyser | SaveDetection | RemoveTempFile

  const NoImageResponse: Response := Response(400, Error("No image file provided", None))
  const NotImageResponse: Response := Response(400, Error("Only image files are allowed", None))
  const NoKeyResponse: Response :=
    Response(503, Error("AI analysis service unavailable", Some("OpenAI API key not configured")))

  /** `s.includes(sub)`. */
  predicate Contains(s: string, sub: string)
    decreases |s|
  {
    StartsWith(s, sub) || (|s| > 0 && Contains(s[1..], sub))
  }

  /** A string that lacks the first character of `sub` does not contain `sub`. */
  lemma {:induction false} MissingFirstCharNotContained(s: string, sub: string)
    requires |sub| > 0 && sub[0] !in s
    ensures !Contains(s, sub)
    decreases |s|
  {
    if |s| > 0 {
      assert s[0] != sub[0];
      assert forall c :: c in s[1..] ==> c in s;
      MissingFirstCharNotContained(s[1..], sub);
    }
  }

  /** The catch block: an error whose message mentions the API key is a 503, any other a 500 carrying the message. */
  function ErrorResponse(message: string): (r: Response)
    ensures r.status == 503 <==> Contains(message, "API key")
    ensures r.status != 503 ==> r == Response(500, Error("Failed to analyze image", Some(message)))
    ensures r.status == 503 ==> r.body == Error("AI analysis service unavailable", Some("Configuration error"))
  {
    if Contains(message, "API key") then
      Response(503, Error("AI analysis service unavailable", Some("Configuration error")))
    else
      Response(500, Error("Failed to analyze image", Some(message)))
  }

  /**
   * Every analyser failure is answered with 500: the analyser rewraps each
   * error as "Failed to analyze plant image", which never mentions the API key,
   * so the catch block's 503 branch is not reached through the analyser.
   */
  lemma {:induction false} AnalyserFailureIs500(upstream: Upstream)
    requires AnalyzePlantImage(upstream).Failure?
    ensures ErrorResponse(AnalyzePlantImage(upstream).error) ==
            Response(500, Error("Failed to analyze image", Some(AnalysisFailedMessage)))
  {
    assert "API key"[0] == 'A';
    assert 'A' !in AnalysisFailedMessage;
    MissingFirstCharNotContained(AnalysisFailedMessage, "API key");
  }

  function DigitChar(d: nat): (c: char)
    requires d < 10
    ensures '0' <= c <= '9' && c as int - '0' as int == d
  {
    "0123456789"[d]
  }

  /** The number a string of decimal digits spells, most significant digit first. */
  function DigitsValue(s: string): nat
    requires forall i :: 0 <= i < |s| ==> '0' <= s[i] <= '9'
  {
    if s == [] then 0 else 10 * DigitsValue(s[..|s| - 1]) + (s[|s| - 1] as int - '0' as int)
  }

  /** The decimal spelling of a natural number, as a template literal writes it. */
  function Decimal(n: nat): (s: string)
    ensures |s| >= 1
    ensures forall i :: 0 <= i < |s| ==> '0' <= s[i] <= '9'
    ensures DigitsValue(s) == n
    ensures |s| > 1 ==> s[0] != '0'
  {
    if n < 10 then [DigitChar(n)]
    else
      var s := Decimal(n / 10) + [DigitChar(n % 10)];
      assert s[..|s| - 1] == Decimal(n / 10);
      s
  }

  /** `analysis_${Date.now()}.jpg`: a name that does not refer to the uploaded file. */
  function PlaceholderPath(now: nat): (p: string)
    ensures |p| > 13 && p[..9] == "analysis_" && p[|p| - 4..] == ".jpg"
    ensures forall i :: 9 <= i < |p| - 4 ==> '0' <= p[i] <= '9'
    ensures DigitsValue(p[9..|p| - 4]) == now
  {
    var digits := Decimal(now);
    var p := "analysis_" + digits + ".jpg";
    assert p[9..|p| - 4] == digits;
    p
  }

  /** Distinct save times give distinct placeholder paths. */
  lemma PlaceholderPathInjective(a: nat, b: nat)
    requires PlaceholderPath(a) == PlaceholderPath(b)
    ensures a == b
  {
  }

  /** The detection saved for a logged-in user: the seven result fields other than the tips, and a placeholder path. */
  function DetectionInsert(userId: string, r: PestDetectionResult, now: nat): (ins: InsertDetection)
    ensures ins.userId == Some(userId) && ins.imagePath == PlaceholderPath(now)
    ensures ins.disease == r.disease && ins.malayalam == r.malayalam && ins.confidence == r.confidence
    ensures ins.severity == SeverityName(r.severity) && ins.urgency == UrgencyName(r.urgency)
    ensures ins.treatment == r.treatment && ins.malayalamTreatment == r.malayalamTreatment
  {
    InsertDetection(Some(userId), PlaceholderPath(now), r.disease, r.malayalam, r.confidence,
                    SeverityName(r.severity), r.treatment, r.malayalamTreatment, UrgencyName(r.urgency))
  }

  /** The request gets as far as the analyser: an image was stored, read back, and the key is configured. */
  predicate ReachesAnalyser(req: PestRequest, apiKey: Option<string>, readError: Option<string>) {
    req.file.Some? && IsImageMime(req.file.value.mimetype) && readError.None? && Truthy(apiKey)
  }

  /** The request stores a detection: the analysis succeeded and the form named a user. */
  predicate SavesDetection(req: PestRequest, apiKey: Option<string>, readError: Option<string>, upstream: Upstream) {
    ReachesAnalyser(req, apiKey, readError) && upstream.Parsed? && Truthy(req.userId)
  }

  /** The `finally` block's effect: the temporary file is removed when a path was recorded and the file exists. */
  function CleanupEffects(path: Option<string>, live: set<string>): seq<Effect> {
    if path.Some? && path.value != "" && path.value in live then [RemoveTempFile] else []
  }

  /** The upload directory: the paths of the temporary files that currently exist. */
  class UploadDir {
    var live: set<string>

    constructor (files: set<string>)
      ensures live == files
    {
      live := files;
    }

    /** `unlinkSync(path)`, which may throw and then removes nothing. */
    method Unlink(path: string, fails: bool)
      modifies this
      ensures live == if fails then old(live) else old(live) - {path}
    {
      if !fails {
        live := live - {path};
      }
    }
  }

  /**
   * The analysing part of the `try` block: call the analyser, save a detection
   * when the form named a user, and answer with the result; an analyser
   * failure goes to the catch block.
   */
  method AnalyseAndRecord(store: MemStorage, userId: Option<string>, upstream: Upstream, now: nat, detectionId: string)
      returns (resp: Response, saved: bool)
    requires store.Valid()
    modifies store
    ensures store.Valid()
    ensures saved <==> upstream.Parsed? && Truthy(userId)
    ensures upstream.Parsed? ==> resp == Response(200, Diagnosis(Sanitize(upstream.reply)))
    ensures !upstream.Parsed? ==> resp == ErrorResponse(AnalysisFailedMessage)
    ensures store.detections ==
              if saved then
                old(store.detections).Set(detectionId,
                  DetectionRow(DetectionInsert(userId.value, Sanitize(upstream.reply), now), detectionId, now))
              else old(store.detections)
    ensures store.users == old(store.users) && store.marketPrices == old(store.marketPrices) &&
            store.weatherData == old(store.weatherData)
  {
    saved := false;
    var analysis := AnalyzePlantImage(upstream);
    if analysis.Failure? {
      return ErrorResponse(analysis.error), saved;
    }
    if Truthy(userId) {
      var _ := store.SaveDetection(DetectionInsert(userId.value, analysis.value, now), detectionId, now);
      saved := true;
    }
    resp := Response(200, Diagnosis(analysis.value));
  }

  /**
   * The handler's `try` block. `readError` is the message `readFileSync`
   * throws, if it does; `upstream` is what the chat-completion call yields;
   * `now` is the clock; `detectionId` is the id `saveDetection` draws. Returns
   * the reply, the temporary path the `finally` block will see, and the effects
   * so far.
   */
  method Attempt(store: MemStorage, req: PestRequest, apiKey: Option<string>, readError: Option<string>,
                 upstream: Upstream, now: nat, detectionId: string)
      returns (resp: Response, tempFilePath: Option<string>, effects: seq<Effect>)
    requires store.Valid()
    modifies store
    ensures store.Valid()
    ensures tempFilePath == if req.file.Some? then Some(req.file.value.path) else None
    // No file: 400 and nothing else happens.
    ensures req.file.None? ==> resp == NoImageResponse && effects == []
    // A file that is not an image: 400 before it is read or analysed.
    ensures req.file.Some? && !IsImageMime(req.file.value.mimetype) ==> resp == NotImageResponse && effects == []
    // Reading the file throws: the catch block answers.
    ensures req.file.Some? && IsImageMime(req.file.value.mimetype) && readError.Some? ==>
              resp == ErrorResponse(readError.value) && effects == [ReadImage]
    // No API key: 503 and the analyser is never called.
    ensures req.file.Some? && IsImageMime(req.file.value.mimetype) && readError.None? && !Truthy(apiKey) ==>
              resp == NoKeyResponse && effects == [ReadImage]
    // Analysed: the sanitised result on success, the catch block's answer on failure.
    ensures ReachesAnalyser(req, apiKey, readError) ==>
              effects == if SavesDetection(req, apiKey, readError, upstream) then [ReadImage, CallAnalyser, SaveDetection]
                         else [ReadImage, CallAnalyser]
    ensures ReachesAnalyser(req, apiKey, readError) && upstream.Parsed? ==>
              resp == Response(200, Diagnosis(Sanitize(upstream.reply)))
    ensures ReachesAnalyser(req, apiKey, readError) && !upstream.Parsed? ==>
              resp == ErrorResponse(AnalysisFailedMessage)
    // Storage: one detection is saved exactly when the analysis succeeded for a named user.
    ensures store.detections ==
              if SavesDetection(req, apiKey, readError, upstream) then
                old(store.detections).Set(detectionId,
                  DetectionRow(DetectionInsert(req.userId.value, Sanitize(upstream.reply), now), detectionId, now))
              else old(store.detections)
    ensures store.users == old(store.users) && store.marketPrices == old(store.marketPrices) &&
            store.weatherData == old(store.weatherData)
  {
    tempFilePath := None;
    effects := [];
    if req.file.None? {
      resp := NoImageResponse;
    } else {
      tempFilePath := Some(req.file.value.path);
      if !IsImageMime(req.file.value.mimetype) {
        resp := NotImageResponse;
      } else if readError.Some? {
        effects := [ReadImage];
        resp := ErrorResponse(readError.value);
      } else if !Truthy(apiKey) {
        effects := [ReadImage];
        resp := NoKeyResponse;
      } else {
        var saved;
        resp, saved := AnalyseAndRecord(store, req.userId, upstream, now, detectionId);
        effects := if saved then [ReadImage, CallAnalyser, SaveDetection] else [ReadImage, CallAnalyser];
      }
    }
  }

  /**
   * The whole handler: the `try` block, then the `finally` block, which
   * removes the temporary file whenever a path was recorded and the file
   * exists; `unlinkFails` says whether `unlinkSync` throws, which is only
   * logged. The reply is the `try` block's, whatever the cleanup does.
   */
  method DetectPest(store: MemStorage, dir: UploadDir, req: PestRequest, apiKey: Option<string>,
                    readError: Option<string>, upstream: Upstream, unlinkFails: bool,
                    now: nat, detectionId: string)
      returns (resp: Response, effects: seq<Effect>)
    requires store.Valid()
    modifies store, dir
    ensures store.Valid()
    ensures req.file.None? ==>
              resp == NoImageResponse && effects == [] && dir.live == old(dir.live) &&
              store.detections == old(store.detections)
    ensures req.file.Some? && !IsImageMime(req.file.value.mimetype) ==>
              resp == NotImageResponse && effects == CleanupEffects(Some(req.file.value.path), old(dir.live))
    ensures req.file.Some? && IsImageMime(req.file.value.mimetype) && readError.Some? ==>
              resp == ErrorResponse(readError.value) &&
              effects == [ReadImage] + CleanupEffects(Some(req.file.value.path), old(dir.live))
    ensures req.file.Some? && IsImageMime(req.file.value.mimetype) && readError.None? && !Truthy(apiKey) ==>
              resp == NoKeyResponse &&
              effects == [ReadImage] + CleanupEffects(Some(req.file.value.path), old(dir.live))
    ensures ReachesAnalyser(req, apiKey, readError) ==>
              effects == (if SavesDetection(req, apiKey, readError, upstream) then [ReadImage, CallAnalyser, SaveDetection]
                          else [ReadImage, CallAnalyser]) + CleanupEffects(Some(req.file.value.path), old(dir.live))
    ensures ReachesAnalyser(req, apiKey, readError) && upstream.Parsed? ==>
              resp == Response(200, Diagnosis(Sanitize(upstream.reply)))
    ensures ReachesAnalyser(req, apiKey, readError) && !upstream.Parsed? ==>
              resp == ErrorResponse(AnalysisFailedMessage)
    ensures store.detections ==
              if SavesDetection(req, apiKey, readError, upstream) then
                old(store.detections).Set(detectionId,
                  DetectionRow(DetectionInsert(req.userId.value, Sanitize(upstream.reply), now), detectionId, now))
              else old(store.detections)
    ensures store.users == old(store.users) && store.marketPrices == old(store.marketPrices) &&
            store.weatherData == old(store.weatherData)
    // Cleanup: once a path was recorded the temporary file is gone, unless unlinking it threw; nothing else is removed.
    ensures req.file.Some? && req.file.value.path != "" && !unlinkFails ==> req.file.value.path !in dir.live
    ensures req.file.Some? && (unlinkFails || req.file.value.path == "") ==> dir.live == old(dir.live)
    ensures req.file.Some? ==> dir.live == old(dir.live) || dir.live == old(dir.live) - {req.file.value.path}
  {
    var tempFilePath;
    resp, tempFilePath, effects := Attempt(store, req, apiKey, readError, upstream, now, detectionId);
    effects := effects + CleanupEffects(tempFilePath, dir.live);
    if tempFilePath.Some? && tempFilePath.value != "" && tempFilePath.value in dir.live {
      dir.Unlink(tempFilePath.value, unlinkFails);
    }
  }

  /** A file that passed the upload filter also passes the handler's own media-type check. */
  lemma StoredUploadIsImage(mimetype: string, size: nat)
    requires UploadIntake(mimetype, size) == Stored
    ensures IsImageMime(mimetype)
  {
  }
}
