/**
 * The `/v1/detect-voice` endpoint of app/main.py: dispatch on the
 * Content-Type header, the upload and JSON-body checks, the call to the
 * classifier, and the response it builds.
 *
 * The classifier (`predict`) is not modelled: it is a field of the
 * `Service` value the endpoint receives, beside the audio library.
 */
module Detect {
  import opened Wrappers
  import opened Http
  import Text
  import Audio
  import Decision
  import Config

  /** An uploaded form file: its name and its bytes. */
  datatype Upload = Upload(filename: string, content: seq<Audio.Byte>)

  /** The request body as `await request.json()` sees it: malformed, or a parsed JSON document. */
  datatype Body = Unparseable | Parsed(value: Json)

  /** What the endpoint reads from a request: the Content-Type header, the form file and the body. */
  datatype Request = Request(contentType: Option<string>, file: Option<Upload>, body: Body)

  /** The collaborators of the endpoint: audio loading and the classifier. */
  datatype Service = Service(lib: Audio.Library, predict: Audio.Samples -> real)

  /** The JSON object returned on success. */
  datatype DetectResponse = DetectResponse(
    success: bool,
    prediction: Decision.Label,
    confidence: real,
    explanation: string,
    modelVersion: string,
    requestId: Json)

  /**
   * What the client receives: the response, an `HTTPException`, or the
   * framework's 500 reply to an exception the endpoint does not catch.
   */
  datatype Reply = Ok(response: DetectResponse) | Error(error: HttpError) | InternalError

  const Multipart: string := "multipart/form-data"
  const ApplicationJson: string := "application/json"
  const ModelVersion: string := "v1.1"

  const NoFileUploaded: string := "No file uploaded"
  const UnsupportedAudioFormat: string := "Unsupported audio format"
  const AudioUrlRequired: string := "audio_url is required in JSON body"
  const UnsupportedContentType: string := "Unsupported Content-Type"

  /** `filename.split(".")[-1].lower()`: the lower-cased text after the last dot. */
  function Extension(filename: string): (ext: string)
    ensures Text.DotFree(ext)
    ensures |ext| <= |filename|
    ensures forall i :: 0 <= i < |ext| ==> !Text.IsUpper(ext[i])
  {
    Text.AsciiLower(Text.LastSegment(filename))
  }

  predicate ExtensionAllowed(filename: string) {
    Extension(filename) in Config.AllowedExtensions
  }

  /** Either the waveform to classify and the request id to echo, or the reply that ends the request. */
  datatype Acquired = Loaded(samples: Audio.Samples, requestId: Json) | Halted(reply: Reply)

  /** The multipart branch: the file must be present and carry an allowed extension before it is loaded. */
  function AcquireUpload(lib: Audio.Library, file: Option<Upload>): (a: Acquired)
    ensures file.None? ==> a == Halted(Error(BadRequest(NoFileUploaded)))
    ensures file.Some? && !ExtensionAllowed(file.value.filename) ==>
      a == Halted(Error(UnsupportedMediaType(UnsupportedAudioFormat)))
    ensures a.Loaded? <==>
      file.Some? && ExtensionAllowed(file.value.filename) && Audio.LoadAndPreprocess(lib, file.value.content).Success?
    ensures a.Loaded? ==> a.requestId == JNull && a.samples == Audio.LoadAndPreprocess(lib, file.value.content).value
    ensures a.Halted? ==> a.reply.Error?
  {
    if file.None? then Halted(Error(BadRequest(NoFileUploaded)))
    else if !ExtensionAllowed(file.value.filename) then Halted(Error(UnsupportedMediaType(UnsupportedAudioFormat)))
    else
      match Audio.LoadAndPreprocess(lib, file.value.content)
      case Failure(e) => Halted(Error(e))
      case Success(w) => Loaded(w, JNull)
  }

  /**
   * The JSON branch: a body that does not parse, or is not an object, raises
   * an uncaught exception; a falsy `audio_url` is rejected; otherwise the URL
   * is loaded and `request_id` is echoed.
   */
  function AcquireFromJson(lib: Audio.Library, body: Body): (a: Acquired)
    ensures a == Halted(InternalError) <==> body.Unparseable? || !body.value.JObject?
    ensures body.Parsed? && body.value.JObject? && !Truthy(Get(body.value.members, "audio_url")) ==>
      a == Halted(Error(BadRequest(AudioUrlRequired)))
    ensures a.Loaded? ==>
      && body.Parsed? && body.value.JObject?
      && var url := Get(body.value.members, "audio_url");
      && Truthy(url)
      && Audio.LoadAudioFromUrl(lib, url) == Success(a.samples)
      && a.requestId == Get(body.value.members, "request_id")
  {
    match body
    case Unparseable => Halted(InternalError)
    case Parsed(v) =>
      if !v.JObject? then Halted(InternalError)
      else
        var audioUrl := Get(v.members, "audio_url");
        var requestId := Get(v.members, "request_id");
        if !Truthy(audioUrl) then Halted(Error(BadRequest(AudioUrlRequired)))
        else
          match Audio.LoadAudioFromUrl(lib, audioUrl)
          case Failure(e) => Halted(Error(e))
          case Success(w) => Loaded(w, requestId)
  }

  /** The header value, with a missing header read as the empty string. */
  function ContentType(req: Request): (contentType: string)
    ensures req.contentType.None? ==> contentType == ""
    ensures req.contentType.Some? ==> contentType == req.contentType.value
  {
    req.contentType.GetOr("")
  }

  /** Dispatch by substring: multipart first, then JSON, otherwise 415. */
  function Acquire(lib: Audio.Library, req: Request): (a: Acquired)
    ensures !Text.Contains(ContentType(req), Multipart) && !Text.Contains(ContentType(req), ApplicationJson) ==>
      a == Halted(Error(UnsupportedMediaType(UnsupportedContentType)))
    ensures Text.Contains(ContentType(req), Multipart) ==> a == AcquireUpload(lib, req.file)
    ensures a.Halted? && a.reply.Error? ==> a.reply.error.status == 400 || a.reply.error.status == 415
    ensures a.Halted? && a.reply.InternalError? ==>
      !Text.Contains(ContentType(req), Multipart) && Text.Contains(ContentType(req), ApplicationJson)
  {
    var contentType := ContentType(req);
    if Text.Contains(contentType, Multipart) then AcquireUpload(lib, req.file)
    else if Text.Contains(contentType, ApplicationJson) then AcquireFromJson(lib, req.body)
    else Halted(Error(UnsupportedMediaType(UnsupportedContentType)))
  }

  /** The success response for a confidence; label and explanation come from the same number. */
  function Respond(confidence: real, requestId: Json): (r: DetectResponse)
    ensures r.success && r.modelVersion == ModelVersion && r.requestId == requestId
    ensures r.confidence == confidence
    ensures r.prediction == Decision.AiGenerated <==> Decision.Rank(Decision.BandFor(confidence)) >= 2
    ensures r.explanation == Decision.Sentence(Decision.BandFor(confidence))
  {
    DetectResponse(
      success := true,
      prediction := Decision.LabelFor(confidence),
      confidence := confidence,
      explanation := Decision.Explanation(confidence),
      modelVersion := ModelVersion,
      requestId := requestId)
  }

  /** `detect_voice`: acquire the waveform, classify it once, and build the response. */
  function DetectVoice(svc: Service, req: Request): (reply: Reply)
    ensures reply.Ok? ==>
      && reply.response.success
      && reply.response.modelVersion == ModelVersion
      && (reply.response.prediction == Decision.AiGenerated <==> reply.response.confidence >= 0.5)
      && reply.response.explanation == Decision.Explanation(reply.response.confidence)
    ensures reply.Ok? ==>
      && Acquire(svc.lib, req).Loaded?
      && reply.response.confidence == svc.predict(Acquire(svc.lib, req).samples)
    ensures reply.Error? ==> reply.error.status == 400 || reply.error.status == 415
  {
    match Acquire(svc.lib, req)
    case Halted(r) => r
    case Loaded(w, requestId) => Ok(Respond(svc.predict(w), requestId))
  }

  // ---------------------------------------------------------------------
  // Dispatch on the Content-Type header.

  /**
   * A Content-Type containing neither `multipart/form-data` nor
   * `application/json` is rejected with 415, and nothing is loaded or classified.
   */
  lemma UnsupportedContentTypeLoadsNothing(svc: Service, other: Service, req: Request)
    requires !Text.Contains(ContentType(req), Multipart)
    requires !Text.Contains(ContentType(req), ApplicationJson)
    ensures DetectVoice(svc, req) == Error(HttpError(415, "Unsupported Content-Type"))
    ensures DetectVoice(other, req) == DetectVoice(svc, req)
  {
  }

  /** A request without a Content-Type header is rejected with 415. */
  lemma MissingContentType(svc: Service, req: Request)
    requires req.contentType.None?
    ensures DetectVoice(svc, req) == Error(HttpError(415, "Unsupported Content-Type"))
  {
  }

  /**
   * Multipart is tested first: when the header contains `multipart/form-data`
   * (even alongside `application/json`), the JSON body is never read.
   */
  lemma MultipartTestedFirst(svc: Service, req: Request, body: Body)
    requires Text.Contains(ContentType(req), Multipart)
    ensures DetectVoice(svc, req.(body := body)) == DetectVoice(svc, req)
  {
  }

  /** A header such as `multipart/form-data; boundary=...` selects the upload branch. */
  lemma MultipartWithParameters(svc: Service, req: Request, parameters: string, body: Body)
    requires req.contentType == Some("multipart/form-data" + parameters)
    ensures DetectVoice(svc, req.(body := body)) == DetectVoice(svc, req)
    ensures req.file.None? ==> DetectVoice(svc, req) == Error(HttpError(400, "No file uploaded"))
  {
    Text.ContainsPrefix(Multipart, parameters);
  }

  /** Outside the multipart branch the form file is never looked at. */
  lemma NonMultipartIgnoresFile(svc: Service, req: Request, file: Option<Upload>)
    requires !Text.Contains(ContentType(req), Multipart)
    ensures DetectVoice(svc, req.(file := file)) == DetectVoice(svc, req)
  {
  }

  // ---------------------------------------------------------------------
  // The upload branch.

  /** A multipart request without a file gets 400 before any extension is examined or anything loaded. */
  lemma MissingFileRejected(svc: Service, other: Service, req: Request)
    requires Text.Contains(ContentType(req), Multipart)
    requires req.file.None?
    ensures DetectVoice(svc, req) == Error(HttpError(400, "No file uploaded"))
    ensures DetectVoice(other, req) == DetectVoice(svc, req)
  {
  }

  /** A file whose extension is not allowed gets 415, and the loader and classifier are never called. */
  lemma RejectedExtensionLoadsNothing(svc: Service, other: Service, req: Request)
    requires Text.Contains(ContentType(req), Multipart)
    requires req.file.Some? && Extension(req.file.value.filename) !in {"wav", "mp3", "flac"}
    ensures DetectVoice(svc, req) == Error(HttpError(415, "Unsupported audio format"))
    ensures DetectVoice(other, req) == DetectVoice(svc, req)
  {
  }

  /** Upper-case extensions are folded: `X.WAV` is accepted as `wav`. */
  lemma UpperCaseExtensionAccepted()
    ensures Extension("X.WAV") == "wav" && ExtensionAllowed("X.WAV")
  {
    assert "X.WAV" == "X" + [Text.Dot] + "WAV";
    Text.LastSegmentAfterDot("X", "WAV");
    var r := Text.AsciiLower("WAV");
    assert r[0] == 'w' && r[1] == 'a' && r[2] == 'v';
    assert r == "wav";
  }

  /** Only the last segment counts: `a.tar.flac` is accepted as `flac`. */
  lemma InnerDotsIgnored()
    ensures Extension("a.tar.flac") == "flac" && ExtensionAllowed("a.tar.flac")
  {
    assert "a.tar.flac" == "a.tar" + [Text.Dot] + "flac";
    Text.LastSegmentAfterDot("a.tar", "flac");
    var r := Text.AsciiLower("flac");
    assert r[0] == 'f' && r[1] == 'l' && r[2] == 'a' && r[3] == 'c';
    assert r == "flac";
  }

  /** An allowed inner segment does not help: `a.wav.ogg` is rejected as `ogg`. */
  lemma InnerAllowedSegmentRejected()
    ensures Extension("a.wav.ogg") == "ogg" && !ExtensionAllowed("a.wav.ogg")
  {
    assert "a.wav.ogg" == "a.wav" + [Text.Dot] + "ogg";
    Text.LastSegmentAfterDot("a.wav", "ogg");
    var r := Text.AsciiLower("ogg");
    assert r[0] == 'o' && r[1] == 'g' && r[2] == 'g';
    assert r == "ogg";
  }

  /** A name without a dot is its own extension: `wav` is accepted. */
  lemma DotlessNameIsItsOwnExtension()
    ensures Extension("wav") == "wav" && ExtensionAllowed("wav")
  {
    Text.LastSegmentOfDotFree("wav");
    var r := Text.AsciiLower("wav");
    assert r[0] == 'w' && r[1] == 'a' && r[2] == 'v';
    assert r == "wav";
  }

  /** A name ending in a dot has the empty extension and is rejected. */
  lemma TrailingDotRejected()
    ensures Extension("song.") == "" && !ExtensionAllowed("song.")
  {
    assert "song." == "song" + [Text.Dot] + "";
    Text.LastSegmentAfterDot("song", "");
  }

  /** The extension is the last segment whatever comes before the last dot. */
  lemma ExtensionIgnoresPrefix(prefix: string, ext: string)
    requires Text.DotFree(ext)
    ensures Extension(prefix + "." + ext) == Text.AsciiLower(ext)
  {
    Text.LastSegmentAfterDot(prefix, ext);
  }

  /** An accepted upload is classified and answered with a null request id. */
  lemma UploadAnswered(svc: Service, req: Request, w: Audio.Samples)
    requires Text.Contains(ContentType(req), Multipart)
    requires req.file.Some? && ExtensionAllowed(req.file.value.filename)
    requires Audio.LoadAndPreprocess(svc.lib, req.file.value.content) == Success(w)
    ensures DetectVoice(svc, req) == Ok(Respond(svc.predict(w), JNull))
  {
  }

  /** A loader error in the upload branch is passed to the client unchanged. */
  lemma UploadLoaderErrorPropagates(svc: Service, req: Request, e: HttpError)
    requires Text.Contains(ContentType(req), Multipart)
    requires req.file.Some? && ExtensionAllowed(req.file.value.filename)
    requires Audio.LoadAndPreprocess(svc.lib, req.file.value.content) == Failure(e)
    ensures DetectVoice(svc, req) == Error(e)
  {
  }

  // ---------------------------------------------------------------------
  // The JSON branch.

  /** A missing, null or empty `audio_url` gets 400 and nothing is downloaded. */
  lemma MissingAudioUrlRejected(svc: Service, other: Service, req: Request)
    requires !Text.Contains(ContentType(req), Multipart)
    requires Text.Contains(ContentType(req), ApplicationJson)
    requires req.body.Parsed? && req.body.value.JObject?
    requires !Truthy(Get(req.body.value.members, "audio_url"))
    ensures DetectVoice(svc, req) == Error(HttpError(400, "audio_url is required in JSON body"))
    ensures DetectVoice(other, req) == DetectVoice(svc, req)
  {
  }

  /** A JSON body that does not parse, or is not an object, ends in an uncaught exception. */
  lemma MalformedJsonBody(svc: Service, req: Request)
    requires !Text.Contains(ContentType(req), Multipart)
    requires Text.Contains(ContentType(req), ApplicationJson)
    requires req.body.Unparseable? || !req.body.value.JObject?
    ensures DetectVoice(svc, req) == InternalError
  {
  }

  /** A loaded URL is classified and answered with the body's `request_id`. */
  lemma UrlAnswered(svc: Service, req: Request, w: Audio.Samples)
    requires !Text.Contains(ContentType(req), Multipart)
    requires Text.Contains(ContentType(req), ApplicationJson)
    requires req.body.Parsed? && req.body.value.JObject?
    requires var url := Get(req.body.value.members, "audio_url");
      Truthy(url) && Audio.LoadAudioFromUrl(svc.lib, url) == Success(w)
    ensures DetectVoice(svc, req) == Ok(Respond(svc.predict(w), Get(req.body.value.members, "request_id")))
  {
  }

  /** `request_id` comes only from the JSON body; every upload answer carries null. */
  lemma RequestIdSource(svc: Service, req: Request)
    requires DetectVoice(svc, req).Ok?
    ensures Text.Contains(ContentType(req), Multipart) ==> DetectVoice(svc, req).response.requestId == JNull
    ensures !Text.Contains(ContentType(req), Multipart) ==>
      && req.body.Parsed? && req.body.value.JObject?
      && DetectVoice(svc, req).response.requestId == Get(req.body.value.members, "request_id")
  {
  }

  /** A loader error in the JSON branch is passed to the client unchanged. */
  lemma UrlLoaderErrorPropagates(svc: Service, req: Request, e: HttpError)
    requires !Text.Contains(ContentType(req), Multipart)
    requires Text.Contains(ContentType(req), ApplicationJson)
    requires req.body.Parsed? && req.body.value.JObject?
    requires var url := Get(req.body.value.members, "audio_url");
      Truthy(url) && Audio.LoadAudioFromUrl(svc.lib, url) == Failure(e)
    ensures DetectVoice(svc, req) == Error(e)
  {
  }

  // ---------------------------------------------------------------------
  // Classification.

  /** A request that is rejected never reaches the classifier. */
  lemma RejectedNeverClassified(svc: Service, req: Request, predict: Audio.Samples -> real)
    requires !DetectVoice(svc, req).Ok?
    ensures DetectVoice(svc.(predict := predict), req) == DetectVoice(svc, req)
  {
  }

  /**
   * When the classifier returns probabilities, the reported confidence is one:
   * a direct consequence of the reported confidence being `predict`'s output.
   */
  lemma ConfidenceIsProbability(svc: Service, req: Request)
    requires forall w :: 0.0 <= svc.predict(w) <= 1.0
    requires DetectVoice(svc, req).Ok?
    ensures 0.0 <= DetectVoice(svc, req).response.confidence <= 1.0
  {
  }
}
