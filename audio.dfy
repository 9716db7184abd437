/**
 * The two audio loaders of app/audio.py: an uploaded file's bytes, or a
 * URL to download, go through fixed stages, and each stage's failure is
 * reported as one fixed HTTP 400 message.
 *
 * The network fetch (`requests.get`), the decoder (`librosa.load`) and the
 * amplitude normalizer (`librosa.util.normalize`) are not modelled: they are
 * the fields of a `Library` value that the loaders receive.
 */
module Audio {
  import opened Wrappers
  import opened Http
  import Config

  newtype Byte = x: int | 0 <= x < 256

  /** A decoded waveform: one sample per entry (floats modelled as reals). */
  type Samples = seq<real>

  /** The arguments of one `librosa.load` call. */
  datatype DecodeRequest = DecodeRequest(data: seq<Byte>, sampleRate: nat, mono: bool, maxDuration: nat)

  /** What `librosa.load` does: raise, or return an array (possibly `None` or empty). */
  datatype Decoded = DecodeRaised | DecodeReturned(audio: Option<Samples>)

  /** The arguments of one `requests.get` call. */
  datatype FetchRequest = FetchRequest(
    url: Json, userAgent: string, accept: string, timeoutSeconds: nat, allowRedirects: bool)

  /** What `requests.get` does: raise (connection error, timeout, bad URL) or return a response. */
  datatype Fetched = FetchRaised | Response(statusCode: int, content: seq<Byte>)

  /** The library calls the loaders make. */
  datatype Library = Library(
    fetch: FetchRequest -> Fetched,
    decode: DecodeRequest -> Decoded,
    normalize: Samples -> Samples)

  const InvalidAudioFile: string := "Invalid audio file"
  const InvalidAudioFromUrl: string := "Invalid audio file from URL"
  const EmptyAudioFile: string := "Empty or invalid audio file"
  const DownloadFailed: string := "Failed to download audio from URL"
  const DownloadEmpty: string := "Downloaded audio file is empty or corrupted"

  /** Downloads shorter than this many bytes are rejected before decoding. */
  const MinDownloadBytes: nat := 1000

  /** The one decode request either loader makes for `data`. */
  function DecodeQuery(data: seq<Byte>): DecodeRequest {
    DecodeRequest(data, Config.TargetSampleRate, true, Config.MaxAudioDuration)
  }

  /** The one download request the URL loader makes for `url`. */
  function FetchQuery(url: Json): FetchRequest {
    FetchRequest(url, "AI-Voice-Detector", "*/*", 10, true)
  }

  /** `response.raise_for_status()` raises for client and server errors: status classes 4xx and 5xx. */
  predicate RaisesForStatus(statusCode: int)
    ensures RaisesForStatus(statusCode) <==> statusCode / 100 == 4 || statusCode / 100 == 5
  {
    400 <= statusCode < 600
  }

  /** The download of `url` raised or came back with an error status. */
  predicate FetchFails(lib: Library, url: Json) {
    var f := lib.fetch(FetchQuery(url));
    f.FetchRaised? || RaisesForStatus(f.statusCode)
  }

  /** `w` is the normalization of the non-empty waveform that decoding `data` returned. */
  predicate NormalizedDecodeOf(lib: Library, data: seq<Byte>, w: Samples) {
    var d := lib.decode(DecodeQuery(data));
    && d.DecodeReturned?
    && d.audio.Some?
    && |d.audio.value| > 0
    && w == lib.normalize(d.audio.value)
  }

  /** `_post_process`: reject a missing or empty waveform, otherwise normalize it. */
  function PostProcess(normalize: Samples -> Samples, audio: Option<Samples>): (r: Result<Samples, HttpError>)
    ensures r.Success? <==> audio.Some? && |audio.value| > 0
    ensures r.Success? ==> r.value == normalize(audio.value)
    ensures r.Failure? ==> r.error == BadRequest(EmptyAudioFile)
  {
    if audio.None? || |audio.value| == 0 then Failure(BadRequest(EmptyAudioFile))
    else Success(normalize(audio.value))
  }

  /** `load_and_preprocess`: decode the uploaded bytes, then post-process. */
  function LoadAndPreprocess(lib: Library, fileBytes: seq<Byte>): (r: Result<Samples, HttpError>)
    ensures r.Failure? ==> r.error in {BadRequest(InvalidAudioFile), BadRequest(EmptyAudioFile)}
    ensures r.Success? ==> NormalizedDecodeOf(lib, fileBytes, r.value)
  {
    match lib.decode(DecodeQuery(fileBytes))
    case DecodeRaised => Failure(BadRequest(InvalidAudioFile))
    case DecodeReturned(audio) => PostProcess(lib.normalize, audio)
  }

  /** `load_audio_from_url`: download, check the size, decode, then post-process. */
  function LoadAudioFromUrl(lib: Library, url: Json): (r: Result<Samples, HttpError>)
    ensures r.Failure? ==> r.error in {
      BadRequest(DownloadFailed), BadRequest(DownloadEmpty),
      BadRequest(InvalidAudioFromUrl), BadRequest(EmptyAudioFile)}
    ensures r.Success? ==>
      && !FetchFails(lib, url)
      && |lib.fetch(FetchQuery(url)).content| >= MinDownloadBytes
      && NormalizedDecodeOf(lib, lib.fetch(FetchQuery(url)).content, r.value)
  {
    match lib.fetch(FetchQuery(url))
    case FetchRaised => Failure(BadRequest(DownloadFailed))
    case Response(statusCode, content) =>
      if RaisesForStatus(statusCode) then Failure(BadRequest(DownloadFailed))
      else if |content| == 0 || |content| < MinDownloadBytes then Failure(BadRequest(DownloadEmpty))
      else
        match lib.decode(DecodeQuery(content))
        case DecodeRaised => Failure(BadRequest(InvalidAudioFromUrl))
        case DecodeReturned(audio) => PostProcess(lib.normalize, audio)
  }

  // ---------------------------------------------------------------------
  // The upload loader: which stage reports which error.

  /** Every decode exception becomes the one upload message, and normalize is never reached. */
  lemma UploadDecodeFailure(lib: Library, fileBytes: seq<Byte>, normalize: Samples -> Samples)
    requires lib.decode(DecodeQuery(fileBytes)).DecodeRaised?
    ensures LoadAndPreprocess(lib, fileBytes) == Failure(BadRequest(InvalidAudioFile))
    ensures LoadAndPreprocess(lib.(normalize := normalize), fileBytes) == LoadAndPreprocess(lib, fileBytes)
  {
  }

  /**
   * A decode that succeeds with no samples is reported as empty audio, not as
   * a decode failure: the emptiness check runs after the decoder returned.
   */
  lemma UploadEmptyDecode(lib: Library, fileBytes: seq<Byte>)
    requires lib.decode(DecodeQuery(fileBytes)).DecodeReturned?
    requires var a := lib.decode(DecodeQuery(fileBytes)).audio; a.None? || |a.value| == 0
    ensures LoadAndPreprocess(lib, fileBytes) == Failure(BadRequest(EmptyAudioFile))
    ensures LoadAndPreprocess(lib, fileBytes) != Failure(BadRequest(InvalidAudioFile))
  {
  }

  /** The upload loader succeeds exactly when decoding returns a non-empty waveform. */
  lemma UploadSuccessIff(lib: Library, fileBytes: seq<Byte>, w: Samples)
    ensures LoadAndPreprocess(lib, fileBytes) == Success(w) <==> NormalizedDecodeOf(lib, fileBytes, w)
  {
  }

  /**
   * The decoder is only ever asked for `fileBytes` at 16000 Hz, mono, at most
   * 60 seconds: any decoder that agrees on that one request gives the same result.
   */
  lemma UploadDecodeArguments(lib: Library, fileBytes: seq<Byte>, decode: DecodeRequest -> Decoded)
    requires decode(DecodeRequest(fileBytes, 16000, true, 60)) == lib.decode(DecodeRequest(fileBytes, 16000, true, 60))
    ensures LoadAndPreprocess(lib.(decode := decode), fileBytes) == LoadAndPreprocess(lib, fileBytes)
  {
  }

  /** The upload loader never downloads anything. */
  lemma UploadNeverFetches(lib: Library, fileBytes: seq<Byte>, fetch: FetchRequest -> Fetched)
    ensures LoadAndPreprocess(lib.(fetch := fetch), fileBytes) == LoadAndPreprocess(lib, fileBytes)
  {
  }

  // ---------------------------------------------------------------------
  // The URL loader: which stage reports which error, and what is never reached.

  /**
   * A download that raises or returns a 4xx/5xx status is reported as a failed
   * download, and neither the decoder nor the normalizer is consulted.
   */
  lemma UrlFetchFailure(lib: Library, url: Json, decode: DecodeRequest -> Decoded, normalize: Samples -> Samples)
    requires FetchFails(lib, url)
    ensures LoadAudioFromUrl(lib, url) == Failure(BadRequest(DownloadFailed))
    ensures LoadAudioFromUrl(lib.(decode := decode, normalize := normalize), url) == LoadAudioFromUrl(lib, url)
  {
  }

  /**
   * A successful download of fewer than 1000 bytes is reported as empty or
   * corrupted, and decoding is never attempted.
   */
  lemma UrlUndersizedDownload(lib: Library, url: Json, decode: DecodeRequest -> Decoded, normalize: Samples -> Samples)
    requires !FetchFails(lib, url)
    requires |lib.fetch(FetchQuery(url)).content| < 1000
    ensures LoadAudioFromUrl(lib, url) == Failure(BadRequest(DownloadEmpty))
    ensures LoadAudioFromUrl(lib.(decode := decode, normalize := normalize), url) == LoadAudioFromUrl(lib, url)
  {
  }

  /** The size test is strict: a download of 1000 bytes or more goes on to decoding. */
  lemma UrlSizeBoundary(lib: Library, url: Json)
    requires !FetchFails(lib, url)
    requires |lib.fetch(FetchQuery(url)).content| >= 1000
    ensures LoadAudioFromUrl(lib, url) != Failure(BadRequest(DownloadEmpty))
    ensures LoadAudioFromUrl(lib, url) != Failure(BadRequest(DownloadFailed))
  {
  }

  /** Every decode exception becomes the one URL message, and normalize is never reached. */
  lemma UrlDecodeFailure(lib: Library, url: Json, normalize: Samples -> Samples)
    requires !FetchFails(lib, url)
    requires |lib.fetch(FetchQuery(url)).content| >= 1000
    requires lib.decode(DecodeQuery(lib.fetch(FetchQuery(url)).content)).DecodeRaised?
    ensures LoadAudioFromUrl(lib, url) == Failure(BadRequest(InvalidAudioFromUrl))
    ensures LoadAudioFromUrl(lib, url) != Failure(BadRequest(InvalidAudioFile))
    ensures LoadAudioFromUrl(lib.(normalize := normalize), url) == LoadAudioFromUrl(lib, url)
  {
  }

  /** An empty decode of a download is reported as empty audio, not as a decode failure. */
  lemma UrlEmptyDecode(lib: Library, url: Json)
    requires !FetchFails(lib, url)
    requires |lib.fetch(FetchQuery(url)).content| >= 1000
    requires var d := lib.decode(DecodeQuery(lib.fetch(FetchQuery(url)).content));
      d.DecodeReturned? && (d.audio.None? || |d.audio.value| == 0)
    ensures LoadAudioFromUrl(lib, url) == Failure(BadRequest(EmptyAudioFile))
    ensures LoadAudioFromUrl(lib, url) != Failure(BadRequest(InvalidAudioFromUrl))
  {
  }

  /** The URL loader succeeds exactly when every stage passes. */
  lemma UrlSuccessIff(lib: Library, url: Json, w: Samples)
    ensures LoadAudioFromUrl(lib, url) == Success(w) <==>
      && !FetchFails(lib, url)
      && |lib.fetch(FetchQuery(url)).content| >= 1000
      && NormalizedDecodeOf(lib, lib.fetch(FetchQuery(url)).content, w)
  {
  }

  /**
   * The downloader is only asked for `url` with the service's user agent, a
   * 10 second timeout and redirects allowed, and the decoder only for the
   * downloaded bytes at 16000 Hz, mono, at most 60 seconds.
   */
  lemma UrlCallArguments(
    lib: Library, url: Json, fetch: FetchRequest -> Fetched, decode: DecodeRequest -> Decoded)
    requires var q := FetchRequest(url, "AI-Voice-Detector", "*/*", 10, true);
      fetch(q) == lib.fetch(q)
    requires var f := lib.fetch(FetchRequest(url, "AI-Voice-Detector", "*/*", 10, true));
      f.Response? ==> decode(DecodeRequest(f.content, 16000, true, 60)) == lib.decode(DecodeRequest(f.content, 16000, true, 60))
    ensures LoadAudioFromUrl(lib.(fetch := fetch, decode := decode), url) == LoadAudioFromUrl(lib, url)
  {
  }
}
