# AI voice detector: request decisions and audio-loading errors

This project models the serving core of an AI voice detector, a small FastAPI
service that decides whether a speech recording is AI-generated. It covers two
parts of that service.

- **The `/v1/detect-voice` endpoint** (`detect_voice` in app/main.py). It
  dispatches on the Content-Type header by substring: `multipart/form-data`
  is tested first, then `application/json`, and anything else gets 415. An
  upload must carry a file whose extension is allowed. The extension is the
  last `.`-separated segment of the file name, lower-cased, and must be one of
  `wav`, `mp3` or `flac`. A JSON body must carry a truthy `audio_url`. The
  waveform is classified once. The confidence maps to a label with an
  inclusive 0.5 threshold, and to one of four fixed explanation sentences
  with the thresholds 0.75, 0.5 and 0.25.
- **The two audio loaders** (app/audio.py). The upload loader decodes, checks
  for empty audio, then normalizes. The URL loader downloads, checks the size,
  decodes, checks for empty audio, then normalizes. Each failing stage is
  reported as one fixed HTTP 400 message, and no later stage runs.

Modules:

- `Config`: the constants of app/config.py (allowed extensions, 16000 Hz, 60 s).
- `Http`: FastAPI's `HTTPException`, plus JSON values with Python's
  truthiness and `dict.get`.
- `Text`: the Python string operations the checks use. `Split` and `Join`
  model `split(".")` and `".".join`, and are proved inverse to each other.
  `AsciiLower` models `lower()`. `Contains` models the substring test `in`
  and is proved equal to "occurs at some index".
- `Audio`: the loaders, over a `Library` record. The record holds the
  download (`requests.get`), the decoder (`librosa.load`) and the normalizer
  (`librosa.util.normalize`) as function values.
- `Decision`: label and explanation bands.
- `Detect`: the endpoint, over a `Service` record that adds the classifier
  (`predict` of app/model.py) to the audio library.

"Stage X is never reached" is stated as independence. The result is
unchanged when that collaborator is replaced by any other function. The same
idea shows which arguments a collaborator is called with: any replacement
that agrees on the one request built from the constants (16000 Hz, mono, 60 s;
the `AI-Voice-Detector` user agent, a 10 s timeout, redirects allowed) gives
the same result.

There is no chunking and no averaging of windows. `predict` runs once on the
whole normalized waveform (app/main.py:70). Neither loader chunks or
truncates audio after decoding: each returns the normalization of the decoded
waveform. A download under 1000 bytes gets its own message, `Downloaded
audio file is empty or corrupted` (app/audio.py:69-73).

## Model

| member | source | states |
|---|---|---|
| Text.Split | app/main.py:42 | `split(".")` always yields at least one piece, and no piece contains a dot |
| Text.JoinSplit | app/main.py:42 | joining the pieces of a split with dots gives back the original name |
| Text.SplitJoin | app/main.py:42 | splitting a dot-join of dot-free pieces gives back the pieces |
| Text.LastSegment | app/main.py:42 | `split(".")[-1]` is a dot-free suffix of the name, and is either the whole name or preceded by a dot, so it is the longest dot-free suffix |
| Text.LastSegmentAfterDot | app/main.py:42 | for any prefix, the last segment of `prefix.ext` with a dot-free `ext` is `ext` |
| Text.LastSegmentOfDotFree | app/main.py:42 | a name without a dot is its own last segment |
| Text.AsciiLower | app/main.py:42 | lower-casing keeps the length, folds each letter in place and leaves no upper-case letter |
| Text.AsciiLowerIdempotent | app/main.py:42 | lower-casing twice is lower-casing once |
| Text.Contains | app/main.py:38-50 | the `in` test on the header is true exactly when the needle occurs at some index of the header |
| Text.ContainsPrefix | app/main.py:38 | a header that starts with a media type contains it, whatever parameters follow |
| Audio.PostProcess | app/audio.py:9-21 | a missing or empty waveform gives 400 `Empty or invalid audio file`; otherwise the result is the normalized waveform |
| Audio.RaisesForStatus | app/audio.py:62 | `raise_for_status` raises exactly for status classes 4xx and 5xx |
| Audio.LoadAndPreprocess | app/audio.py:24-43 | an upload fails only with `Invalid audio file` or `Empty or invalid audio file`, and every success is the normalization of a non-empty decoded waveform |
| Audio.LoadAudioFromUrl | app/audio.py:46-89 | a URL load fails only with one of four fixed 400 messages; a success means the download passed, had at least 1000 bytes, and is the normalization of a non-empty decode of those bytes |
| Audio.UploadDecodeFailure | app/audio.py:29-43 | every decode exception on an upload becomes 400 `Invalid audio file`, and the normalizer is never consulted |
| Audio.UploadEmptyDecode | app/audio.py:13-43 | a decode that returns no samples is reported as `Empty or invalid audio file`, not as a decode failure |
| Audio.UploadSuccessIff | app/audio.py:13-43 | the upload loader returns `w` if and only if decoding returned a non-empty waveform whose normalization is `w` |
| Audio.UploadDecodeArguments | app/audio.py:31-36 | the upload decoder is consulted only for the uploaded bytes at 16000 Hz, mono, at most 60 s |
| Audio.UploadNeverFetches | app/audio.py:24-43 | the upload loader never downloads anything |
| Audio.UrlFetchFailure | app/audio.py:52-67 | a download that raises or returns a 4xx/5xx status gives 400 `Failed to download audio from URL`, and decode and normalize are never consulted |
| Audio.UrlUndersizedDownload | app/audio.py:69-73 | a download under 1000 bytes gives 400 `Downloaded audio file is empty or corrupted`, and decoding is never attempted |
| Audio.UrlSizeBoundary | app/audio.py:69-73 | the size test is strict: a successful download of 1000 bytes or more is never reported as empty, corrupted or failed |
| Audio.UrlDecodeFailure | app/audio.py:75-87 | every decode exception on a download becomes 400 `Invalid audio file from URL` (not the upload message), and the normalizer is never consulted |
| Audio.UrlEmptyDecode | app/audio.py:75-89 | a download that decodes to no samples is reported as `Empty or invalid audio file`, not as a decode failure |
| Audio.UrlSuccessIff | app/audio.py:46-89 | the URL loader returns `w` if and only if the download passed, had at least 1000 bytes, and `w` is the normalization of its non-empty decode |
| Audio.UrlCallArguments | app/audio.py:53-82 | the downloader is consulted only for the URL with the service's headers, a 10 s timeout and redirects allowed; the decoder only for the downloaded bytes at 16000 Hz, mono, at most 60 s |
| Decision.LabelFor | app/main.py:71 | the label is `ai_generated` exactly when the confidence is at least 0.5 |
| Decision.BandFor | app/main.py:74-94 | the band's rank counts how many of the thresholds 0.25, 0.5 and 0.75 the confidence reaches |
| Decision.Sentence | app/main.py:74-94 | each band has its own fixed sentence, of length 150, 124, 118 or 114 characters |
| Decision.Explanation | app/main.py:74-94 | the explanation is the top sentence exactly from 0.75, the second exactly on [0.5, 0.75), the third exactly on [0.25, 0.5), the bottom one exactly below 0.25 |
| Decision.LabelThreshold | app/main.py:71 | the label is `ai_generated` if and only if confidence >= 0.5, so 0.5 is `ai_generated` and 0.4999 is `human` |
| Decision.BandIntervals | app/main.py:74-94 | the four bands are exactly [0.75, ..), [0.5, 0.75), [0.25, 0.5) and (.., 0.25) |
| Decision.BandBoundaries | app/main.py:74-94 | 0.75 is in the top band and 0.7499 is not; 0.5 is in the second band and 0.4999 in the third; 0.25 is in the third band and 0.2499 in the bottom one |
| Decision.SentencesDistinct | app/main.py:74-94 | the four explanation sentences are pairwise distinct, so an explanation names exactly one band |
| Decision.LabelAgreesWithBand | app/main.py:71-94 | the label is `ai_generated` exactly when the band is one of the top two |
| Decision.BandMonotone | app/main.py:74-94 | raising the confidence never moves the explanation to a lower band |
| Decision.LabelMonotone | app/main.py:71 | raising the confidence never turns `ai_generated` into `human` |
| Detect.Extension | app/main.py:42 | the checked extension has no dot, no upper-case letter, and is no longer than the file name |
| Detect.ContentType | app/main.py:35 | a missing Content-Type header reads as the empty string; a present one as its value |
| Detect.AcquireUpload | app/main.py:38-47 | no file gives 400 `No file uploaded`; a rejected extension gives 415 `Unsupported audio format`; the waveform is loaded exactly when the file is present, allowed and decodes, and then the request id is null; this branch never ends in a 500 |
| Detect.AcquireFromJson | app/main.py:50-61 | a body that does not parse or is not an object ends in a 500, and only then; a falsy `audio_url` gives 400; a loaded waveform comes from a successful load of the truthy `audio_url`, with the body's `request_id` |
| Detect.Acquire | app/main.py:35-67 | neither media type gives 415 `Unsupported Content-Type`; a multipart header always takes the upload branch; every HTTPException is a 400 or a 415; a 500 happens only in the JSON branch |
| Detect.Respond | app/main.py:71-105 | every success response has `success = true` and `model_version = "v1.1"`; its label and explanation are both derived from the classifier's confidence and agree with each other |
| Detect.DetectVoice | app/main.py:25-105 | a success carries the classifier's output on the loaded waveform, with label and explanation consistent with it; every HTTPException is a 400 or a 415; a malformed JSON body ends in a 500 |
| Detect.UnsupportedContentTypeLoadsNothing | app/main.py:35-67 | a Content-Type containing neither media type gives 415 `Unsupported Content-Type` whatever the loaders and classifier do |
| Detect.MissingContentType | app/main.py:35-67 | a missing Content-Type header is read as empty and gives 415 |
| Detect.MultipartTestedFirst | app/main.py:38-50 | when the header contains `multipart/form-data`, the JSON body never affects the reply |
| Detect.MultipartWithParameters | app/main.py:38-40 | a header `multipart/form-data; ...` selects the upload branch, and without a file gives 400 |
| Detect.NonMultipartIgnoresFile | app/main.py:50-67 | outside the multipart branch the form file never affects the reply |
| Detect.MissingFileRejected | app/main.py:39-40 | a multipart request without a file gives 400 `No file uploaded` before any extension or loader is involved |
| Detect.RejectedExtensionLoadsNothing | app/main.py:42-47 | an extension outside {wav, mp3, flac} gives 415 `Unsupported audio format`, and the loader and classifier are never called |
| Detect.UpperCaseExtensionAccepted | app/main.py:42-44 | `X.WAV` is checked as `wav` and accepted |
| Detect.InnerDotsIgnored | app/main.py:42-44 | `a.tar.flac` is checked as `flac` and accepted |
| Detect.InnerAllowedSegmentRejected | app/main.py:42-44 | `a.wav.ogg` is checked as `ogg` and rejected |
| Detect.DotlessNameIsItsOwnExtension | app/main.py:42-44 | a dot-less name `wav` is its own extension and accepted |
| Detect.TrailingDotRejected | app/main.py:42-44 | a name ending in a dot has the empty extension and is rejected |
| Detect.ExtensionIgnoresPrefix | app/main.py:42 | the extension of `prefix.ext` is `ext` lower-cased, whatever the prefix holds |
| Detect.UploadAnswered | app/main.py:46-105 | an accepted upload that loads to `w` is answered with the classification of `w` and a null request id |
| Detect.UploadLoaderErrorPropagates | app/main.py:46-47 | an upload loader error reaches the client unchanged |
| Detect.MissingAudioUrlRejected | app/main.py:52-59 | a missing, null or otherwise falsy `audio_url` gives 400 `audio_url is required in JSON body` and nothing is downloaded |
| Detect.MalformedJsonBody | app/main.py:51-53 | a body that does not parse, or is not a JSON object, ends in an uncaught exception |
| Detect.UrlAnswered | app/main.py:51-105 | a loaded URL is answered with the classification of its waveform and the body's `request_id` |
| Detect.UrlLoaderErrorPropagates | app/main.py:61 | a URL loader error, such as 400 `Failed to download audio from URL`, reaches the client unchanged |
| Detect.RequestIdSource | app/main.py:33-103 | `request_id` comes only from the JSON body; upload answers carry null |
| Detect.RejectedNeverClassified | app/main.py:38-70 | a request that is not answered with success never reaches the classifier |
| Detect.ConfidenceIsProbability | app/main.py:70-100 | when the classifier returns probabilities, the reported confidence lies in [0, 1]; a direct consequence of the confidence being `predict`'s output |

## Left out

- Downloading, decoding, resampling and normalizing audio, and the classifier itself, are not modelled. They are function values that the model receives. This covers `requests.get`, `librosa.load`, `librosa.util.normalize`, and the MFCC features and `predict_proba` of app/model.py.
- Waveform samples and confidences are reals, not floats. NaN and infinities are not modelled.
- Audio.PostProcess: the normalizer is a total function. `librosa.util.normalize` raising on non-finite samples is not modelled; it is outside any `try`, so in the service it would end in a 500.
- Detect.DetectVoice: the classifier is a total function. An exception inside `predict` is not modelled; it would end in a 500.
- Detect.DetectVoice: the `confidence` field holds the unrounded classifier output, because `round(confidence, 3)` is float rounding. In the service the label and the sentence use the unrounded value, so a reported confidence rounded onto 0.25, 0.5 or 0.75 can sit on the other side of a threshold from them: 0.4996 is reported as 0.5 with `human`, and 0.7496 as 0.75 with the second-band sentence. `processing_time_ms` is left out because it reads the wall clock.
- Text.AsciiLower: only `A`–`Z` are folded, while Python's `lower()` folds all of Unicode. The allow-list verdict is the same either way. The only non-ASCII characters whose Python lower-case contains ASCII letters are U+0130, which gives `i` and a combining dot, and U+212A, which gives `k`. Neither letter occurs in `wav`, `mp3` or `flac`.
- Detect.Upload: the file name is always a string. A form part whose file name is missing is not modelled.
- The Content-Type header is taken as the value the framework returns. Case-insensitive header lookup, form parsing and request validation (422) belong to FastAPI and are not modelled.
- Token verification (`verify_token`) is not part of this model; app/auth is not part of this model either.
- CORS middleware, the `/health` endpoint and async/await are not modelled.
- `MAX_FILE_SIZE_MB` is declared in app/config.py, but nothing in the code enforces it, so there is nothing to model.
- The offline training script and the unused response schema are not modelled. They are not on the serving path.
