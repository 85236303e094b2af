/**
 * OpusClient: the configuration check, the guard order and status-code
 * dispatch of synthesizeSpeech, the error-message table and the voice
 * table.
 *
 * The HTTP exchange is an input: `send(request)` is the status code the API
 * answered, with the body read and whether the connection has an error
 * stream, or the exception it threw. The client's messages
 * are Android string resources, so results are the message kinds (with the
 * values the source appends), not their localised texts.
 */
module Opus {
  import opened Text
  import Config
  import Language

  datatype Option<T> = None | Some(value: T)

  /** What synthesizeSpeech puts in its JSON request. */
  datatype Request = Request(text: string, voice: string, language: string)

  /**
   * The answer to a request: a status code with the body read and whether
   * getErrorStream() returns a stream (it returns null when the server sent
   * no error response, as for 201, 202 or 204), or an exception.
   */
  datatype Reply = Status(code: int, body: string, hasErrorStream: bool) | Failure(message: string)

  /** The seven error texts of getOpusErrorMessage and its fallback. */
  datatype ErrorDetail =
    | Error400 | Error401 | Error403 | Error404 | Error429 | Error500 | Error503 | ErrorUnknown

  /** The outcomes of synthesizeSpeech. */
  datatype SpeechResult =
    | NotConfigured                            // opus_not_configured
    | NoText                                   // opus_no_text
    | Synthesized(body: string)                // 200: the body handed to parseOpusResponse
    | Unauthorized                             // opus_unauthorized
    | BadRequest                               // opus_bad_request
    | ApiError(code: int, detail: ErrorDetail) // opus_api_error (code): getOpusErrorMessage(code)
    | ConnectionError(message: string)         // opus_connection_error + the exception's message

  const HttpOk: int := 200
  const HttpBadRequest: int := 400
  const HttpUnauthorized: int := 401

  /**
   * What `opus_connection_error + e.getMessage()` appends for the
   * NullPointerException that reading a null error stream raises: that
   * exception has no message, and Java concatenates a null as "null".
   */
  const NullMessage: string := "null"

  /** isConfigured. Every key ConfigReader.hasValidOpusKey accepts configures the client. */
  predicate IsConfigured(apiKey: Option<string>)
    ensures apiKey.Some? && Config.ValidServiceKey(apiKey.value) ==> IsConfigured(apiKey)
  {
    apiKey.Some? && |apiKey.value| > 0 && !Contains(apiKey.value, "your_actual_")
  }

  /** The converse fails: a short key configures the client but not ConfigReader. */
  lemma ShortKeyConfiguresOnlyClient(key: string)
    requires 0 < |key| && Utf16Length(key) <= 10 && 'y' !in key
    ensures IsConfigured(Some(key)) && !Config.ValidServiceKey(key)
  {
    if Contains(key, "your_actual_") {
      ContainsHead(key, "your_actual_");
    }
  }

  /** getOpusErrorMessage: seven known codes, the unknown text otherwise. */
  function OpusErrorMessage(code: int): (r: ErrorDetail)
    ensures r == ErrorUnknown <==> code !in {400, 401, 403, 404, 429, 500, 503}
  {
    match code
    case 400 => Error400
    case 401 => Error401
    case 403 => Error403
    case 404 => Error404
    case 429 => Error429
    case 500 => Error500
    case 503 => Error503
    case _ => ErrorUnknown
  }

  /** The status code each known error text describes. */
  function DetailCode(detail: ErrorDetail): Option<int>
  {
    match detail
    case Error400 => Some(400)
    case Error401 => Some(401)
    case Error403 => Some(403)
    case Error404 => Some(404)
    case Error429 => Some(429)
    case Error500 => Some(500)
    case Error503 => Some(503)
    case ErrorUnknown => None
  }

  /** Each known code has its own text, describing that code. */
  lemma ErrorMessageRoundTrip(code: int, detail: ErrorDetail)
    ensures OpusErrorMessage(code) != ErrorUnknown ==> DetailCode(OpusErrorMessage(code)) == Some(code)
    ensures DetailCode(detail).Some? ==> OpusErrorMessage(DetailCode(detail).value) == detail
  {
  }

  /**
   * The status dispatch after the request was sent. Any status other than
   * 200, 401 and 400 reads the error stream before answering; a missing one
   * throws, and the catch turns that into a connection error.
   */
  function Dispatch(reply: Reply): (r: SpeechResult)
    ensures r.Synthesized? <==> reply.Status? && reply.code == HttpOk
    ensures r.Unauthorized? <==> reply.Status? && reply.code == HttpUnauthorized
    ensures r.BadRequest? <==> reply.Status? && reply.code == HttpBadRequest
    ensures r.ApiError? <==>
      reply.Status? && reply.code !in {HttpOk, HttpUnauthorized, HttpBadRequest} && reply.hasErrorStream
    ensures r.ConnectionError? <==>
      reply.Failure? || (reply.Status? && reply.code !in {HttpOk, HttpUnauthorized, HttpBadRequest} && !reply.hasErrorStream)
    ensures r.Synthesized? ==> r.body == reply.body
    ensures r.ApiError? ==> r.code == reply.code && r.detail == OpusErrorMessage(reply.code)
    ensures r.ConnectionError? ==> r.message == if reply.Failure? then reply.message else NullMessage
  {
    match reply
    case Failure(message) => ConnectionError(message)
    case Status(code, body, hasErrorStream) =>
      if code == HttpOk then Synthesized(body)
      else if code == HttpUnauthorized then Unauthorized
      else if code == HttpBadRequest then BadRequest
      else if !hasErrorStream then ConnectionError(NullMessage)
      else ApiError(code, OpusErrorMessage(code))
  }

  /** A 202 Accepted carries no error stream: the client reports a connection error, not an API error. */
  lemma AcceptedIsConnectionError(body: string)
    ensures Dispatch(Status(202, body, false)) == ConnectionError(NullMessage)
    ensures !Dispatch(Status(202, body, false)).ApiError?
  {
  }

  /**
   * synthesizeSpeech(text, voice, language): configuration is checked
   * first, then the text (null or blank); only then is the request sent
   * and its status dispatched.
   */
  function SynthesizeSpeech(apiKey: Option<string>, text: Option<string>, voice: string, language: string,
                            send: Request -> Reply): (r: SpeechResult)
    ensures !IsConfigured(apiKey) ==> r == NotConfigured
    ensures IsConfigured(apiKey) && (text.None? || Trim(text.value) == []) ==> r == NoText
    ensures IsConfigured(apiKey) && text.Some? && Trim(text.value) != [] ==>
      r == Dispatch(send(Request(text.value, voice, language)))
    ensures r.ApiError? ==> r.detail == OpusErrorMessage(r.code) && r.detail !in {Error400, Error401}
  {
    if !IsConfigured(apiKey) then NotConfigured
    else if text.None? || Trim(text.value) == [] then NoText
    else Dispatch(send(Request(text.value, voice, language)))
  }

  /** The guards answer before any request is sent: the reply cannot change their result. */
  lemma GuardsSendNothing(apiKey: Option<string>, text: Option<string>, voice: string, language: string,
                          send1: Request -> Reply, send2: Request -> Reply)
    requires !IsConfigured(apiKey) || text.None? || Trim(text.value) == []
    ensures SynthesizeSpeech(apiKey, text, voice, language, send1) == SynthesizeSpeech(apiKey, text, voice, language, send2)
    ensures SynthesizeSpeech(apiKey, text, voice, language, send1) in {NotConfigured, NoText}
  {
  }

  const DefaultVoice: string := "en-US-Standard-B"

  /** getRecommendedVoice: by the lower-cased language, English by default. */
  function RecommendedVoice(language: string): (r: string)
    ensures r in {"ar-XA-Standard-A", "fr-FR-Standard-A", DefaultVoice, "es-ES-Standard-A", "de-DE-Standard-A"}
    ensures ToLower(language) !in {"ar", "fr", "en", "es", "de"} ==> r == DefaultVoice
  {
    match ToLower(language)
    case "ar" => "ar-XA-Standard-A"
    case "fr" => "fr-FR-Standard-A"
    case "en" => DefaultVoice
    case "es" => "es-ES-Standard-A"
    case "de" => "de-DE-Standard-A"
    case _ => DefaultVoice
  }

  /** The voice does not depend on the language's letter case. */
  lemma RecommendedVoiceIgnoresCase(language: string)
    ensures RecommendedVoice(ToLower(language)) == RecommendedVoice(language)
  {
    ToLowerIdempotent(language);
  }

  /** On the application's three languages, the client and LanguageHelper pick the same voice. */
  lemma RecommendedVoiceAgrees(code: string)
    requires code in Language.SupportedLanguages
    ensures RecommendedVoice(code) == Language.OpusVoiceForLanguage(code)
  {
    assert ToLower("fr") == "fr" && ToLower("en") == "en" && ToLower("ar") == "ar";
  }

  /** synthesizeSpeech(text): English, with the voice recommended for English. */
  function SynthesizeSpeechDefault(apiKey: Option<string>, text: Option<string>, send: Request -> Reply): (r: SpeechResult)
    ensures r == SynthesizeSpeech(apiKey, text, RecommendedVoice("en"), "en", send)
    ensures r == SynthesizeSpeech(apiKey, text, Language.OpusVoiceForLanguage("en"), "en", send)
  {
    RecommendedVoiceAgrees("en");
    SynthesizeSpeech(apiKey, text, DefaultVoice, "en", send)
  }
}
