/** The text-to-speech routes: they validate a request and map its short
    language code to the regional tag a browser speech engine expects; no
    audio is produced on the server. */
module Tts {
  import opened Http

  const MinTextLength: int := 1
  const MaxTextLength: int := 5000

  /** The alternatives of the `lang` field's pattern `^(en|es|fr|ar|ur|zh)$`. */
  const LangPattern: seq<string> := ["en", "es", "fr", "ar", "ur", "zh"]

  /** The handler's table from short code to regional tag. */
  const LangCodes: map<string, string> :=
    map["en" := "en-US", "es" := "es-ES", "fr" := "fr-FR",
        "ar" := "ar-SA", "ur" := "ur-PK", "zh" := "zh-CN"]

  /** A request that passed field validation. */
  datatype TtsRequest = TtsRequest(text: string, lang: string)
  datatype TtsResponse = TtsResponse(text: string, lang: string)

  /** The field constraints of `TTSRequest`: a text of 1 to 5000 characters
      and a language matching one alternative of the pattern. */
  predicate Admitted(text: string, lang: string) {
    MinTextLength <= |text| <= MaxTextLength && lang in LangPattern
  }

  /** The response the framework sends when it rejects a request body. */
  const BodyRejected: HttpError := HttpError(UnprocessableEntity, "Validation error")

  /** Building a `TTSRequest`: the request itself, or `failure`, the error
      response the caller's context turns a validation error into. */
  function Validate(text: string, lang: string, failure: HttpError): (r: Result<TtsRequest>)
    ensures r.Ok? <==> 1 <= |text| <= 5000 && lang in {"en", "es", "fr", "ar", "ur", "zh"}
    ensures r.Ok? ==> r.value == TtsRequest(text, lang)
    ensures r.Err? ==> r.error == failure
  {
    if Admitted(text, lang) then Ok(TtsRequest(text, lang))
    else Err(failure)
  }

  /** `GET /text-to-speech/test`: a fixed answer. */
  function TestConnection(): (r: TtsResponse)
    ensures r.text == "Test successful" && r.lang == LangCodes["en"]
  {
    TtsResponse("Test successful", "en-US")
  }

  /** The body of `text_to_speech`: the text unchanged with the regional tag
      of its language. A code missing from the table raises a 400 that the
      handler's own catch-all turns into a 500 whose detail is the text of
      that 400. */
  function TextToSpeech(req: TtsRequest): (r: Result<TtsResponse>)
    ensures r.Ok? <==> req.lang in LangCodes
    ensures r.Ok? ==> r.value.text == req.text
    ensures r.Ok? ==> |r.value.lang| == 5 && r.value.lang[..2] == req.lang && r.value.lang[2] == '-'
    ensures r.Ok? ==> r.value == TtsResponse(req.text, LangCodes[req.lang])
    ensures r.Err? ==> r.error.status == InternalServerError
  {
    if req.lang !in LangCodes then
      Err(HttpError(InternalServerError, "400: Unsupported language: " + req.lang))
    else
      Ok(TtsResponse(req.text, LangCodes[req.lang]))
  }

  /** `POST /text-to-speech`: the body is validated by the framework before
      the handler runs, so a bad body is answered with 422. */
  function TextToSpeechPost(text: string, lang: string): (r: Result<TtsResponse>)
    ensures r.Ok? <==> Admitted(text, lang)
    ensures !Admitted(text, lang) ==> r.error.status == UnprocessableEntity
    ensures r.Ok? ==> r.value.text == text && r.value.lang == LangCodes[lang]
  {
    match Validate(text, lang, BodyRejected)
    case Err(e) => Err(e)
    case Ok(req) => TextToSpeech(req)
  }

  /** `GET /text-to-speech/{text}`: `lang` defaults to "en"; the request is
      built inside the handler, so a validation error there is uncaught and
      answered with 500. */
  function TextToSpeechGet(text: string, lang: Option<string>): (r: Result<TtsResponse>)
    ensures r.Ok? <==> Admitted(text, lang.GetOr("en"))
    ensures r.Err? ==> r.error.status == InternalServerError
    ensures !Admitted(text, lang.GetOr("en")) ==> r.error == HttpError(InternalServerError, UncaughtDetail)
  {
    match Validate(text, lang.GetOr("en"), HttpError(InternalServerError, UncaughtDetail))
    case Err(e) => Err(e)
    case Ok(req) => TextToSpeech(req)
  }

  /** Every code the pattern admits has a table entry, so the handler's
      "Unsupported language" branch cannot be reached after validation. */
  lemma PatternCodesAreMapped(lang: string)
    requires lang in LangPattern
    ensures lang in LangCodes
  {
  }

  /** The table sends each code to its own regional tag: the tag begins with
      the code, so no two codes share a tag. */
  lemma TagsNameTheirCode(a: string, b: string)
    requires a in LangCodes && b in LangCodes
    ensures LangCodes[a][..2] == a
    ensures LangCodes[a] == LangCodes[b] ==> a == b
  {
  }

  /** An admitted request always succeeds, with its text unchanged. */
  lemma AdmittedRequestSucceeds(req: TtsRequest)
    requires Admitted(req.text, req.lang)
    ensures TextToSpeech(req) == Ok(TtsResponse(req.text, LangCodes[req.lang]))
  {
  }

  /** The GET form answers like the POST form for admitted input, with
      "en" standing in for a missing language; it differs only in the status
      of the rejection. */
  lemma GetDelegatesToPost(text: string, lang: Option<string>)
    ensures Admitted(text, lang.GetOr("en")) ==> TextToSpeechGet(text, lang) == TextToSpeechPost(text, lang.GetOr("en"))
    ensures !Admitted(text, lang.GetOr("en")) ==>
      TextToSpeechGet(text, lang).error.status == InternalServerError &&
      TextToSpeechPost(text, lang.GetOr("en")).error.status == UnprocessableEntity
  {
  }
}
