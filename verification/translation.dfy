/** The translation and provider-response routes, up to and after the call
    to the completion service: configuration check, language lookup, prompt
    construction, and extraction of the answer from the service's reply.
    The reply is an input value; the call itself is not modelled. */
module Translation {
  import opened Http
  import Text

  /** The language table both handlers use. */
  const LangNames: map<string, string> :=
    map["en" := "English", "es" := "Spanish", "fr" := "French", "ar" := "Arabic",
        "ur" := "Urdu", "zh" := "Chinese", "hi" := "Hindi", "pt" := "Portuguese"]

  const FallbackLanguage: string := "English"
  const CompletionModel: string := "mistralai/Mixtral-8x7B-Instruct-v0.1"
  const MaxTokens: int := 1500
  /** The sampling temperature 0.7, in tenths. */
  const TemperatureTenths: int := 7

  const PromptOpen: string := "<s>[INST] "
  const PromptClose: string := " [/INST]"

  const ReplyFormatError: string := "Invalid response format from Together AI"

  /** The answer of either handler when no API key is configured. */
  const KeyNotConfigured: HttpError := HttpError(InternalServerError, "Together AI API key not configured")

  datatype TranslationRequest = TranslationRequest(text: string, sourceLang: string, targetLang: string)
  datatype ProviderRequest = ProviderRequest(text: string, lang: string)

  /** What is sent to the completion service. */
  datatype Outbound = Outbound(authorization: string, model: string, prompt: string,
                               maxTokens: int, temperatureTenths: int)

  /** One entry of `choices`; `text` is None when the key is absent. */
  datatype Choice = Choice(text: Option<string>)

  /** The outcome of the call: a transport, status or JSON failure (a
      `RequestException`) with its message, or a parsed body whose `choices`
      is None when the key is absent. */
  datatype Completion = TransportError(message: string) | Body(choices: Option<seq<Choice>>)

  /** The instruction wrapped in the model's chat markers. */
  function Wrap(instruction: string): string {
    PromptOpen + instruction + PromptClose
  }

  /** The instruction inside a wrapped prompt, if `s` is one. */
  function Unwrap(s: string): (r: Option<string>)
    ensures r.Some? ==> |r.value| + |PromptOpen| + |PromptClose| == |s|
  {
    if |s| >= |PromptOpen| + |PromptClose| && s[..|PromptOpen|] == PromptOpen && s[|s| - |PromptClose|..] == PromptClose
    then Some(s[|PromptOpen|..|s| - |PromptClose|])
    else None
  }

  /** Wrapping loses nothing: the instruction can be read back. */
  lemma UnwrapWrap(instruction: string)
    ensures Unwrap(Wrap(instruction)) == Some(instruction)
  {
  }

  /** Every string `Unwrap` accepts is the wrapping of what it returns. */
  lemma WrapUnwrap(s: string)
    requires Unwrap(s).Some?
    ensures Wrap(Unwrap(s).value) == s
  {
  }

  /** `not TOGETHER_AI_API_KEY`: the key is unset or empty. */
  predicate KeyMissing(apiKey: Option<string>) {
    apiKey.None? || apiKey.value == []
  }

  function TranslationInstruction(sourceName: string, targetName: string, text: string): string {
    "Translate the following text from " + sourceName + " to " + targetName
      + ", ensuring the translation is complete and accurate: '" + text + "'"
  }

  function ProviderInstruction(langName: string, text: string): string {
    "You are Dr. Martinez, a healthcare expert. Provide a professional, complete response in "
      + langName + " to the following patient query. "
      + "Ensure the response is complete, and includes all relevant medical advice: '" + text + "'"
  }

  function OutboundFor(apiKey: string, instruction: string): Outbound {
    Outbound("Bearer " + apiKey, CompletionModel, Wrap(instruction), MaxTokens, TemperatureTenths)
  }

  /** The part of `translate` before the call: the configuration check
      first, then the target language; the source language falls back to
      English and is never rejected. */
  function TranslatePlan(apiKey: Option<string>, req: TranslationRequest): (r: Result<Outbound>)
    ensures KeyMissing(apiKey) ==> r == Err(KeyNotConfigured)
    ensures !KeyMissing(apiKey) ==> (r.Err? <==> req.targetLang !in LangNames)
    ensures !KeyMissing(apiKey) && r.Err? ==> r.error.status == BadRequest
    ensures r.Ok? ==> r.value.authorization == "Bearer " + apiKey.value
    ensures r.Ok? ==> r.value.model == CompletionModel && r.value.maxTokens == 1500 && r.value.temperatureTenths == 7
    ensures r.Ok? ==> Unwrap(r.value.prompt) == Some(TranslationInstruction(
      if req.sourceLang in LangNames then LangNames[req.sourceLang] else FallbackLanguage,
      LangNames[req.targetLang], req.text))
  {
    if KeyMissing(apiKey) then
      Err(KeyNotConfigured)
    else if req.targetLang !in LangNames || LangNames[req.targetLang] == [] then
      Err(HttpError(BadRequest, "Unsupported target language"))
    else
      var sourceName := if req.sourceLang in LangNames then LangNames[req.sourceLang] else FallbackLanguage;
      UnwrapWrap(TranslationInstruction(sourceName, LangNames[req.targetLang], req.text));
      Ok(OutboundFor(apiKey.value, TranslationInstruction(sourceName, LangNames[req.targetLang], req.text)))
  }

  /** The part of `provider_response` before the call: only the
      configuration check can fail; an unknown language reads as English. */
  function ProviderPlan(apiKey: Option<string>, req: ProviderRequest): (r: Result<Outbound>)
    ensures r.Err? <==> KeyMissing(apiKey)
    ensures r.Err? ==> r.error == KeyNotConfigured
    ensures r.Ok? ==> r.value.authorization == "Bearer " + apiKey.value
    ensures r.Ok? ==> r.value.model == CompletionModel && r.value.maxTokens == 1500 && r.value.temperatureTenths == 7
    ensures r.Ok? ==> Unwrap(r.value.prompt) == Some(ProviderInstruction(
      if req.lang in LangNames then LangNames[req.lang] else FallbackLanguage, req.text))
  {
    if KeyMissing(apiKey) then
      Err(KeyNotConfigured)
    else
      var langName := if req.lang in LangNames then LangNames[req.lang] else FallbackLanguage;
      UnwrapWrap(ProviderInstruction(langName, req.text));
      Ok(OutboundFor(apiKey.value, ProviderInstruction(langName, req.text)))
  }

  /** The part of either handler after the call: a request failure becomes
      500 with `failurePrefix` and the failure's message; a body without
      choices becomes 500; a first choice without `text` raises an uncaught
      error (500); otherwise the first choice's text, stripped. */
  function ExtractAnswer(failurePrefix: string, reply: Completion): (r: Result<string>)
    ensures r.Ok? <==> reply.Body? && reply.choices.Some? && |reply.choices.value| > 0
                       && reply.choices.value[0].text.Some?
    ensures r.Ok? ==> Text.IsStripOf(reply.choices.value[0].text.value, r.value)
    ensures r.Err? ==> r.error.status == InternalServerError
    ensures reply.TransportError? ==> r.error.detail == failurePrefix + reply.message
  {
    match reply
    case TransportError(message) => Err(HttpError(InternalServerError, failurePrefix + message))
    case Body(choices) =>
      if choices.None? || choices.value == [] then
        Err(HttpError(InternalServerError, ReplyFormatError))
      else
        match choices.value[0].text
        case None => Err(HttpError(InternalServerError, UncaughtDetail))
        case Some(t) => Ok(Text.Strip(t))
  }

  /** `POST /translate` with `reply` standing for the service's answer to
      the request `TranslatePlan` builds. */
  function Translate(apiKey: Option<string>, req: TranslationRequest, reply: Completion): (r: Result<string>)
    ensures KeyMissing(apiKey) ==> r == Err(KeyNotConfigured)
    ensures !KeyMissing(apiKey) && req.targetLang !in LangNames ==>
      r == Err(HttpError(BadRequest, "Unsupported target language"))
    ensures r.Ok? <==> !KeyMissing(apiKey) && req.targetLang in LangNames && reply.Body?
                       && reply.choices.Some? && |reply.choices.value| > 0 && reply.choices.value[0].text.Some?
    ensures r.Ok? ==> Text.IsStripOf(reply.choices.value[0].text.value, r.value)
    ensures !KeyMissing(apiKey) && req.targetLang in LangNames && reply.TransportError? ==>
      r == Err(HttpError(InternalServerError, "Translation failed: " + reply.message))
    ensures r.Err? ==> r.error.status in {BadRequest, InternalServerError}
  {
    match TranslatePlan(apiKey, req)
    case Err(e) => Err(e)
    case Ok(_) => ExtractAnswer("Translation failed: ", reply)
  }

  /** `POST /provider-response` with `reply` standing for the service's
      answer to the request `ProviderPlan` builds. */
  function ProviderResponse(apiKey: Option<string>, req: ProviderRequest, reply: Completion): (r: Result<string>)
    ensures KeyMissing(apiKey) ==> r == Err(KeyNotConfigured)
    ensures r.Ok? <==> !KeyMissing(apiKey) && reply.Body? && reply.choices.Some?
                       && |reply.choices.value| > 0 && reply.choices.value[0].text.Some?
    ensures r.Ok? ==> Text.IsStripOf(reply.choices.value[0].text.value, r.value)
    ensures !KeyMissing(apiKey) && reply.TransportError? ==>
      r == Err(HttpError(InternalServerError, "AI response failed: " + reply.message))
    ensures r.Err? ==> r.error.status == InternalServerError
  {
    match ProviderPlan(apiKey, req)
    case Err(e) => Err(e)
    case Ok(_) => ExtractAnswer("AI response failed: ", reply)
  }

  /** A missing key is reported before anything about the languages, by
      both handlers, whatever the service would have answered. */
  lemma MissingKeyFirst(apiKey: Option<string>, t: TranslationRequest, p: ProviderRequest, reply: Completion)
    requires KeyMissing(apiKey)
    ensures Translate(apiKey, t, reply) == Err(KeyNotConfigured)
    ensures ProviderResponse(apiKey, p, reply) == Err(KeyNotConfigured)
  {
  }

  /** An unsupported target is refused with 400 whatever the service would
      have answered: no answer is consulted. */
  lemma UnsupportedTargetBeforeCall(apiKey: Option<string>, req: TranslationRequest, reply: Completion)
    requires !KeyMissing(apiKey) && req.targetLang !in LangNames
    ensures Translate(apiKey, req, reply) == Err(HttpError(BadRequest, "Unsupported target language"))
  {
  }

  /** `provider_response` never refuses a language: with a key configured
      its outcome depends only on the service's answer. */
  lemma ProviderAcceptsAnyLanguage(apiKey: Option<string>, req: ProviderRequest, other: string, reply: Completion)
    requires !KeyMissing(apiKey)
    ensures ProviderResponse(apiKey, req, reply) == ProviderResponse(apiKey, ProviderRequest(req.text, other), reply)
  {
  }

  /** An unknown source language is read as English. */
  lemma UnknownSourceIsEnglish(apiKey: Option<string>, req: TranslationRequest)
    requires !KeyMissing(apiKey) && req.targetLang in LangNames && req.sourceLang !in LangNames
    ensures TranslatePlan(apiKey, req) == TranslatePlan(apiKey, TranslationRequest(req.text, "en", req.targetLang))
  {
  }
}
