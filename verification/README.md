# Healthcare translator backend — a Dafny model of its route logic

The backend is a thin HTTP gateway with four groups of routes:
authentication over one seeded account, encrypted per-user chat history,
text-to-speech request validation, and translation / "provider response"
requests forwarded to a completion service. This project models the
decision and transformation logic of those handlers as pure functions and
proves the properties the handlers promise.

Modules (one file each):

- `Http` (`http.dfy`): `Option`, the `HttpError` a handler raises, and `Result`, a response body or an error.
- `Text` (`text.dfy`): Python's `str.strip()` and `str.split('@')[0]`, each with an independent characterisation.
- `Auth` (`auth.dfy`): the seeded account, token claims with a 30-minute expiry, `/register`, `/login` and `/me`.
- `ChatHistory` (`chat_history.py` in the source; `chat_history.dfy`): a store from email to encrypted records, with save (upsert), load, and the two routes behind `/me`.
- `Tts` (`tts.dfy`): request validation, the code-to-regional-tag table, the POST, GET and test routes.
- `Translation` (`translation.dfy`): key check, language lookup, prompt building and wrapping, and answer extraction for `/translate` and `/provider-response`.
- `MessageCodec` (`message_codec.dfy`): chat messages as JSON values; Python's `str()` as the save route applies it; and a JSON-style text codec with a structural parser.

Library collaborators are values of function type. Each has a ghost predicate
stating the law the proofs assume of it. Those predicates appear only as
`requires` of lemmas, never on the operations themselves:

- `Auth.Hasher` (bcrypt via passlib) with `HasherSound`: the seeded password verifies against the seeded hash. `verify` answers None where the library raises, for example on a password containing NUL. `HasherBinding` says the seeded hash verifies no other password; only `LoginExactlySeeded` uses it. Both laws are about the seeded hash alone, because bcrypt compares only a password's first 72 bytes.
- `Auth.Jwt` (HS256 signing with the process secret) with `JwtSound`: a payload of the shape this service signs decodes to itself while `now <= exp`, and is refused after that. That shape is a string `sub`, an optional string `username`, an integer `exp` and nothing else. python-jose rejects a token once `exp < now`. It also rejects other payloads, for example one with a non-string `sub`, so the law is not stated for them.
- `ChatHistory.Cipher` (Fernet) with `CipherRoundTrips`: decrypt after encrypt is the identity.
- `ChatHistory.Codec` with `CodecRoundTrips`: parse after serialise is the identity. The route's own codec, `str()` then `eval`, does not satisfy this law (see Findings). `MessageCodec.JsonCodec` does.

Time is an integer count of seconds, passed in as `now`. The completion
service's reply is an input value of type `Translation.Completion`.

Consequences the proofs make explicit:

- `/register` refuses exactly the email that `/me` requires. So no token it issues is ever accepted (`Auth.RegisterTokenNeverAccepted`).
- As a result, the chat routes only ever read or write the seeded account's entry (`ChatHistory.OnlySeededEntries`).
- In the TTS handler, the "Unsupported language" branch cannot be reached after validation (`Tts.PatternCodesAreMapped`).
- The GET form of TTS builds its request inside the handler, so a bad `text` or `lang` there is an uncaught validation error (500). The POST form answers the same input with the framework's 422.

Further behaviour of the code that the model keeps:

- Decryption parses with `eval`. The chat store is proved for any codec that round-trips. The codec the route uses is modelled on its own, in `MessageCodec`.
- Registration derives the display name when the username is absent, and also when it is the empty string.
- `/me` does not need a `username` claim. When it is missing or falsy, `/me` falls back to the seeded username.
- Login with the seeded email and a password the hasher refuses is an uncaught error (500), not 401.

## Model

| member | source | states |
|---|---|---|
| Auth.AccessTokenClaims | routes/auth.py:41-45 | the signed payload is the caller's claims plus `exp` = now + 30 minutes, overriding any `exp` given; no other key is added or changed |
| Auth.DisplayName | routes/auth.py:57 | a non-empty supplied username is used as is; otherwise the name is the prefix of the email before its first `@` (all of it when there is none) |
| Text.BeforeFirst | routes/auth.py:57 | `split(c)[0]`: a prefix of the input free of `c`, ending at the first `c` or at the end |
| Auth.Register | routes/auth.py:47-65 | fails, with 400, exactly when the email is the seeded one; otherwise returns a bearer token |
| Auth.RegisterTokenClaims | routes/auth.py:60-65 | until expiry, a registration token decodes to exactly `sub` = submitted email, `username` = derived name, `exp` = issue time + 30 min |
| Auth.Login | routes/auth.py:67-82 | succeeds iff the username field is the seeded email and the password verifies against the seeded hash; then the token always carries the seeded identity. Another email, or a password that does not verify, is 401. For the seeded email, a password the hasher refuses is an uncaught 500 |
| Auth.LoginExactlySeeded | routes/auth.py:19-23 | when the seeded hash verifies only the seeded password, login accepts exactly the pair (test@example.com, testpass) |
| Auth.GetCurrentUser | routes/auth.py:86-107 | accepts iff the token decodes at `now` and its `sub` is the seeded email. The answer is that email with the `username` claim when it is truthy, and `testuser` when it is missing or falsy. Every rejection is 401 |
| Auth.LoginThenMe | routes/auth.py:76-102 | a login with the seeded credentials succeeds, and `/me` accepts its token throughout the next 30 minutes, returning (testuser, test@example.com) |
| Auth.LoginTokenExpires | routes/auth.py:41-45 | after 30 minutes `/me` refuses any login token |
| Auth.RegisterTokenNeverAccepted | routes/auth.py:50-93 | no token issued by `/register` is accepted by `/me` at any time |
| ChatHistory.DecryptEncrypt | routes/chat_history.py:24-31 | a record made by `encrypt_message` decrypts to the original message |
| ChatHistory.EncryptAll | routes/chat_history.py:35 | one record per message, same order, each encrypted independently |
| ChatHistory.DecryptAll | routes/chat_history.py:48 | succeeds iff every record decrypts, giving one message per record in order; any failing record fails the whole read with 500 and no partial list |
| ChatHistory.Save | routes/chat_history.py:35-40 | the user's entry becomes exactly the encrypted list (inserted if absent); every other entry is unchanged |
| ChatHistory.Load | routes/chat_history.py:45-48 | no entry reads as the empty list. Otherwise the read fails iff some record fails to decrypt; a success has the stored length, and its element i is the decryption of stored record i |
| ChatHistory.DecryptAllEncryptAll | routes/chat_history.py:24-31 | decrypting an encrypted list gives back the list |
| ChatHistory.LoadAfterSave | routes/chat_history.py:35-48 | load after save returns exactly the saved messages |
| ChatHistory.SaveTwice | routes/chat_history.py:36-40 | of two saves for the same user only the second is kept |
| ChatHistory.SaveIsolated | routes/chat_history.py:36-40 | a save for one user does not change what another user loads |
| ChatHistory.SaveChatHistory | routes/chat_history.py:33-41 | fails iff `/me` refuses the token (401); otherwise writes the seeded account's entry |
| ChatHistory.GetChatHistory | routes/chat_history.py:43-49 | 401 when `/me` refuses the token; otherwise the load of the seeded account's entry |
| ChatHistory.OnlySeededEntries | routes/chat_history.py:34-37 | a store holding at most the seeded email's entry still holds only that entry after a save through the route |
| ChatHistory.RoutesRoundTrip | routes/chat_history.py:34-48 | with a fresh login token, saving and then reading the chat returns the saved messages |
| MessageCodec.AsWrittenCollision | routes/chat_history.py:25 | `str()` stores the number 2 and the string "2" as the same text |
| MessageCodec.AsWrittenCodecFails | routes/chat_history.py:24-31 | whatever the parser does, the `str()` codec fails to round-trip some message |
| MessageCodec.AsWrittenSaveLosesMessage | routes/chat_history.py:35-48 | with a perfect cipher, some one-message chat saved by the route does not load back as saved |
| MessageCodec.ParseSerialise | routes/chat_history.py:31 | the structural parser reads the JSON-style text of any message back to that message, leaving any following text that does not start with a digit |
| MessageCodec.JsonCodecRoundTrips | routes/chat_history.py:24-31 | the JSON-style codec satisfies the round-trip law on every message |
| MessageCodec.SaveLoadMessages | routes/chat_history.py:35-48 | with the JSON-style codec, every chat loads back exactly as saved |
| Tts.Validate | routes/tts.py:15-17 | a request is admitted iff 1 <= length <= 5000 and `lang` is one of en, es, fr, ar, ur, zh; otherwise exactly the error response the calling route gives |
| Tts.TestConnection | routes/tts.py:23-32 | the test route answers "Test successful" with the English regional tag en-US |
| Tts.TextToSpeech | routes/tts.py:40-76 | succeeds iff the code is in the table, answering the text unchanged with the code's tag from the table; each tag is five characters, the code, a dash and a region; the handler's own 400 leaves as 500 |
| Tts.TextToSpeechPost | routes/tts.py:40-69 | succeeds iff the fields are admitted, with the text unchanged and the tag from the table; rejection is 422 |
| Tts.TextToSpeechGet | routes/tts.py:78-84 | with `lang` defaulting to "en", succeeds iff admitted; input that is not admitted is the uncaught 500 "Internal Server Error", and every failure is 500 |
| Tts.PatternCodesAreMapped | routes/tts.py:49-64 | every code the pattern admits has a table entry, so "Unsupported language" is unreachable |
| Tts.TagsNameTheirCode | routes/tts.py:49-56 | each regional tag begins with its code, so distinct codes get distinct tags |
| Tts.AdmittedRequestSucceeds | routes/tts.py:59-69 | an admitted request always yields its own text with the code's regional tag |
| Tts.GetDelegatesToPost | routes/tts.py:78-84 | on admitted input the GET form answers as the POST form; on other input GET gives 500 where POST gives 422 |
| Text.Strip | routes/translation.py:66 | the result is a slice of the input, with only whitespace cut from either side and no whitespace at its ends |
| Text.StripUnique | routes/translation.py:66 | any trimmed slice with only whitespace around it is the result of `strip`, so the characterisation is exact |
| Text.StripIdempotent | routes/translation.py:113 | stripping an answer a second time changes nothing |
| Translation.UnwrapWrap | routes/translation.py:56 | the instruction sent is recoverable from the `<s>[INST] ` … ` [/INST]` prompt |
| Translation.WrapUnwrap | routes/translation.py:103 | every string that unwraps is the wrapping of its instruction |
| Translation.TranslatePlan | routes/translation.py:22-59 | a missing or empty key is 500 "Together AI API key not configured" first; then 400 exactly for a target outside the eight codes. Otherwise the request carries `Bearer <key>`, the fixed model, 1500 tokens and temperature 0.7, and its wrapped prompt names the source language (English when unknown) and the target language |
| Translation.ProviderPlan | routes/translation.py:72-106 | fails iff the key is missing, with 500 "Together AI API key not configured". Otherwise the request carries `Bearer <key>`, the fixed model, 1500 tokens and temperature 0.7, and its wrapped prompt names the language, English when unknown |
| Translation.ExtractAnswer | routes/translation.py:61-70 | succeeds iff the reply has a non-empty `choices` whose first entry has `text`, giving that text stripped; a request failure, missing choices or missing text are all 500 |
| Translation.Translate | routes/translation.py:22-70 | no key is 500 "not configured" and an unsupported target is 400, whatever the reply. With both in order, it succeeds iff the reply has a non-empty `choices` whose first entry has `text`, and answers that text stripped. A transport failure is 500 "Translation failed: " plus its message. Every failure is 400 or 500 |
| Translation.ProviderResponse | routes/translation.py:72-118 | no key is 500 "not configured". Otherwise it succeeds iff the reply has a non-empty `choices` whose first entry has `text`, and answers that text stripped, whatever the language. A transport failure is 500 "AI response failed: " plus its message. Every failure is 500 |
| Translation.MissingKeyFirst | routes/translation.py:24-26 | with no key both handlers answer 500 "not configured", whatever the languages and the reply |
| Translation.UnsupportedTargetBeforeCall | routes/translation.py:38-41 | an unsupported target is 400 whatever the service would answer |
| Translation.ProviderAcceptsAnyLanguage | routes/translation.py:78-87 | with a key configured, the provider route's outcome does not depend on whether the language is known |
| Translation.UnknownSourceIsEnglish | routes/translation.py:44 | an unknown source code builds the same request as "en" |

## Findings

| source | as written | input that shows it | evidently intended | confidence | as-written member | corrected member |
|---|---|---|---|---|---|---|
| routes/chat_history.py:24-31 | a message is stored as `str(message)` and read back with `eval`; `str` of a string is its raw text, so the number 2 and the string "2" are stored as the same text `2` | the chats `[2]` and `["2"]`: at least one does not load back as saved | a serialisation that the parse inverts on every message the route accepts; the comment at line 31 says the parse recovers the message | not executed | MessageCodec.AsWrittenCodecFails | MessageCodec.JsonCodecRoundTrips |

## Left out

- Outbound HTTP calls to the completion service: only the reply is modelled, as an input value. `utils/tts_utils.py` and `utils/openai_utils.py` are not part of this model.
- MongoDB access: the collection is a map value. Concurrent saves racing on one document are not modelled.
- bcrypt, HS256 signing and Fernet internals are abstract functions with the laws stated above. Fernet's tamper detection is a property of the cipher and is not stated.
- Fernet's random IV and timestamp: `Cipher.encrypt` is a deterministic function. The round trip does not depend on them.
- `eval` is not modelled. `MessageCodec.AsWrittenCodec` takes the parser as a parameter, and the finding below holds for every parser. Whatever `eval` could execute is outside the model.
- MessageCodec.PyRepr: strings are shown in single quotes with no escapes; Python's choice of quote and its escaping are not modelled.
- MessageCodec.Value: floating-point numbers, NaN included, are not modelled.
- ChatHistory.LoadAfterSave: holds only for codecs that satisfy `CodecRoundTrips`. The route's `str()`/`eval` pair is not one of them. A string message such as `"hi"` is stored as `hi`, and `eval` then raises, so every later read for that user is 500. A message `"1+1"` reads back as `2`. So for the route as written, the lemma covers only messages that `str()` and `eval` happen to round-trip: dicts and lists of literals.
- The wall clock: `now` is a parameter, in whole seconds. The token library's conversion of `datetime` to a timestamp is not modelled.
- The JWT secret, its fallback value and the `ALGORITHM` constant live inside the abstract `Jwt`.
- Framework plumbing: `EmailStr` format checks and normalisation, bearer-header parsing, route registration order, CORS and app wiring in `main.py`, and the root route.
- Route order: `/text-to-speech/test` is declared before `/text-to-speech/{text}`, so a GET of the text "test" reaches the test route. This is a routing effect and is not modelled.
- Logging and `print` calls have no effect on results.
- Tts.Validate: on the POST route, the detail of the framework's 422 response is a placeholder, not pydantic's message. The GET route sends no validation response: its uncaught error is modelled as 500 "Internal Server Error".
- Translation.ExtractAnswer: only reply bodies that are JSON objects, with `choices` absent or a list of objects, are modelled, and `text` is absent or a string. Other shapes are not modelled. For example, `"choices": "x"` passes the check at translation.py:63 and then fails at :66 with a TypeError, which is 500 "Internal Server Error".
- Auth.Register: `UserCreate.email` is the address after `EmailStr` has normalised it, which lower-cases the domain. So the source refuses "test@EXAMPLE.com" as well. The normalisation itself is not modelled.
- Auth.GetCurrentUser: claim values are strings, integers or null; other JSON values in a payload are not modelled.
