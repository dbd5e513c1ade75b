# Multilingual voice chatbot — a Dafny model

A model of the two halves of a demo voice chatbot for farmers:

- the browser client's dictation component (`frontend/src/App.js`): the user
  speaks, the recognized text is shown for confirmation or editing, the
  confirmed text is posted to the backend, and the reply is appended to the
  history and spoken aloud;
- the backend's `/api/chat` route (`backend/server.js`): it validates the
  body, asks a language model to classify the message into an intent,
  assembles a domain prompt for that intent, asks the model for an answer
  and relays the first candidate's text.

Modules:

- `Text` (`text.dfy`): JavaScript's `String.prototype.trim` (over the
  ECMAScript whitespace and line-terminator characters), `startsWith`, the
  decimal rendering of a status code in a template string, and `Option`.
- `Locale` (`locale.dfy`): the utterance's language in `auto` mode, the
  playback locale table, and the choice of a synthesis voice by primary
  language subtag.
- `Relay` (`relay.dfy`): `buildPrompt`, `detectIntent`'s normalisation of
  the classifier's answer, and the `/api/chat` handler as a function from
  the request and the outcomes of the two model calls to the calls made and
  the response sent.
- `Dictation` (`dictation.dfy`): the component as a class whose fields are
  its state hooks (`isListening`, `isSpeaking`, `isProcessing`,
  `showConfirmation`, the transcripts, the languages, the history, the
  error), with one method per event handler and an invariant `Valid` that
  every handler keeps. Besides the hooks the class records what the handlers
  rely on from the browser: whether a recognizer exists, the recognizer's
  `lang` and lifecycle, and the suspended `getAIResponse` call (waiting for
  the relay, then waiting for playback to end).
- `EndToEnd` (`endtoend.dfy`): the body the client posts is the request the
  route handles, and the route's answer is what the client turns into a
  reply or a failure; two complete turns, one answered and one failed, in
  which the client's request is passed to the route with its model calls
  stubbed (`AnsweringRoute`, `FailingRoute`).

Behaviour of the code worth knowing, which a reader might expect to be
otherwise:

- An intent label outside the six known ones is not replaced by `general`:
  `detectIntent` passes any non-blank trimmed label through, and
  `intentPrompts[intent]` then yields `undefined`, which the template
  renders as the text `undefined` (`Relay.UnknownIntentHasNoFallback`).
- A classification call that throws is not defaulted to `general`: the
  route answers 500 with the exception's message
  (`Relay.ExceptionsBecomeServerErrors`). One that returns an error body
  without candidates is defaulted to `general`, and the route goes on to
  answer 200 (`Relay.ClassifierEnvelopeGivesGeneral`).
- The route never looks at the model's HTTP status: an error reply without
  candidates is answered with 200 and the Hindi fallback text
  (`Relay.ErrorEnvelopeGetsFallback`), not with an upstream error.
- The client's states are four independent flags, not one phase; the model
  keeps them as flags and states which combinations `Valid` rules out.

## Model

| member | source | states |
|---|---|---|
| Text.Trim | backend/server.js:162 | the result is the piece of the input between its leading and trailing whitespace, has no whitespace at either end, and is empty exactly when the input is all whitespace |
| Text.TrimIdempotent | backend/server.js:162 | trimming an already trimmed label changes nothing |
| Text.TrimmedIsFixed | backend/server.js:162 | a label with no surrounding whitespace is its own trim |
| Text.StartsWith | frontend/src/App.js:179 | `startsWith`: the string begins with the prefix |
| Text.Decimal | frontend/src/App.js:134 | a status code renders as a non-empty string of decimal digits without a leading zero |
| Text.DecimalRoundTrip | frontend/src/App.js:134 | the digits rendered for a status read back as that status |
| Locale.EffectiveLanguage | frontend/src/App.js:44 | the selected language unless it is `auto`; in `auto` mode the recognizer's hint, or `en-US` when the hint is missing or empty; never empty for a non-empty selection |
| Locale.PlaybackLocale | frontend/src/App.js:159-174 | the table maps each of its twelve locales to itself, so the utterance locale is the turn's language, or `en-US` for an empty language |
| Locale.PrimarySubtag | frontend/src/App.js:179 | the result is the prefix of the tag up to its first hyphen, holds no hyphen, and is the whole tag when it has none |
| Locale.FirstSpeaker | frontend/src/App.js:179 | the index of the first voice whose language starts with the prefix, or the number of voices when none does |
| Locale.MatchingVoice | frontend/src/App.js:178-182 | the first installed voice whose language starts with the locale's primary subtag; none exactly when no installed voice does |
| Relay.BuildPrompt | backend/server.js:67-124 | the template cut at its substitutions into six pieces in order; what it guarantees is stated by the lemmas below |
| Relay.PromptSections | backend/server.js:111-123 | the prompt opens with the system heading and persona rules, followed directly by the intent's block (the text `undefined` for an unknown intent), and ends with the question heading and the message verbatim |
| Relay.PromptLanguageRule | backend/server.js:115-117 | the RULES heading follows the intent's block, and the first rule after it orders the reply in the given language |
| Relay.PromptDeterminesBlock | backend/server.js:111-123 | two prompts for the same message and language are equal exactly when their intents select the same block |
| Relay.BlocksDistinct | backend/server.js:76-109 | the six intent blocks are pairwise different and none is the text `undefined` |
| Relay.UnknownIntentHasNoFallback | backend/server.js:114 | all unknown intents give one and the same prompt, which differs from the prompt of every known intent, `general` included |
| Relay.KnownIntentsDistinguished | backend/server.js:76-114 | different known intents give different prompts |
| Relay.FirstText | backend/server.js:51 | the optional chain `candidates[0].content.parts[0].text`: missing arrays, elements or members give nothing |
| Relay.NormalizeIntent | backend/server.js:162 | the reported intent is never empty and never padded; it is the trimmed classifier text when that is not blank, `general` when the text is missing or blank, and a label outside the table can only be the classifier's own trimmed text |
| Relay.ReplyText | backend/server.js:50-52 | the reply is the first candidate's text when non-empty, the fixed Hindi apology otherwise, and never empty |
| Relay.Falsy | backend/server.js:22 | `!message` for the values the model admits: absent, `null` or the empty string |
| Relay.RequestLanguage | backend/server.js:20 | an absent language defaults to `Hindi`; a string language is used unchanged |
| Relay.Chat | backend/server.js:18-63 | status 400 exactly for a falsy message, 500 exactly when a model call that was made threw, 200 exactly when both calls returned; a 200 answer carries the normalised classifier label as intent and the generator's first candidate text, or the Hindi fallback when that is missing or empty, as reply, both non-empty; any other status an error body |
| Relay.RejectsFalsyMessage | backend/server.js:20-24 | a missing or empty message is answered 400 with `Message is required` and no model call is made |
| Relay.ChatPromptCarriesRequest | backend/server.js:27-46 | the message itself is classified first; generation runs exactly when classification returned, from the prompt built for the reported intent, which ends with the message |
| Relay.ChatOrdersReplyLanguage | backend/server.js:20-31 | the generation prompt's first rule, right after the RULES heading, orders the reply in the request's language, and in `Hindi` when the request names none |
| Relay.ErrorEnvelopeGetsFallback | backend/server.js:48-57 | a model reply without candidates (such as an error envelope) is answered 200 with the fallback text |
| Relay.ClassifierEnvelopeGivesGeneral | backend/server.js:161-162 | a classification reply without candidates gives the intent `general`, and the route answers 200 |
| Relay.ExceptionsBecomeServerErrors | backend/server.js:59-62 | an exception in either call is answered 500 with its message; after a classification exception no generation call is made |
| Dictation.FailureText | frontend/src/App.js:133-147 | the message of the caught error: `HTTP error! status: ` and the status for a non-2xx answer, the rejection's own message otherwise; its property is stated by `HttpFailureNamesStatus` |
| Dictation.RepliesNeverOutnumberTurns | frontend/src/App.js:105-106 | in a history where every reply follows the user message it answers, replies never outnumber user messages, and are fewer when the last message is the user's |
| Dictation.HttpFailureNamesStatus | frontend/src/App.js:133-134 | the error text of a non-2xx relay answer is `HTTP error! status: ` followed by digits that read back as the status |
| Dictation.App.MicEnabled | frontend/src/App.js:246 | the microphone button is enabled unless a reply is being fetched or spoken or a transcript awaits confirmation |
| Dictation.App.constructor | frontend/src/App.js:5-63 | every flag off, empty transcripts and history, `auto` selected; the not-supported error when the browser has no recognizer |
| Dictation.App.StartListening | frontend/src/App.js:73-93 | clears the error, transcripts and confirmation; sets the recognizer language (empty for `auto`); listening starts only when `start()` succeeds, otherwise the start error is shown; without a recognizer nothing starts |
| Dictation.App.StopListening | frontend/src/App.js:95-100 | listening stops and nothing else changes |
| Dictation.App.OnResult | frontend/src/App.js:42-51 | both transcripts become the recognized text, the turn's language is resolved, listening stops and the confirmation is shown |
| Dictation.App.OnError | frontend/src/App.js:53-56 | the recognition error is reported and listening stops |
| Dictation.App.OnEnd | frontend/src/App.js:58-60 | listening stops and the recognizer is idle again |
| Dictation.App.SelectLanguage | frontend/src/App.js:216-218 | only the selected language changes |
| Dictation.App.EditTranscript | frontend/src/App.js:305 | only the edited transcript changes; the recognized transcript is kept |
| Dictation.App.HandleConfirm | frontend/src/App.js:102-109 | hides the confirmation, appends exactly one user message with the edited text in the turn's language, and relays that same text and language |
| Dictation.App.HandleCancel | frontend/src/App.js:111-116 | hides the confirmation, clears both transcripts, shows the cancellation notice; the history is untouched |
| Dictation.App.RelaySucceeded | frontend/src/App.js:137-143 | appends exactly one assistant message with the reply in the turn's language and queues an utterance in the playback locale with the matching voice |
| Dictation.App.RelayFailed | frontend/src/App.js:145-150 | reports `Failed to get AI response: ` and the failure's text, appends nothing, and ends processing |
| Dictation.App.PlaybackStarted | frontend/src/App.js:184 | speaking starts |
| Dictation.App.PlaybackEnded | frontend/src/App.js:185-192 | speaking and processing end together |
| Dictation.App.StopSpeaking | frontend/src/App.js:198-201 | speaking stops; the turn stays in progress until the cancelled utterance reports its end |
| Dictation.FlagsConsistent | frontend/src/App.js:245-246 | a valid component never listens while the confirmation is shown, never speaks without processing, and while listening the microphone stays enabled so it can stop |
| EndToEnd.Wire | frontend/src/App.js:127-130 | the posted body always carries the message and the language as strings |
| EndToEnd.ClientView | frontend/src/App.js:133-138 | a 2xx answer gives its `response` member as the reply; any other status an HTTP failure with that status |
| EndToEnd.TurnOutcome | frontend/src/App.js:122-138 | a confirmed turn comes back as a non-empty reply exactly when the message is non-empty and both model calls returned; an empty message as HTTP 400 with no model call; an exception as HTTP 500 |
| EndToEnd.TurnLanguageReachesPrompt | backend/server.js:117 | the language the client resolved is the language the prompt's first rule orders the reply in |
| EndToEnd.PestTurnAnswer | backend/server.js:18-57 | the message `my tomato plants have spots`, classified `pest` and answered `Spray neem oil...`, gives 200 with intent `pest` and that reply, which the client takes as the answer |
| EndToEnd.AnsweringRoute | backend/server.js:18-57 | with the classifier answering `pest` and the generator the advice, the client receives the advice for every non-empty question and an HTTP 400 failure for an empty one |
| EndToEnd.FailingRoute | backend/server.js:18-62 | with the classifier answering `pest` and the generator throwing, the client receives an HTTP 500 failure for every non-empty question and 400 for an empty one |
| EndToEnd.SuccessfulTurn | frontend/src/App.js:73-195 | a spoken and confirmed turn, answered by `AnsweringRoute`, leaves one user message followed by one assistant message with the advice, both `en-US`, and the component idle |
| EndToEnd.FailedTurn | frontend/src/App.js:102-150 | a turn whose request `FailingRoute` answers with HTTP 500 leaves only the user message, the error `Failed to get AI response: HTTP error! status: 500`, and the component idle |

## Left out

- Express, CORS, `dotenv`, `listen`, the health route and all logging: plumbing with no decision in it.
- The two `fetch` calls to the model API (URL, API key, headers, request bodies, the classifier's instruction text and generation settings): the route's calls appear only as `Classify(message)` and `Generate(prompt)` and their outcomes are parameters.
- Floating-point settings (temperature, output-token limit, speech rate and pitch).
- Relay.Chat: request members that are JSON values other than strings, `null` or absent (numbers, booleans, objects) are not modelled; `null` as a language renders as `null`.
- Relay.BlockText: keys inherited from `Object.prototype` (such as `constructor`) would find a value in `intentPrompts`; the model treats every key outside the six as absent. The same holds for the playback locale table.
- Relay.FirstText: array elements that are not objects and `text` members that are not strings are not modelled.
- The client's `fetch` to the backend and `response.json()`: the relay's answer is a parameter (`RelaySucceeded` or `RelayFailed`); a 2xx answer without a `response` member (which would append an `undefined` reply) is not modelled.
- The speech recognizer and synthesizer objects: their events become method calls, and `getVoices()` a parameter; the recognizer's `continuous`/`interimResults` settings are reflected only in one final result per capture.
- Dictation.App.SelectLanguage: the effect that rebuilds the recognizer when the selected language changes, with its cleanup (`stop()` and `cancel()` of the old objects), is not modelled: the model keeps a single recognizer whose handlers read the current selection. In a browser without a recognizer that re-run also sets the not-supported error again, which the model's `SelectLanguage` does not do.
- Asynchronous interleaving: events arrive one at a time, and handlers the rendered UI cannot fire (confirm without the confirmation box, the microphone while disabled) are excluded by preconditions.
- The JSX layout, the language list shown in the selector and the styling.
- The second, generic backend variant is not part of this model.
