/** The server's `/api/chat` route (backend/server.js): validate the body,
    classify the question's intent with one model call, build the advisory
    prompt for that intent, generate the answer with a second model call and
    relay its text. The two model calls are not made here: their outcomes are
    parameters, and the route records which calls it would make and with
    what. */
module Relay {
  import opened Text

  // ---------------------------------------------------------------------
  // Prompt assembly (`buildPrompt`)
  // ---------------------------------------------------------------------

  /** The persona rules that open every prompt. */
  const BaseRules: string :=
    "\nYou are Kisan Mitra, an expert Indian agriculture assistant.\nYou think in Hindi first.\n"
    + "You give practical, field-tested advice.\nAvoid generic AI answers.\nUse simple farmer-friendly language.\n"

  /** The closed table of per-intent instruction blocks. */
  const IntentPrompts: map<string, string> := map[
    "pest" :=
      "\nYou are a crop protection expert.\nAsk crop name and symptoms if missing.\nSuggest immediate treatment and prevention.\n",
    "fertilizer" :=
      "\nYou are a soil and fertilizer expert.\nGive dosage, timing, and method.\nAvoid chemical overuse.\n",
    "irrigation" :=
      "\nYou are an irrigation advisor.\nSuggest water quantity and schedule.\nConsider season and crop stage.\n",
    "weather" :=
      "\nYou are a weather-based farming advisor.\nExplain impact on crops.\nGive precautions.\n",
    "government_scheme" :=
      "\nYou are an Indian agriculture scheme expert.\nExplain eligibility and benefits clearly.\n",
    "general" :=
      "\nYou are a helpful farming assistant.\n"]

  /** What a template string renders for a key the table does not have: the
      lookup yields `undefined`, and there is no fallback block. */
  const Undefined: string := "undefined"

  /** The block spliced into the prompt for `intent`. */
  function BlockText(intent: string): string
  {
    if intent in IntentPrompts then IntentPrompts[intent] else Undefined
  }

  /** The system heading and the persona rules that open every prompt. */
  const Opening: string := "\nSYSTEM:\n" + BaseRules + "\n"

  const RulesHeading: string := "\n\nRULES:\n"

  /** The rule forcing the reply language. */
  function LanguageRule(language: string): string
  {
    "- Respond ONLY in " + language + "\n"
  }

  const StyleRules: string :=
    "- Keep response practical (3\U{2013}5 sentences)\n- Ask ONE follow-up question if needed\n\n"

  /** The heading after which the farmer's question appears verbatim. */
  const QuestionHeading: string := "FARMER QUESTION:\n"

  /** The closing section: the heading, the message and a newline. */
  function Question(message: string): string
  {
    QuestionHeading + message + "\n"
  }

  /** Six pieces joined in order. */
  function Join6(a: string, b: string, c: string, d: string, e: string, f: string): string
  {
    a + b + c + d + e + f
  }

  /** `buildPrompt(intent, message, language)`: the source's template string,
      cut at its substitutions. */
  function BuildPrompt(intent: string, message: string, language: string): string
  {
    Join6(Opening, BlockText(intent), RulesHeading, LanguageRule(language), StyleRules, Question(message))
  }

  /** Where the RULES heading starts in the prompt for `intent`: right after
      the opening and the intent's block. */
  function RulesAt(intent: string): nat
  {
    |Opening| + |BlockText(intent)|
  }

  /** `part` occurs in `whole` starting at position `at`. */
  predicate OccursAt(part: string, whole: string, at: nat)
  {
    at + |part| <= |whole| && whole[at..at + |part|] == part
  }

  /** Each piece of a six-piece concatenation is found where it was put. */
  lemma SixPieces(a: string, b: string, c: string, d: string, e: string, f: string)
    ensures var p := Join6(a, b, c, d, e, f);
      && StartsWith(p, a)
      && OccursAt(b, p, |a|)
      && OccursAt(c, p, |a| + |b|)
      && OccursAt(d, p, |a| + |b| + |c|)
      && |f| <= |p| && p[|p| - |f|..] == f
  {
  }

  /** Two joins that agree on every piece but the second agree on the second
      exactly when they are equal. */
  lemma SecondPieceDetermined(a: string, b1: string, b2: string, c: string, d: string, e: string, f: string)
    ensures Join6(a, b1, c, d, e, f) == Join6(a, b2, c, d, e, f) <==> b1 == b2
  {
    var tail := c + d + e + f;
    assert Join6(a, b1, c, d, e, f) == a + b1 + tail;
    assert Join6(a, b2, c, d, e, f) == a + b2 + tail;
    if Join6(a, b1, c, d, e, f) == Join6(a, b2, c, d, e, f) {
      var p := a + b1 + tail;
      assert |b1| == |b2|;
      assert b1 == p[|a|..|a| + |b1|];
      assert b2 == (a + b2 + tail)[|a|..|a| + |b2|];
    }
  }

  /** The sections every prompt holds, each where the template puts it: it
      opens with the system heading and the persona rules, followed directly
      by the intent's block (the literal text `undefined` for a key outside
      the table), and ends with the question heading followed by the
      message, verbatim, and a newline. */
  lemma PromptSections(intent: string, message: string, language: string)
    ensures var p := BuildPrompt(intent, message, language);
      && StartsWith(p, Opening)
      && (intent in IntentPrompts ==> OccursAt(IntentPrompts[intent], p, |Opening|))
      && (intent !in IntentPrompts ==> OccursAt(Undefined, p, |Opening|))
      && |Question(message)| <= |p| && p[|p| - |Question(message)|..] == Question(message)
  {
    SixPieces(Opening, BlockText(intent), RulesHeading, LanguageRule(language), StyleRules, Question(message));
  }

  /** The RULES heading follows the intent's block, and the first rule after
      it orders the reply in the caller's language. */
  lemma PromptLanguageRule(intent: string, message: string, language: string)
    ensures var p := BuildPrompt(intent, message, language);
      && OccursAt(RulesHeading, p, RulesAt(intent))
      && OccursAt(LanguageRule(language), p, RulesAt(intent) + |RulesHeading|)
  {
    SixPieces(Opening, BlockText(intent), RulesHeading, LanguageRule(language), StyleRules, Question(message));
  }

  /** Two prompts for the same message and language are equal exactly when
      their intents select the same block: the block is all that the intent
      contributes. */
  lemma PromptDeterminesBlock(i1: string, i2: string, message: string, language: string)
    ensures BuildPrompt(i1, message, language) == BuildPrompt(i2, message, language)
        <==> BlockText(i1) == BlockText(i2)
  {
    SecondPieceDetermined(Opening, BlockText(i1), BlockText(i2), RulesHeading, LanguageRule(language),
                          StyleRules, Question(message));
  }

  /** The six blocks are pairwise different, and none is `undefined`. */
  lemma BlocksDistinct()
    ensures forall k1, k2 :: k1 in IntentPrompts && k2 in IntentPrompts && k1 != k2 ==>
                               IntentPrompts[k1] != IntentPrompts[k2]
    ensures forall k :: k in IntentPrompts ==> IntentPrompts[k] != Undefined
  {
    assert |IntentPrompts["pest"]| == 118;
    assert |IntentPrompts["fertilizer"]| == 96;
    assert |IntentPrompts["irrigation"]| == 101;
    assert |IntentPrompts["weather"]| == 85;
    assert |IntentPrompts["government_scheme"]| == 88;
    assert |IntentPrompts["general"]| == 38;
  }

  /** No fallback for labels outside the table: every such label yields one
      and the same prompt, and it is not the prompt of any listed intent,
      `general` included. */
  lemma UnknownIntentHasNoFallback(intent: string, other: string, message: string, language: string)
    requires intent !in IntentPrompts
    ensures other !in IntentPrompts ==> BuildPrompt(intent, message, language) == BuildPrompt(other, message, language)
    ensures other in IntentPrompts ==> BuildPrompt(intent, message, language) != BuildPrompt(other, message, language)
  {
    BlocksDistinct();
    PromptDeterminesBlock(intent, other, message, language);
  }

  /** Each listed intent selects its own prompt. */
  lemma KnownIntentsDistinguished(i1: string, i2: string, message: string, language: string)
    requires i1 in IntentPrompts && i2 in IntentPrompts && i1 != i2
    ensures BuildPrompt(i1, message, language) != BuildPrompt(i2, message, language)
  {
    BlocksDistinct();
    PromptDeterminesBlock(i1, i2, message, language);
  }

  // ---------------------------------------------------------------------
  // Model replies, intent normalisation and the reply text
  // ---------------------------------------------------------------------

  /** The parsed body of a model reply, as far as the route reads it
      (`candidates[0].content.parts[0].text`): a missing array reads as
      empty and a missing member as `None`. An error envelope has no
      candidates. */
  datatype Part = Part(text: Option<string>)
  datatype Content = Content(parts: seq<Part>)
  datatype Candidate = Candidate(content: Option<Content>)
  datatype ModelReply = ModelReply(candidates: seq<Candidate>)

  /** What awaiting a model call gives the route: the parsed body, whatever
      the HTTP status was, or an exception (a network failure, a body that
      is not JSON) with its message. */
  datatype CallOutcome = Threw(message: string) | Returned(reply: ModelReply)

  /** `data?.candidates?.[0]?.content?.parts?.[0]?.text` */
  function FirstText(d: ModelReply): Option<string>
  {
    if |d.candidates| == 0 then None
    else match d.candidates[0].content
      case None => None
      case Some(c) => if |c.parts| == 0 then None else c.parts[0].text
  }

  const GeneralIntent: string := "general"

  /** `detectIntent`'s result: the first candidate's text, trimmed, or
      `general` when that text is missing or trims to nothing. A label
      outside the table is passed through, so a label outside the table
      can only come from the classifier itself. */
  function NormalizeIntent(text: Option<string>): (r: string)
    ensures r != [] && IsTrimmed(r)
    ensures text.Some? && !AllWhitespace(text.value) ==> r == Trim(text.value)
    ensures text.None? || AllWhitespace(text.value) ==> r == GeneralIntent
    ensures r !in IntentPrompts ==> text.Some? && r == Trim(text.value)
  {
    if text.Some? && Trim(text.value) != "" then Trim(text.value) else GeneralIntent
  }

  /** The fixed Hindi apology sent when the model's reply has no text. */
  const FallbackReply: string := "माफ़ कीजिए, मैं अभी जवाब नहीं दे पा रहा हूँ।"

  /** The reply text: the first candidate's text when it is non-empty, the
      fallback otherwise; never empty. */
  function ReplyText(text: Option<string>): (r: string)
    ensures r != []
    ensures text.Some? && text.value != "" ==> r == text.value
    ensures text.None? || text.value == "" ==> r == FallbackReply
  {
    if text.Some? && text.value != "" then text.value else FallbackReply
  }

  // ---------------------------------------------------------------------
  // The `/api/chat` route
  // ---------------------------------------------------------------------

  /** A member of the JSON request body: absent, `null`, or a string. */
  datatype Field = Missing | Null | Str(s: string)

  datatype ChatRequest = ChatRequest(message: Field, language: Field)

  /** `!message`: absent, `null` and the empty string are falsy. */
  predicate Falsy(f: Field)
  {
    !f.Str? || f.s == ""
  }

  const DefaultLanguage: string := "Hindi"

  /** `const { language = "Hindi" } = req.body` as the template renders it:
      the default applies only to an absent member; `null` renders as
      `null`; a string is used unchanged. */
  function RequestLanguage(f: Field): (r: string)
    ensures f.Missing? ==> r == DefaultLanguage
    ensures f.Str? ==> r == f.s
  {
    match f
    case Missing => DefaultLanguage
    case Null => "null"
    case Str(s) => s
  }

  datatype Body = ErrorBody(error: string) | AnswerBody(intent: string, response: string)

  datatype Response = Response(status: nat, body: Body)

  /** An outbound model call the route makes: classification of the message,
      or generation from the assembled prompt. */
  datatype Call = Classify(query: string) | Generate(prompt: string)

  /** The calls the route made, in order, and what it answered. */
  datatype Exchange = Exchange(calls: seq<Call>, response: Response)

  const MessageRequired: string := "Message is required"

  /** The `/api/chat` handler. `classified` and `generated` are what the two
      model calls would give; a call the route does not make is not listed
      in the exchange and its outcome is ignored. Status 400 exactly for a
      falsy message, 500 exactly when a call it made threw, 200 otherwise.
      A 200 answer reports the normalised classifier label as the intent and
      the generator's first candidate text (or the fallback) as the reply,
      both non-empty. */
  function Chat(req: ChatRequest, classified: CallOutcome, generated: CallOutcome): (x: Exchange)
    ensures x.response.status == 400 <==> Falsy(req.message)
    ensures x.response.status == 500 <==> !Falsy(req.message) && (classified.Threw? || generated.Threw?)
    ensures x.response.status == 200 <==> !Falsy(req.message) && classified.Returned? && generated.Returned?
    ensures x.response.status == 200 ==>
              x.response.body == AnswerBody(NormalizeIntent(FirstText(classified.reply)), ReplyText(FirstText(generated.reply)))
    ensures x.response.status == 200 ==>
              x.response.body.AnswerBody? && x.response.body.intent != [] && x.response.body.response != []
    ensures x.response.status != 200 ==> x.response.body.ErrorBody?
  {
    if Falsy(req.message) then Exchange([], Response(400, ErrorBody(MessageRequired)))
    else
      var message := req.message.s;
      match classified
      case Threw(e) => Exchange([Classify(message)], Response(500, ErrorBody(e)))
      case Returned(c) =>
        var intent := NormalizeIntent(FirstText(c));
        var calls := [Classify(message), Generate(BuildPrompt(intent, message, RequestLanguage(req.language)))];
        match generated
        case Threw(e) => Exchange(calls, Response(500, ErrorBody(e)))
        case Returned(g) => Exchange(calls, Response(200, AnswerBody(intent, ReplyText(FirstText(g)))))
  }

  /** A missing or falsy message is answered with 400 and `Message is
      required`, and no model call is made, whatever the calls would have
      returned. */
  lemma RejectsFalsyMessage(req: ChatRequest, classified: CallOutcome, generated: CallOutcome)
    requires Falsy(req.message)
    ensures Chat(req, classified, generated) == Exchange([], Response(400, ErrorBody(MessageRequired)))
  {
  }

  /** For a message that is present, the route first classifies the message
      itself; if that call returns, it generates from a prompt that holds
      the block of the intent it reports, the request's language in the
      reply-language rule (`Hindi` when absent), and the message verbatim
      at the end. */
  lemma ChatPromptCarriesRequest(req: ChatRequest, classified: CallOutcome, generated: CallOutcome)
    requires !Falsy(req.message)
    ensures var x := Chat(req, classified, generated);
      && 1 <= |x.calls| <= 2
      && x.calls[0] == Classify(req.message.s)
      && (|x.calls| == 2 <==> classified.Returned?)
      && (classified.Returned? ==>
            var intent := NormalizeIntent(FirstText(classified.reply));
            var p := BuildPrompt(intent, req.message.s, RequestLanguage(req.language));
            && x.calls[1] == Generate(p)
            && (x.response.status == 200 ==> x.response.body.intent == intent)
            && p[|p| - |Question(req.message.s)|..] == Question(req.message.s))
  {
    if classified.Returned? {
      var intent := NormalizeIntent(FirstText(classified.reply));
      PromptSections(intent, req.message.s, RequestLanguage(req.language));
    }
  }

  /** The generation prompt's first rule orders the reply in the request's
      language, and in `Hindi` when the request names none. */
  lemma ChatOrdersReplyLanguage(req: ChatRequest, classified: CallOutcome, generated: CallOutcome)
    requires !Falsy(req.message) && classified.Returned?
    ensures var x := Chat(req, classified, generated);
      var intent := NormalizeIntent(FirstText(classified.reply));
      && |x.calls| == 2 && x.calls[1].Generate?
      && OccursAt(RulesHeading, x.calls[1].prompt, RulesAt(intent))
      && OccursAt(LanguageRule(RequestLanguage(req.language)), x.calls[1].prompt, RulesAt(intent) + |RulesHeading|)
      && (req.language.Missing? ==>
            OccursAt(LanguageRule(DefaultLanguage), x.calls[1].prompt, RulesAt(intent) + |RulesHeading|))
  {
    var intent := NormalizeIntent(FirstText(classified.reply));
    PromptLanguageRule(intent, req.message.s, RequestLanguage(req.language));
  }

  /** The generator's HTTP status is never looked at: an error envelope
      without candidates is answered with 200 and the fallback text, not
      with an error. */
  lemma ErrorEnvelopeGetsFallback(req: ChatRequest, classified: CallOutcome)
    requires !Falsy(req.message) && classified.Returned?
    ensures Chat(req, classified, Returned(ModelReply([]))).response.status == 200
    ensures Chat(req, classified, Returned(ModelReply([]))).response.body.response == FallbackReply
  {
  }

  /** A classification call that returns an error envelope (no candidates,
      as the model API reports a bad key or an exhausted quota) is not an
      exception: the intent falls back to `general` and the route answers
      200. */
  lemma ClassifierEnvelopeGivesGeneral(req: ChatRequest, g: ModelReply)
    requires !Falsy(req.message)
    ensures Chat(req, Returned(ModelReply([])), Returned(g)).response.status == 200
    ensures Chat(req, Returned(ModelReply([])), Returned(g)).response.body.intent == GeneralIntent
  {
  }

  /** An exception in either call becomes 500 with the exception's message;
      when classification throws, generation is not attempted. */
  lemma ExceptionsBecomeServerErrors(req: ChatRequest, classified: CallOutcome, generated: CallOutcome)
    requires !Falsy(req.message)
    ensures classified.Threw? ==>
      Chat(req, classified, generated) == Exchange([Classify(req.message.s)], Response(500, ErrorBody(classified.message)))
    ensures classified.Returned? && generated.Threw? ==>
      Chat(req, classified, generated).response == Response(500, ErrorBody(generated.message))
  {
  }
}
