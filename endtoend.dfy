/** The client and the server together: the body the client posts
    (frontend/src/App.js, `getAIResponse`) is the request the route
    handles (backend/server.js), and the route's answer is what the client
    turns into a reply or a failure. */
module EndToEnd {
  import opened Text
  import opened Locale
  import opened Relay
  import opened Dictation

  /** The JSON body `{ message, language }` the client posts: both members
      are always present strings. */
  function Wire(r: RelayRequest): ChatRequest
  {
    ChatRequest(Str(r.message), Str(r.language))
  }

  /** What the client makes of the route's answer: a non-2xx status is
      thrown as an HTTP error; otherwise the `response` member is the
      reply. */
  datatype RelayOutcome = Answered(reply: string) | Failed(failure: RelayFailure)

  function ClientView(r: Response): RelayOutcome
  {
    if 200 <= r.status < 300 && r.body.AnswerBody? then Answered(r.body.response)
    else Failed(HttpError(r.status))
  }

  /** A confirmed turn reaches the client as a non-empty reply exactly when
      both model calls returned; an empty confirmed transcript (which the
      client does not stop) comes back as HTTP 400 with no model call made,
      and an exception in either call as HTTP 500. */
  lemma TurnOutcome(r: RelayRequest, classified: CallOutcome, generated: CallOutcome)
    ensures var x := Chat(Wire(r), classified, generated);
      && (ClientView(x.response).Answered? <==> r.message != "" && classified.Returned? && generated.Returned?)
      && (ClientView(x.response).Answered? ==> ClientView(x.response).reply != "")
      && (r.message == "" ==> ClientView(x.response) == Failed(HttpError(400)) && x.calls == [])
      && (r.message != "" && (classified.Threw? || generated.Threw?) ==>
            ClientView(x.response) == Failed(HttpError(500)))
  {
  }

  /** The turn's language, as the client resolved it, is the language the
      server's prompt orders the reply in. */
  lemma TurnLanguageReachesPrompt(r: RelayRequest, classified: CallOutcome, generated: CallOutcome)
    requires r.message != "" && classified.Returned?
    ensures var x := Chat(Wire(r), classified, generated);
      var intent := NormalizeIntent(FirstText(classified.reply));
      && |x.calls| == 2 && x.calls[1].Generate?
      && OccursAt(LanguageRule(r.language), x.calls[1].prompt, RulesAt(intent) + |RulesHeading|)
  {
    ChatOrdersReplyLanguage(Wire(r), classified, generated);
  }

  /** A model reply whose first candidate carries `text`. */
  function ReplyWith(text: string): ModelReply
  {
    ModelReply([Candidate(Some(Content([Part(Some(text))])))])
  }

  const Question1: string := "my tomato plants have spots"
  const Advice: string := "Spray neem oil..."

  /** The route's answer to the answered turn below: 200 with intent `pest`
      and the generator's advice, which the client takes as the reply. */
  lemma PestTurnAnswer(language: string)
    ensures var x := Chat(Wire(RelayRequest(Question1, language)), Returned(ReplyWith("pest")), Returned(ReplyWith(Advice)));
      && x.response == Response(200, AnswerBody("pest", Advice))
      && ClientView(x.response) == Answered(Advice)
  {
    TrimmedIsFixed("pest");
  }

  /** The route as the client sees it when its classifier is stubbed to
      answer `pest` and its generator to answer the advice: every non-empty
      question is answered with the advice, an empty one is refused with
      400. */
  method AnsweringRoute(request: RelayRequest) returns (outcome: RelayOutcome)
    ensures outcome == (if request.message == "" then Failed(HttpError(400)) else Answered(Advice))
  {
    outcome := ClientView(Chat(Wire(request), Returned(ReplyWith("pest")), Returned(ReplyWith(Advice))).response);
  }

  /** The route as the client sees it when its classifier is stubbed to
      answer `pest` and its generator throws: every non-empty question ends
      in HTTP 500, an empty one in 400. */
  method FailingRoute(request: RelayRequest, reason: string) returns (outcome: RelayOutcome)
    ensures outcome == Failed(HttpError(if request.message == "" then 400 else 500))
  {
    outcome := ClientView(Chat(Wire(request), Returned(ReplyWith("pest")), Threw(reason)).response);
  }

  /** One full answered turn: with English selected the user says "my
      tomato plants have spots" and confirms; the stubbed route answers with
      the advice; the client appends it and plays it. The history then holds
      the user's message followed by the reply, both in `en-US`, and the
      component is idle again. */
  method SuccessfulTurn() returns (request: RelayRequest, history: seq<Message>, busy: bool)
    ensures request == RelayRequest(Question1, "en-US")
    ensures history == [Message(User, Question1, "en-US"), Message(Assistant, Advice, "en-US")]
    ensures !busy
  {
    var app := new App(true);
    app.SelectLanguage("en-US");
    app.StartListening(None);
    app.OnResult(Question1, None);
    app.OnEnd();
    request := app.HandleConfirm();
    var outcome := AnsweringRoute(request);
    app.RelaySucceeded(outcome.reply, [Voice("Samantha", "en-US")]);
    app.PlaybackStarted();
    app.PlaybackEnded();
    history := app.messages;
    busy := app.isProcessing || app.isSpeaking || app.isListening || app.showConfirmation;
  }

  /** One full failed turn: with `auto` selected the recognizer reports
      Hindi, so the turn is tagged `hi-IN`; the stubbed generator throws,
      the route answers 500, and the client reports the status, appends no
      reply and is idle again. */
  method FailedTurn() returns (history: seq<Message>, error: string, busy: bool)
    ensures history == [Message(User, Question1, "hi-IN")]
    ensures error == RelayErrorPrefix + HttpErrorPrefix + "500"
    ensures !busy
  {
    var app := new App(true);
    app.StartListening(None);
    app.OnResult(Question1, Some("hi-IN"));
    app.OnEnd();
    var request := app.HandleConfirm();
    var outcome := FailingRoute(request, "fetch failed");
    app.RelayFailed(outcome.failure);
    assert Decimal(500) == "500" by {
      assert Decimal(5) == "5";
      assert Decimal(50) == "50";
    }
    history := app.messages;
    error := app.error;
    busy := app.isProcessing || app.isSpeaking || app.isListening || app.showConfirmation;
  }
}
