/** The browser client's dictation state machine (frontend/src/App.js): the
    component's state fields and one method per event handler. Browser
    collaborators appear only as the state the handlers rely on (whether a
    recognizer exists, its language and its lifecycle, the suspended relay
    call and the queued utterance) and as method parameters (the recognized
    text and language hint, what `start()` threw, the relay's answer, the
    installed voices). Events arrive one at a time. */
module Dictation {
  import opened Text
  import opened Locale

  datatype Role = User | Assistant

  /** One entry of the visible conversation history. */
  datatype Message = Message(role: Role, content: string, language: string)

  /** Every assistant message directly follows the user message it answers,
      in the same language. */
  ghost predicate Conversation(ms: seq<Message>)
  {
    forall i :: 0 <= i < |ms| && ms[i].role == Assistant ==>
      0 < i && ms[i - 1].role == User && ms[i - 1].language == ms[i].language
  }

  /** How many messages of `ms` have role `role`. */
  function Count(ms: seq<Message>, role: Role): nat
  {
    if ms == [] then 0
    else Count(ms[..|ms| - 1], role) + (if ms[|ms| - 1].role == role then 1 else 0)
  }

  /** In a conversation there are never more replies than user turns, and
      there are strictly fewer when the last message is a user's. */
  lemma {:induction false} RepliesNeverOutnumberTurns(ms: seq<Message>)
    requires Conversation(ms)
    ensures Count(ms, Assistant) + (if ms != [] && ms[|ms| - 1].role == User then 1 else 0) <= Count(ms, User)
  {
    if ms != [] {
      var init := ms[..|ms| - 1];
      assert Conversation(init) by {
        forall i | 0 <= i < |init| && init[i].role == Assistant
          ensures 0 < i && init[i - 1].role == User && init[i - 1].language == init[i].language
        {
          assert init[i] == ms[i] && init[i - 1] == ms[i - 1];
        }
      }
      RepliesNeverOutnumberTurns(init);
      if ms[|ms| - 1].role == Assistant {
        assert init[|init| - 1] == ms[|ms| - 2];
      }
    }
  }

  /** The speech recognizer's lifecycle: `Capturing` from a successful
      `start()` until it delivers its one final result or reports an error
      (the recognizer is neither continuous nor interim), `Finishing` until
      its end event, then `Idle` again. */
  datatype Recognition = Idle | Capturing | Finishing

  /** An utterance handed to speech synthesis. */
  datatype Utterance = Utterance(text: string, lang: string, voice: Option<Voice>)

  /** Where the suspended `getAIResponse` call stands: not running, waiting
      for the relay's answer to `input`, or waiting for the reply's playback
      to finish. */
  datatype Pending = NoCall | AwaitingReply(input: string, language: string) | AwaitingPlayback(utterance: Utterance)

  /** The body `getAIResponse` posts to the server. */
  datatype RelayRequest = RelayRequest(message: string, language: string)

  /** Why a relay failed: a non-2xx status, or a rejected fetch or body parse
      with its message. */
  datatype RelayFailure = HttpError(status: nat) | Rejected(reason: string)

  const HttpErrorPrefix: string := "HTTP error! status: "

  /** The message of the error `getAIResponse` catches. */
  function FailureText(f: RelayFailure): string
  {
    match f
    case HttpError(status) => HttpErrorPrefix + Decimal(status)
    case Rejected(reason) => reason
  }

  /** The text of an HTTP failure names its status, which can be read back
      from the digits after the prefix. */
  lemma HttpFailureNamesStatus(status: nat)
    ensures var t := FailureText(HttpError(status));
      && |HttpErrorPrefix| < |t| && t[..|HttpErrorPrefix|] == HttpErrorPrefix
      && (forall i :: |HttpErrorPrefix| <= i < |t| ==> '0' <= t[i] <= '9')
      && DigitsValue(t[|HttpErrorPrefix|..]) == status
  {
    var t := FailureText(HttpError(status));
    assert t[|HttpErrorPrefix|..] == Decimal(status);
    DecimalRoundTrip(status);
  }

  const NotSupportedError: string := "\U{274C} Speech recognition not supported. Please use Google Chrome."
  const RecognitionErrorPrefix: string := "Speech recognition error: "
  const StartErrorPrefix: string := "Failed to start listening: "
  const CancelledNotice: string := "Message cancelled. Click microphone to try again."
  const RelayErrorPrefix: string := "Failed to get AI response: "

  class App {
    var isListening: bool
    var isSpeaking: bool
    var isProcessing: bool
    var transcript: string
    var editedTranscript: string
    var showConfirmation: bool
    var selectedLanguage: string
    var detectedLanguage: string
    var messages: seq<Message>
    var error: string

    /** Whether the browser offers speech recognition at all. */
    const recognizerAvailable: bool
    /** The recognizer's `lang` property. */
    var recognizerLang: string
    var recognition: Recognition
    var pending: Pending

    /** The invariant every handler keeps. */
    ghost predicate Valid()
      reads this
    {
      && !(isListening && showConfirmation)
      && (isListening ==> recognition == Capturing)
      && (recognition == Capturing ==> !showConfirmation && !isProcessing)
      && (showConfirmation ==> !isProcessing)
      && (!recognizerAvailable ==> recognition == Idle)
      && (isProcessing <==> !pending.NoCall?)
      && (isSpeaking ==> pending.AwaitingPlayback?)
      && (pending.AwaitingReply? ==>
            messages != [] && messages[|messages| - 1] == Message(User, pending.input, pending.language))
      && Conversation(messages)
    }

    /** The microphone button is enabled unless a reply is being fetched or
        spoken or a transcript awaits confirmation. */
    predicate MicEnabled()
      reads this
    {
      !(isProcessing || isSpeaking || showConfirmation)
    }

    /** The component as first rendered, after its mount effect has looked
        for a recognizer. */
    constructor (recognizerAvailable: bool)
      ensures Valid()
      ensures this.recognizerAvailable == recognizerAvailable
      ensures !isListening && !isSpeaking && !isProcessing && !showConfirmation
      ensures transcript == "" && editedTranscript == "" && detectedLanguage == ""
      ensures selectedLanguage == Auto && messages == []
      ensures error == (if recognizerAvailable then "" else NotSupportedError)
      ensures recognizerLang == "" && recognition == Idle && pending == NoCall
    {
      isListening, isSpeaking, isProcessing, showConfirmation := false, false, false, false;
      transcript, editedTranscript := "", "";
      selectedLanguage, detectedLanguage := Auto, "";
      messages := [];
      error := if recognizerAvailable then "" else NotSupportedError;
      this.recognizerAvailable := recognizerAvailable;
      recognizerLang := "";
      recognition := Idle;
      pending := NoCall;
    }

    /** `startListening`, run by the enabled microphone button when not
        listening. It clears the error and both transcripts and hides the
        confirmation; with a recognizer it sets the recognizer's language
        (empty for `auto`) and starts it. `startFailure` is the message of
        the exception `start()` throws, if it throws; it always throws when
        the recognizer has not returned to idle. Listening begins only when
        `start()` succeeds; otherwise the error is reported and
        `isListening` is left as it was. */
    method StartListening(startFailure: Option<string>)
      requires Valid() && MicEnabled() && !isListening
      requires recognizerAvailable && recognition != Idle ==> startFailure.Some?
      modifies this
      ensures Valid()
      ensures transcript == "" && editedTranscript == "" && !showConfirmation
      ensures recognizerAvailable ==>
                recognizerLang == (if selectedLanguage == Auto then "" else selectedLanguage)
      ensures !recognizerAvailable ==> recognizerLang == old(recognizerLang)
      ensures recognizerAvailable && startFailure.None? ==>
                isListening && recognition == Capturing && error == ""
      ensures recognizerAvailable && startFailure.Some? ==>
                !isListening && recognition == old(recognition) && error == StartErrorPrefix + startFailure.value
      ensures !recognizerAvailable ==> !isListening && recognition == old(recognition) && error == ""
      ensures isSpeaking == old(isSpeaking) && isProcessing == old(isProcessing)
      ensures selectedLanguage == old(selectedLanguage) && detectedLanguage == old(detectedLanguage)
      ensures messages == old(messages) && pending == old(pending)
    {
      error := "";
      transcript := "";
      editedTranscript := "";
      showConfirmation := false;
      if recognizerAvailable {
        if selectedLanguage == Auto {
          recognizerLang := "";
        } else {
          recognizerLang := selectedLanguage;
        }
        match startFailure
        case None =>
          recognition := Capturing;
          isListening := true;
        case Some(reason) =>
          error := StartErrorPrefix + reason;
      }
    }

    /** `stopListening`, run by the microphone button while listening: asks
        the recognizer to stop (it may still deliver a final result) and
        clears `isListening`. */
    method StopListening()
      requires Valid() && isListening
      modifies this
      ensures Valid()
      ensures !isListening
      ensures isSpeaking == old(isSpeaking) && isProcessing == old(isProcessing)
      ensures showConfirmation == old(showConfirmation)
      ensures transcript == old(transcript) && editedTranscript == old(editedTranscript)
      ensures selectedLanguage == old(selectedLanguage) && detectedLanguage == old(detectedLanguage)
      ensures messages == old(messages) && error == old(error)
      ensures recognizerLang == old(recognizerLang) && recognition == old(recognition) && pending == old(pending)
    {
      if recognizerAvailable {
        isListening := false;
      }
    }

    /** The recognizer's `onresult`: both transcripts become the recognized
        text, the turn's language is resolved, listening stops and the
        confirmation is shown. */
    method OnResult(text: string, hint: Option<string>)
      requires Valid() && recognition == Capturing
      modifies this
      ensures Valid()
      ensures transcript == text && editedTranscript == text
      ensures detectedLanguage == EffectiveLanguage(selectedLanguage, hint)
      ensures !isListening && showConfirmation && recognition == Finishing
      ensures isSpeaking == old(isSpeaking) && isProcessing == old(isProcessing)
      ensures selectedLanguage == old(selectedLanguage) && messages == old(messages) && error == old(error)
      ensures recognizerLang == old(recognizerLang) && pending == old(pending)
    {
      transcript := text;
      editedTranscript := text;
      detectedLanguage := EffectiveLanguage(selectedLanguage, hint);
      isListening := false;
      showConfirmation := true;
      recognition := Finishing;
    }

    /** The recognizer's `onerror`: reports the error and stops listening;
        no result follows. */
    method OnError(reason: string)
      requires Valid() && recognition != Idle
      modifies this
      ensures Valid()
      ensures error == RecognitionErrorPrefix + reason
      ensures !isListening && recognition == Finishing
      ensures isSpeaking == old(isSpeaking) && isProcessing == old(isProcessing)
      ensures showConfirmation == old(showConfirmation)
      ensures transcript == old(transcript) && editedTranscript == old(editedTranscript)
      ensures selectedLanguage == old(selectedLanguage) && detectedLanguage == old(detectedLanguage)
      ensures messages == old(messages) && recognizerLang == old(recognizerLang) && pending == old(pending)
    {
      error := RecognitionErrorPrefix + reason;
      isListening := false;
      recognition := Finishing;
    }

    /** The recognizer's `onend`: listening stops. */
    method OnEnd()
      requires Valid() && recognition != Idle
      modifies this
      ensures Valid()
      ensures !isListening && recognition == Idle
      ensures isSpeaking == old(isSpeaking) && isProcessing == old(isProcessing)
      ensures showConfirmation == old(showConfirmation)
      ensures transcript == old(transcript) && editedTranscript == old(editedTranscript)
      ensures selectedLanguage == old(selectedLanguage) && detectedLanguage == old(detectedLanguage)
      ensures messages == old(messages) && error == old(error)
      ensures recognizerLang == old(recognizerLang) && pending == old(pending)
    {
      isListening := false;
      recognition := Idle;
    }

    /** The language selector's `onChange`. */
    method SelectLanguage(code: string)
      requires Valid()
      modifies this
      ensures Valid()
      ensures selectedLanguage == code
      ensures isListening == old(isListening) && isSpeaking == old(isSpeaking)
      ensures isProcessing == old(isProcessing) && showConfirmation == old(showConfirmation)
      ensures transcript == old(transcript) && editedTranscript == old(editedTranscript)
      ensures detectedLanguage == old(detectedLanguage) && messages == old(messages) && error == old(error)
      ensures recognizerLang == old(recognizerLang) && recognition == old(recognition) && pending == old(pending)
    {
      selectedLanguage := code;
    }

    /** The confirmation box's text area: replaces the edited transcript and
        nothing else; the recognized transcript is kept. */
    method EditTranscript(text: string)
      requires Valid() && showConfirmation
      modifies this
      ensures Valid()
      ensures editedTranscript == text && transcript == old(transcript)
      ensures isListening == old(isListening) && isSpeaking == old(isSpeaking)
      ensures isProcessing == old(isProcessing) && showConfirmation == old(showConfirmation)
      ensures selectedLanguage == old(selectedLanguage) && detectedLanguage == old(detectedLanguage)
      ensures messages == old(messages) && error == old(error)
      ensures recognizerLang == old(recognizerLang) && recognition == old(recognition) && pending == old(pending)
    {
      editedTranscript := text;
    }

    /** `handleConfirm`: hides the confirmation, appends exactly one user
        message with the edited transcript in the turn's language, and
        starts the relay of that same edited text (never the raw
        transcript), which marks the component as processing. */
    method HandleConfirm() returns (request: RelayRequest)
      requires Valid() && showConfirmation
      modifies this
      ensures Valid()
      ensures request == RelayRequest(old(editedTranscript), old(detectedLanguage))
      ensures messages == old(messages) + [Message(User, old(editedTranscript), old(detectedLanguage))]
      ensures !showConfirmation && isProcessing
      ensures pending == AwaitingReply(request.message, request.language)
      ensures isListening == old(isListening) && isSpeaking == old(isSpeaking)
      ensures transcript == old(transcript) && editedTranscript == old(editedTranscript)
      ensures selectedLanguage == old(selectedLanguage) && detectedLanguage == old(detectedLanguage)
      ensures error == old(error) && recognizerLang == old(recognizerLang) && recognition == old(recognition)
    {
      showConfirmation := false;
      messages := messages + [Message(User, editedTranscript, detectedLanguage)];
      request := RelayRequest(editedTranscript, detectedLanguage);
      isProcessing := true;
      pending := AwaitingReply(editedTranscript, detectedLanguage);
    }

    /** `handleCancel`: hides the confirmation, discards both transcripts
        and invites the user to try again; the history is untouched. */
    method HandleCancel()
      requires Valid() && showConfirmation
      modifies this
      ensures Valid()
      ensures !showConfirmation && transcript == "" && editedTranscript == ""
      ensures error == CancelledNotice
      ensures messages == old(messages)
      ensures isListening == old(isListening) && isSpeaking == old(isSpeaking) && isProcessing == old(isProcessing)
      ensures selectedLanguage == old(selectedLanguage) && detectedLanguage == old(detectedLanguage)
      ensures recognizerLang == old(recognizerLang) && recognition == old(recognition) && pending == old(pending)
    {
      showConfirmation := false;
      transcript := "";
      editedTranscript := "";
      error := CancelledNotice;
    }

    /** The relay answered with `reply`: exactly one assistant message with
        the reply in the turn's language is appended, and `speakText` queues
        an utterance of it in the playback locale, with the first installed
        voice that shares the locale's primary subtag. The component stays
        processing until playback ends. */
    method RelaySucceeded(reply: string, voices: seq<Voice>)
      requires Valid() && pending.AwaitingReply?
      modifies this
      ensures Valid()
      ensures messages == old(messages) + [Message(Assistant, reply, old(pending).language)]
      ensures var lang := PlaybackLocale(old(pending).language);
                pending == AwaitingPlayback(Utterance(reply, lang, MatchingVoice(voices, lang)))
      ensures isProcessing
      ensures isListening == old(isListening) && isSpeaking == old(isSpeaking)
      ensures showConfirmation == old(showConfirmation)
      ensures transcript == old(transcript) && editedTranscript == old(editedTranscript)
      ensures selectedLanguage == old(selectedLanguage) && detectedLanguage == old(detectedLanguage)
      ensures error == old(error) && recognizerLang == old(recognizerLang) && recognition == old(recognition)
    {
      var language := pending.language;
      messages := messages + [Message(Assistant, reply, language)];
      var lang := PlaybackLocale(language);
      pending := AwaitingPlayback(Utterance(reply, lang, MatchingVoice(voices, lang)));
    }

    /** The relay failed: the error is reported, nothing is appended, and
        processing ends. */
    method RelayFailed(failure: RelayFailure)
      requires Valid() && pending.AwaitingReply?
      modifies this
      ensures Valid()
      ensures error == RelayErrorPrefix + FailureText(failure)
      ensures messages == old(messages)
      ensures !isProcessing && pending == NoCall
      ensures isListening == old(isListening) && isSpeaking == old(isSpeaking)
      ensures showConfirmation == old(showConfirmation)
      ensures transcript == old(transcript) && editedTranscript == old(editedTranscript)
      ensures selectedLanguage == old(selectedLanguage) && detectedLanguage == old(detectedLanguage)
      ensures recognizerLang == old(recognizerLang) && recognition == old(recognition)
    {
      error := RelayErrorPrefix + FailureText(failure);
      isProcessing := false;
      pending := NoCall;
    }

    /** The utterance's `onstart`. */
    method PlaybackStarted()
      requires Valid() && pending.AwaitingPlayback?
      modifies this
      ensures Valid()
      ensures isSpeaking && isProcessing
      ensures isListening == old(isListening) && showConfirmation == old(showConfirmation)
      ensures transcript == old(transcript) && editedTranscript == old(editedTranscript)
      ensures selectedLanguage == old(selectedLanguage) && detectedLanguage == old(detectedLanguage)
      ensures messages == old(messages) && error == old(error)
      ensures recognizerLang == old(recognizerLang) && recognition == old(recognition) && pending == old(pending)
    {
      isSpeaking := true;
    }

    /** The utterance's `onend` or `onerror` (also what a cancelled
        utterance reports): speaking stops, `speakText` resolves and
        `getAIResponse` finishes, so processing ends. */
    method PlaybackEnded()
      requires Valid() && pending.AwaitingPlayback?
      modifies this
      ensures Valid()
      ensures !isSpeaking && !isProcessing && pending == NoCall
      ensures isListening == old(isListening) && showConfirmation == old(showConfirmation)
      ensures transcript == old(transcript) && editedTranscript == old(editedTranscript)
      ensures selectedLanguage == old(selectedLanguage) && detectedLanguage == old(detectedLanguage)
      ensures messages == old(messages) && error == old(error)
      ensures recognizerLang == old(recognizerLang) && recognition == old(recognition)
    {
      isSpeaking := false;
      isProcessing := false;
      pending := NoCall;
    }

    /** `stopSpeaking`, run by the Stop button shown while speaking: cancels
        synthesis and clears `isSpeaking`. The cancelled utterance still
        reports its end, so the relay call stays pending until then. */
    method StopSpeaking()
      requires Valid() && isSpeaking
      modifies this
      ensures Valid()
      ensures !isSpeaking && isProcessing
      ensures isListening == old(isListening) && showConfirmation == old(showConfirmation)
      ensures transcript == old(transcript) && editedTranscript == old(editedTranscript)
      ensures selectedLanguage == old(selectedLanguage) && detectedLanguage == old(detectedLanguage)
      ensures messages == old(messages) && error == old(error)
      ensures recognizerLang == old(recognizerLang) && recognition == old(recognition) && pending == old(pending)
    {
      isSpeaking := false;
    }
  }

  /** What the flags of a valid component rule out: listening with the
      confirmation shown, speaking without processing, and a disabled
      microphone while listening (so the button can always stop it). */
  lemma FlagsConsistent(a: App)
    requires a.Valid()
    ensures !(a.isListening && a.showConfirmation)
    ensures a.isSpeaking ==> a.isProcessing
    ensures a.isListening ==> a.MicEnabled()
  {
  }
}
