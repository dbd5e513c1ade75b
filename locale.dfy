/** The client's pure language helpers: which locale a recognized utterance is
    tagged with, which locale the reply is spoken in, and which installed
    voice speaks it (frontend/src/App.js, the `onresult` callback and
    `speakText`). */
module Locale {
  import opened Text

  /** The language selector's sentinel for "let the recognizer decide". */
  const Auto: string := "auto"

  /** The locale used when nothing better is known. */
  const DefaultLocale: string := "en-US"

  /** The language of a recognized utterance: the selected language unless it
      is `auto`; otherwise the recognizer's hint, or the default locale when
      the hint is missing or empty (both are falsy to `||`). */
  function EffectiveLanguage(selected: string, hint: Option<string>): (r: string)
    ensures selected != Auto ==> r == selected
    ensures selected == Auto ==> r == (if hint.Some? && hint.value != "" then hint.value else DefaultLocale)
    ensures selected != "" ==> r != ""
  {
    if selected == Auto then
      if hint.Some? && hint.value != "" then hint.value else DefaultLocale
    else selected
  }

  /** The locales `speakText` has a table entry for. */
  const PlaybackLocales: set<string> := {
    "en-US", "es-ES", "fr-FR", "de-DE", "it-IT", "pt-BR",
    "hi-IN", "zh-CN", "ja-JP", "ko-KR", "ar-SA", "ru-RU"}

  /** The table `speakText` looks the turn's language up in: each of its
      twelve entries maps a locale to that same locale. */
  const LangMap: map<string, string> := map k | k in PlaybackLocales :: k

  /** The locale an utterance is spoken in:
      `langMap[language] || language || 'en-US'`. Because the table is the
      identity, the result is the language itself, or the default locale
      when the language is empty. */
  function PlaybackLocale(language: string): (r: string)
    ensures r == (if language == "" then DefaultLocale else language)
  {
    if language in LangMap && LangMap[language] != "" then LangMap[language]
    else if language != "" then language
    else DefaultLocale
  }

  /** `tag.split('-')[0]`: the part of the tag before its first hyphen, or
      the whole tag when it has none. */
  function PrimarySubtag(tag: string): (r: string)
    ensures |r| <= |tag| && r == tag[..|r|]
    ensures '-' !in r
    ensures |r| < |tag| ==> tag[|r|] == '-'
  {
    if tag == [] || tag[0] == '-' then [] else [tag[0]] + PrimarySubtag(tag[1..])
  }

  /** An installed speech-synthesis voice. */
  datatype Voice = Voice(name: string, lang: string)

  predicate Speaks(v: Voice, prefix: string)
  {
    StartsWith(v.lang, prefix)
  }

  /** The position of the first voice whose language starts with `prefix`,
      or `|voices|` when there is none. */
  function FirstSpeaker(voices: seq<Voice>, prefix: string): (k: nat)
    ensures k <= |voices|
    ensures forall j :: 0 <= j < k ==> !Speaks(voices[j], prefix)
    ensures k < |voices| ==> Speaks(voices[k], prefix)
  {
    if voices == [] then 0
    else if Speaks(voices[0], prefix) then 0
    else 1 + FirstSpeaker(voices[1..], prefix)
  }

  /** `voices.find(v => v.lang.startsWith(locale.split('-')[0]))`: the first
      installed voice whose language shares the locale's primary subtag, and
      none exactly when no installed voice does. */
  function MatchingVoice(voices: seq<Voice>, locale: string): (r: Option<Voice>)
    ensures r.Some? ==> r.value in voices && Speaks(r.value, PrimarySubtag(locale))
    ensures r.None? <==> forall j :: 0 <= j < |voices| ==> !Speaks(voices[j], PrimarySubtag(locale))
    ensures r.Some? ==> exists k :: 0 <= k < |voices| && voices[k] == r.value &&
                          forall j :: 0 <= j < k ==> !Speaks(voices[j], PrimarySubtag(locale))
  {
    var k := FirstSpeaker(voices, PrimarySubtag(locale));
    if k < |voices| then Some(voices[k]) else None
  }
}
