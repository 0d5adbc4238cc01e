/**
 * Speech playback: the locale an utterance is spoken in, the fixed rate,
 * and the two-tier choice of a voice from the platform's voice list.
 */
module Playback {
  import opened Wrappers
  import Capture

  /** `langMap` of the play handler: language code to BCP 47 locale tag. */
  const PlaybackTags: map<string, string> :=
    map["ms" := "ms-MY", "en" := "en-US", "zh" := "zh-CN", "ta" := "ta-MY"]

  /** The tag used when the target code is not a key of `PlaybackTags`. */
  const DefaultTag: string := "en-US"

  /** The speaking rate, slightly slower than the platform default of 1. */
  const PlaybackRate: real := 0.9

  /** A synthesis voice as enumerated by the platform. */
  datatype Voice = Voice(name: string, lang: string)

  /** A speech request; `voice == None` leaves the platform default voice in place. */
  datatype Utterance = Utterance(text: string, lang: string, rate: real, voice: Option<Voice>)

  /** `langMap[targetLang] || "en-US"`: every result is one of the map's tags. */
  function PlaybackLocale(targetLang: string): (tag: string)
    ensures tag in PlaybackTags.Values
    ensures targetLang in PlaybackTags ==> tag == PlaybackTags[targetLang]
    ensures targetLang !in PlaybackTags ==> tag == DefaultTag
  {
    assert PlaybackTags["en"] == DefaultTag;
    if targetLang in PlaybackTags then PlaybackTags[targetLang] else DefaultTag
  }

  /**
   * The playback locale and the recognition locale agree on every code:
   * the two maps differ only in how the fallback is reached ("auto" is
   * spelled out in one and falls to the default in the other).
   */
  lemma LocaleMapsAgree(code: string)
    ensures PlaybackLocale(code) == Capture.RecognitionLocale(code)
  {
  }

  /**
   * `tag.split("-")[0]`: the longest prefix of `tag` without a hyphen,
   * which is the whole tag when it has none.
   */
  function PrimarySubtag(tag: string): (p: string)
    ensures p <= tag
    ensures '-' !in p
    ensures |p| < |tag| ==> tag[|p|] == '-'
  {
    if tag == [] || tag[0] == '-' then [] else [tag[0]] + PrimarySubtag(tag[1..])
  }

  /** Tier 1 test: the voice's locale is exactly the target tag. */
  predicate ExactMatch(v: Voice, tag: string) {
    v.lang == tag
  }

  /**
   * Tier 2 test: `voice.lang.startsWith(primary)`. A plain string prefix,
   * not a subtag comparison, so "tay-X" passes for primary subtag "ta".
   */
  predicate PrefixMatch(v: Voice, tag: string) {
    PrimarySubtag(tag) <= v.lang
  }

  /** `Array.prototype.findIndex`: the first position whose voice satisfies `matches`. */
  function FindIndex(voices: seq<Voice>, matches: Voice -> bool): (r: Option<nat>)
    ensures r.Some? ==> r.value < |voices| && matches(voices[r.value])
    ensures r.Some? ==> forall j :: 0 <= j < r.value ==> !matches(voices[j])
    ensures r.None? <==> forall j :: 0 <= j < |voices| ==> !matches(voices[j])
  {
    if voices == [] then None
    else if matches(voices[0]) then Some(0)
    else match FindIndex(voices[1..], matches)
      case None => None
      case Some(k) => Some(k + 1)
  }

  /**
   * The position of the selected voice: the first exact match if there is
   * one, else the first prefix match, else none.
   */
  function SelectIndex(voices: seq<Voice>, tag: string): (r: Option<nat>)
    ensures r.Some? ==> r.value < |voices| && PrefixMatch(voices[r.value], tag)
    ensures (exists i :: 0 <= i < |voices| && ExactMatch(voices[i], tag)) ==>
      r.Some? && ExactMatch(voices[r.value], tag)
      && forall j :: 0 <= j < r.value ==> !ExactMatch(voices[j], tag)
    ensures (forall i :: 0 <= i < |voices| ==> !ExactMatch(voices[i], tag)) && r.Some? ==>
      forall j :: 0 <= j < r.value ==> !PrefixMatch(voices[j], tag)
    ensures r.None? <==> forall i :: 0 <= i < |voices| ==> !PrefixMatch(voices[i], tag)
  {
    match FindIndex(voices, v => ExactMatch(v, tag))
    case Some(k) => Some(k)
    case None => FindIndex(voices, v => PrefixMatch(v, tag))
  }

  /**
   * The voice given to the utterance: the voice at the position
   * `SelectIndex` picks (the first exact tag, else the first prefix match),
   * which starts with the tag's primary subtag; `None` (the platform
   * default) only when no voice passes the prefix test.
   */
  function SelectVoice(voices: seq<Voice>, tag: string): (r: Option<Voice>)
    ensures r.Some? ==> r.value in voices && PrefixMatch(r.value, tag)
    ensures (exists v :: v in voices && ExactMatch(v, tag)) ==> r.Some? && ExactMatch(r.value, tag)
    ensures r.None? <==> forall v :: v in voices ==> !PrefixMatch(v, tag)
    ensures r.Some? ==> exists k :: SelectIndex(voices, tag) == Some(k) && r.value == voices[k]
  {
    match SelectIndex(voices, tag)
    case None => None
    case Some(k) => Some(voices[k])
  }

  /** With only a zh-TW voice available, a zh-CN target falls back to it. */
  lemma RegionalFallback()
    ensures SelectVoice([Voice("Mei-Jia", "zh-TW")], PlaybackLocale("zh"))
         == Some(Voice("Mei-Jia", "zh-TW"))
  {
  }

  /** The prefix test accepts a voice of another language whose code starts with "ta". */
  lemma PrefixIsNotSubtagMatch()
    ensures SelectVoice([Voice("X", "tay-X")], PlaybackLocale("ta")) == Some(Voice("X", "tay-X"))
  {
  }
}
