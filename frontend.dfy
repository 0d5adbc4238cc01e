/**
 * The translator page: its state (`inputText`, `outputText`, `sourceLang`,
 * `targetLang`, `isRecording`, `isLoading` and the current recogniser), the
 * handlers that change it, and logs of what it asks of the outside world:
 * calls on the recogniser, speech-synthesis actions, toast notifications and
 * translation requests.
 */
module Frontend {
  import opened Wrappers
  import opened JsText
  import opened Api
  import opened Capture
  import opened Playback

  /** An entry of `LANGUAGES`, the options of both language selects. */
  datatype Language = Language(code: string, name: string)

  const Languages: seq<Language> :=
    [Language("ms", "Malay"), Language("en", "English"), Language("zh", "Mandarin"), Language("ta", "Tamil")]

  /** The codes of `Languages`: the values the target select can take. */
  const LanguageCodes: set<string> := set l | l in Languages :: l.code

  /** The source select also offers "auto" (detect language). */
  const SourceCodes: set<string> := LanguageCodes + {"auto"}

  /** The toast messages the page shows. */
  const VoiceInputUnsupported: string := "Voice input is not supported in this browser."
  const MicrophoneStartFailed: string := "Could not start microphone"
  const VoiceInputFailed: string := "Voice input failed. Please try again."
  const TranslationFailed: string := "Translation failed. Please try again."
  const SpeechUnsupported: string := "Text-to-speech is not supported in this browser."

  /** How an awaited translation request settled. */
  datatype Outcome = Success(translated_text: string) | Failure

  /** A call the page makes on a recogniser. */
  datatype MicCall = Start(recognizer: Recognizer) | Stop(recognizer: Recognizer)

  /** A call the page makes on `speechSynthesis`. */
  datatype SpeechAction = Cancel | Speak(utterance: Utterance)

  /** Every utterance is spoken right after a cancel, so none overlaps an earlier one. */
  predicate CancelPrecedesSpeak(log: seq<SpeechAction>) {
    forall i :: 0 <= i < |log| && log[i].Speak? ==> 0 < i && log[i - 1].Cancel?
  }

  /** Every utterance has text, a known locale tag and the fixed rate. */
  predicate WellFormedUtterances(log: seq<SpeechAction>) {
    forall i :: 0 <= i < |log| && log[i].Speak? ==>
      log[i].utterance.text != [] && log[i].utterance.lang in PlaybackTags.Values
      && log[i].utterance.rate == PlaybackRate
  }

  /** Every request carries non-blank text and codes offered by the selects. */
  predicate WellFormedRequests(requests: seq<TranslationRequest>) {
    forall i :: 0 <= i < |requests| ==>
      !IsBlank(requests[i].text) && requests[i].source_lang in SourceCodes
      && requests[i].target_lang in LanguageCodes
  }

  /**
   * The utterance built by the play handler: the given text in the target's
   * locale at the fixed rate, with a voice from the list whose locale starts
   * with the tag's primary subtag (an exact tag preferred), or the platform
   * default when no voice passes that test.
   */
  function UtteranceFor(text: string, targetLang: string, voices: seq<Voice>): (u: Utterance)
    ensures u.text == text && u.lang == PlaybackLocale(targetLang) && u.rate == PlaybackRate
    ensures u.voice.Some? ==> u.voice.value in voices && PrefixMatch(u.voice.value, u.lang)
    ensures (exists v :: v in voices && v.lang == u.lang) ==> u.voice.Some? && u.voice.value.lang == u.lang
    ensures u.voice.None? <==> forall v :: v in voices ==> !PrefixMatch(v, u.lang)
    ensures u.voice == SelectVoice(voices, u.lang)
  {
    var tag := PlaybackLocale(targetLang);
    Utterance(text, tag, PlaybackRate, SelectVoice(voices, tag))
  }

  /** Logging a cancel and then a speak keeps every speak preceded by a cancel. */
  lemma PlayKeepsCancelFirst(log: seq<SpeechAction>, u: Utterance)
    requires CancelPrecedesSpeak(log)
    ensures CancelPrecedesSpeak(log + [Cancel, Speak(u)])
  {
  }

  /** Logging a well-formed request keeps the request log well formed. */
  lemma RequestKeepsWellFormed(requests: seq<TranslationRequest>, r: TranslationRequest)
    requires WellFormedRequests(requests)
    requires !IsBlank(r.text) && r.source_lang in SourceCodes && r.target_lang in LanguageCodes
    ensures WellFormedRequests(requests + [r])
  {
  }

  /** A snapshot of the page's state and logs, for stating what a handler changes. */
  datatype PageState = PageState(
    inputText: string, outputText: string, sourceLang: string, targetLang: string,
    isRecording: bool, isLoading: bool, recognition: Recognizer?,
    micCalls: seq<MicCall>, speech: seq<SpeechAction>, notifications: seq<string>,
    requests: seq<TranslationRequest>, inFlight: nat)

  /**
   * The page component. Handlers run one at a time; a translation is split at
   * its `await` into `BeginTranslate` and `CompleteTranslate`, and any number
   * of other handlers may run in between.
   */
  class TranslationPage {
    /** Whether the browser offers (webkit)SpeechRecognition. */
    const recognitionSupported: bool
    /** Whether the browser offers speechSynthesis. */
    const synthesisSupported: bool

    var inputText: string
    var outputText: string
    var sourceLang: string
    var targetLang: string
    var isRecording: bool
    var isLoading: bool
    var recognition: Recognizer?

    var micCalls: seq<MicCall>
    var speech: seq<SpeechAction>
    var notifications: seq<string>
    var requests: seq<TranslationRequest>

    /** The number of requests whose response has not yet been handled. */
    ghost var inFlight: nat

    ghost function State(): PageState
      reads this
    {
      PageState(inputText, outputText, sourceLang, targetLang, isRecording, isLoading,
        recognition, micCalls, speech, notifications, requests, inFlight)
    }

    /** Everything `Valid` demands except that the recogniser matches `sourceLang`. */
    ghost predicate Consistent()
      reads this
    {
      && sourceLang in SourceCodes && targetLang in LanguageCodes
      && (!recognitionSupported ==> recognition == null && !isRecording)
      && (isLoading ==> inFlight > 0)
      && CancelPrecedesSpeak(speech) && WellFormedUtterances(speech)
      && WellFormedRequests(requests)
    }

    /**
     * The page invariant: besides `Consistent`, a supporting browser always
     * has a recogniser, bound to the locale of the current `sourceLang` and
     * set for one final result.
     */
    ghost predicate Valid()
      reads this
    {
      && Consistent()
      && (recognitionSupported <==> recognition != null)
      && (recognition != null ==>
            recognition.lang == RecognitionLocale(sourceLang)
            && !recognition.continuous && !recognition.interimResults)
    }

    /**
     * The Translate button's `disabled={!inputText.trim() || isLoading}`,
     * negated: enabled exactly when trimming leaves some text and no request
     * is loading.
     */
    predicate TranslateEnabled(): (enabled: bool)
      reads this
      ensures enabled <==> Trim(inputText) != [] && !isLoading
    {
      BlankIffTrimsToEmpty(inputText);
      !IsBlank(inputText) && !isLoading
    }

    /** Mounting the page: the initial state, then the recogniser effect. */
    constructor (recognitionSupported: bool, synthesisSupported: bool)
      ensures Valid()
      ensures this.recognitionSupported == recognitionSupported
      ensures this.synthesisSupported == synthesisSupported
      ensures inputText == [] && outputText == [] && sourceLang == "auto" && targetLang == "ms"
      ensures !isRecording && !isLoading && inFlight == 0
      ensures micCalls == [] && speech == [] && notifications == [] && requests == []
      ensures recognition != null ==> fresh(recognition)
    {
      this.recognitionSupported := recognitionSupported;
      this.synthesisSupported := synthesisSupported;
      inputText, outputText := "", "";
      sourceLang, targetLang := "auto", "ms";
      isRecording, isLoading := false, false;
      recognition := null;
      micCalls, speech, notifications, requests := [], [], [], [];
      inFlight := 0;
      new;
      Configure();
    }

    /**
     * The effect keyed on `sourceLang`: in a supporting browser a new
     * recogniser replaces the current one, with the locale of `sourceLang`;
     * nothing else changes, not even `isRecording`.
     */
    method Configure()
      requires Consistent()
      modifies this
      ensures Valid()
      ensures recognitionSupported ==>
        recognition != null && fresh(recognition)
        && State() == old(State()).(recognition := recognition)
      ensures !recognitionSupported ==> State() == old(State())
    {
      if recognitionSupported {
        recognition := new Recognizer(RecognitionLocale(sourceLang));
      }
    }

    /**
     * Choosing a source language. Choosing the current one re-renders
     * nothing, so the effect does not run and the recogniser is kept.
     */
    method SelectSourceLang(code: string)
      requires Valid() && code in SourceCodes
      modifies this
      ensures Valid()
      ensures code == old(sourceLang) ==> State() == old(State())
      ensures code != old(sourceLang) ==>
        State() == old(State()).(sourceLang := code, recognition := recognition)
      ensures code != old(sourceLang) && recognitionSupported ==>
        recognition != null && fresh(recognition) && recognition.lang == RecognitionLocale(code)
    {
      if code != sourceLang {
        sourceLang := code;
        Configure();
      }
    }

    /** Choosing a target language. */
    method SelectTargetLang(code: string)
      requires Valid() && code in LanguageCodes
      modifies this
      ensures Valid()
      ensures State() == old(State()).(targetLang := code)
    {
      targetLang := code;
    }

    /** Typing into the input box. */
    method EditInput(text: string)
      requires Valid()
      modifies this
      ensures Valid()
      ensures State() == old(State()).(inputText := text)
    {
      inputText := text;
    }

    /**
     * The microphone button. Without a recogniser it only notifies. While
     * recording it asks the recogniser to stop and leaves `isRecording` to
     * the callbacks. Otherwise it starts the recogniser and sets
     * `isRecording`, unless `start` throws (`startThrows`), in which case
     * `isRecording` stays false and the user is notified.
     */
    method ToggleRecording(startThrows: bool)
      requires Valid()
      modifies this
      ensures Valid()
      ensures old(recognition) == null ==>
        State() == old(State()).(notifications := old(notifications) + [VoiceInputUnsupported])
      ensures old(recognition) != null && old(isRecording) ==>
        State() == old(State()).(micCalls := old(micCalls) + [Stop(old(recognition))])
      ensures old(recognition) != null && !old(isRecording) && !startThrows ==>
        State() == old(State()).(isRecording := true,
                                 micCalls := old(micCalls) + [Start(old(recognition))])
      ensures old(recognition) != null && !old(isRecording) && startThrows ==>
        State() == old(State()).(micCalls := old(micCalls) + [Start(old(recognition))],
                                 notifications := old(notifications) + [MicrophoneStartFailed])
    {
      if recognition == null {
        notifications := notifications + [VoiceInputUnsupported];
        return;
      }
      if isRecording {
        micCalls := micCalls + [Stop(recognition)];
      } else {
        micCalls := micCalls + [Start(recognition)];
        if startThrows {
          notifications := notifications + [MicrophoneStartFailed];
        } else {
          isRecording := true;
        }
      }
    }

    /**
     * `onresult`: the transcript is appended to the input (space-joined
     * unless the input is empty) and recording ends.
     */
    method OnResult(transcript: string)
      requires Valid()
      modifies this
      ensures Valid()
      ensures State() == old(State()).(inputText := AppendTranscript(old(inputText), transcript),
                                       isRecording := false)
    {
      inputText := AppendTranscript(inputText, transcript);
      isRecording := false;
    }

    /** `onerror`: recording ends and exactly one notification is shown. */
    method OnError()
      requires Valid()
      modifies this
      ensures Valid()
      ensures State() == old(State()).(isRecording := false,
                                       notifications := old(notifications) + [VoiceInputFailed])
    {
      isRecording := false;
      notifications := notifications + [VoiceInputFailed];
    }

    /** `onend`: recording ends; nothing else changes. */
    method OnEnd()
      requires Valid()
      modifies this
      ensures Valid()
      ensures State() == old(State()).(isRecording := false)
    {
      isRecording := false;
    }

    /**
     * `handleTranslate` up to its `await`. Blank input (empty or only
     * whitespace) is ignored; otherwise loading starts and exactly one
     * request is issued, carrying the untrimmed input and both codes.
     */
    method BeginTranslate() returns (issued: bool)
      requires Valid()
      modifies this
      ensures Valid()
      ensures issued <==> !IsBlank(old(inputText))
      ensures old(TranslateEnabled()) ==> issued
      ensures !issued ==> State() == old(State())
      ensures issued ==>
        State() == old(State()).(isLoading := true,
          requests := old(requests) + [TranslationRequest(old(inputText), old(sourceLang), old(targetLang))],
          inFlight := old(inFlight) + 1)
    {
      if IsBlank(inputText) {
        return false;
      }
      isLoading := true;
      var request := TranslationRequest(inputText, sourceLang, targetLang);
      RequestKeepsWellFormed(requests, request);
      requests := requests + [request];
      inFlight := inFlight + 1;
      issued := true;
    }

    /**
     * `handleTranslate` after its `await`: a success replaces the output
     * with the translation, a failure keeps the output and notifies once;
     * either way loading ends.
     */
    method CompleteTranslate(outcome: Outcome)
      requires Valid() && inFlight > 0
      modifies this
      ensures Valid()
      ensures outcome.Success? ==>
        State() == old(State()).(outputText := outcome.translated_text, isLoading := false,
                                 inFlight := old(inFlight) - 1)
      ensures outcome.Failure? ==>
        State() == old(State()).(notifications := old(notifications) + [TranslationFailed],
                                 isLoading := false, inFlight := old(inFlight) - 1)
    {
      match outcome {
        case Success(text) =>
          outputText := text;
        case Failure =>
          notifications := notifications + [TranslationFailed];
      }
      isLoading := false;
      inFlight := inFlight - 1;
    }

    /**
     * `handleTranslate` when its request settles before any other handler
     * runs: on non-blank input exactly one request is issued and it ends in
     * exactly one of success (output replaced) or failure (output kept, one
     * notification); loading is off afterwards.
     */
    method HandleTranslate(outcome: Outcome) returns (issued: bool)
      requires Valid()
      modifies this
      ensures Valid()
      ensures issued <==> !IsBlank(old(inputText))
      ensures !issued ==> State() == old(State())
      ensures issued ==> requests == old(requests) + [TranslationRequest(old(inputText), old(sourceLang), old(targetLang))]
      ensures issued ==> !isLoading && inFlight == old(inFlight)
      ensures issued && outcome.Success? ==>
        State() == old(State()).(outputText := outcome.translated_text, isLoading := false,
                                 requests := requests)
      ensures issued && outcome.Failure? ==>
        State() == old(State()).(notifications := old(notifications) + [TranslationFailed],
                                 isLoading := false, requests := requests)
    {
      issued := BeginTranslate();
      if issued {
        CompleteTranslate(outcome);
      }
    }

    /**
     * A key pressed in the input box: Enter without Shift prevents the
     * newline and begins a translation; every other key, Shift+Enter
     * included, changes nothing. The loading state is not consulted.
     */
    method HandleKeyDown(key: string, shiftKey: bool) returns (defaultPrevented: bool, issued: bool)
      requires Valid()
      modifies this
      ensures Valid()
      ensures defaultPrevented <==> key == "Enter" && !shiftKey
      ensures issued <==> defaultPrevented && !IsBlank(old(inputText))
      ensures !issued ==> State() == old(State())
      ensures issued ==>
        State() == old(State()).(isLoading := true,
          requests := old(requests) + [TranslationRequest(old(inputText), old(sourceLang), old(targetLang))],
          inFlight := old(inFlight) + 1)
    {
      defaultPrevented := key == "Enter" && !shiftKey;
      issued := false;
      if defaultPrevented {
        issued := BeginTranslate();
      }
    }

    /**
     * The Listen button. Nothing happens without output; without speech
     * synthesis the user is notified; otherwise any utterance in progress is
     * cancelled and the output is spoken in the target's locale.
     */
    method PlayAudio(voices: seq<Voice>)
      requires Valid()
      modifies this
      ensures Valid()
      ensures old(outputText) == [] ==> State() == old(State())
      ensures old(outputText) != [] && synthesisSupported ==>
        State() == old(State()).(speech := old(speech) + [Cancel, Speak(UtteranceFor(old(outputText), old(targetLang), voices))])
      ensures old(outputText) != [] && !synthesisSupported ==>
        State() == old(State()).(notifications := old(notifications) + [SpeechUnsupported])
    {
      if outputText == [] {
        return;
      }
      if synthesisSupported {
        var utterance := UtteranceFor(outputText, targetLang, voices);
        PlayKeepsCancelFirst(speech, utterance);
        speech := speech + [Cancel, Speak(utterance)];
      } else {
        notifications := notifications + [SpeechUnsupported];
      }
    }
  }
}
