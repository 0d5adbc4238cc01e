# Translator page and translation server, modelled in Dafny

This project models the AI Translator (edulinktranslator). The model covers the
client-side controller of the translator page (`src/TranslationPage.jsx`) and
the language-code normalisation of the translation server (`backend_server.py`).

The page's behaviour:
- The user types or dictates text into an input buffer.
- The text goes to the server's `POST /translation/` endpoint.
- The translation shown in the output can be played back as synthesized speech.

Modules:

- `Wrappers`: `Option` and `Result`.
- `JsText`: ECMAScript `String.prototype.trim` over the exact WhiteSpace and
  LineTerminator code points, and the blank-input test `!s.trim()`.
- `Api`: the JSON bodies of `POST /translation/`.
- `Capture`: the recognition locale map, the `Recognizer` object (its locale is
  fixed at creation) and the transcript-append rule.
- `Playback`: the playback locale map with its `en-US` default, the fixed rate 0.9,
  and the two-tier voice selection. Tier 1 takes the first voice whose locale equals
  the tag. Tier 2 takes the first voice whose locale string-starts-with the tag's
  primary subtag. Tier 2 is a plain prefix test, so a `tay-X` voice passes for `ta-MY`.
- `Frontend`: the page as a class `TranslationPage`.
  - Its fields are the component state: `inputText`, `outputText`, `sourceLang`,
    `targetLang`, `isRecording`, `isLoading` and the current recogniser.
  - It keeps four logs of what it asks of the outside world: recogniser
    `start`/`stop` calls, speech-synthesis `cancel`/`speak` actions, toast
    notifications and translation requests.
  - Each handler is a method whose `ensures` gives the whole new state.
  - The invariant `Valid()` holds between handlers:
    - the recogniser is bound to the locale of `sourceLang`;
    - every utterance is preceded by a cancel;
    - every request carries non-blank text and codes the selects offer;
    - `isLoading` implies a request is outstanding.
- `Backend`: `LANG_MAP`, the case-insensitive normalisation, and `translate_text`.
  The translator (`GoogleTranslator`) is a function-valued parameter: given source,
  target and text, it returns a translation or the text of the exception it raised.
- `Wiring`: the two sides together.
  - What the server makes of every request the page can send.
  - Four client methods that follow whole interactions through the handlers:
    - the "Good morning" round trip;
    - a failed request;
    - two overlapping requests;
    - a recogniser replaced while recording.

`handleTranslate` is split at its `await` into `BeginTranslate` and
`CompleteTranslate(outcome)`. Other handlers may run between the two, so the
documented races stay in the model, as written.
- Pressing Enter is not guarded by `isLoading`. A second Enter while loading issues
  a second request, and the first response turns `isLoading` off while the second is
  still outstanding (`Wiring.OverlappingRequestsScenario`).
- A recogniser replaced while recording leaves `isRecording` set. The next microphone
  press stops the new recogniser, which was never started, and a transcript from the
  old recogniser is still appended (`Wiring.StaleRecognizerScenario`).

Points where the page's behaviour is easy to misread:
- The request carries `inputText` untrimmed (src/TranslationPage.jsx:93). `trim`
  is used only for the blank test at :88 and the button condition at :267.
- Capture state is the single flag `isRecording` (src/TranslationPage.jsx:27).
  `onresult`, `onerror` and `onend` all clear it, and there is no other record
  of a session's outcome.
- The recogniser callbacks (src/TranslationPage.jsx:50-63) update the page
  whichever recogniser delivers them. Nothing ties an event to the current
  recogniser.
- The recogniser effect depends on `[sourceLang]` (src/TranslationPage.jsx:67).
  Choosing the language that is already selected does not re-run the effect, so
  `SelectSourceLang` keeps the recogniser.

Browser capabilities (`SpeechRecognition`, `speechSynthesis`) are two flags fixed
when the page is constructed. Whether `recognition.start()` throws, the voice list,
the key pressed and the outcome of a request are parameters of the handlers.

## Model

| member | source | states |
|---|---|---|
| `JsText.TrimStart` | src/TranslationPage.jsx:88 | the result is a suffix of the input, starts with a non-whitespace code point (or is empty), and everything dropped is whitespace |
| `JsText.TrimEnd` | src/TranslationPage.jsx:88 | the result is a prefix of the input, ends with a non-whitespace code point (or is empty), and everything dropped is whitespace |
| `JsText.Trim` | src/TranslationPage.jsx:88 | `trim()` keeps a contiguous piece of the input; everything cut before and after it is whitespace or line terminators, and neither end of what is kept is |
| `JsText.BlankIffTrimsToEmpty` | src/TranslationPage.jsx:88 | the blank test used by the page (every code point is whitespace) holds exactly when `s.trim()` is empty, i.e. when `!s.trim()` is true |
| `Capture.RecognitionLocale` | src/TranslationPage.jsx:39-48 | the locale is one of en-US, ms-MY, zh-CN, ta-MY; it is en-US exactly when the code is not ms, zh or ta (so "auto" and unknown codes give en-US); for a language code it begins with that code |
| `Capture.Recognizer.constructor` | src/TranslationPage.jsx:35-37 | a new recogniser has the given locale, is not continuous and reports no interim results |
| `Capture.AppendTranscript` | src/TranslationPage.jsx:52 | an empty buffer becomes the transcript; otherwise the buffer is kept as a prefix, followed by one space and the transcript |
| `Capture.DictateOntoText` | src/TranslationPage.jsx:50-54 | successive transcripts dictated onto non-empty text are appended in order, each after one space |
| `Capture.DictateFromEmpty` | src/TranslationPage.jsx:50-54 | transcripts dictated into an empty buffer come out joined by single spaces when the first is non-empty |
| `Capture.DictationExamples` | src/TranslationPage.jsx:52 | "hello" then "world" from empty gives "hello world"; "hello" onto "existing" gives "existing hello" |
| `Playback.PlaybackLocale` | src/TranslationPage.jsx:111-118 | the tag is always one of the map's tags, the mapped tag for a known code and en-US otherwise |
| `Playback.LocaleMapsAgree` | src/TranslationPage.jsx:111-118 | for every code, the playback locale equals the recognition locale |
| `Playback.PrimarySubtag` | src/TranslationPage.jsx:126 | `split("-")[0]` is the longest hyphen-free prefix of the tag, ending where the first hyphen is |
| `Playback.FindIndex` | src/TranslationPage.jsx:123 | `find` returns the first position whose voice satisfies the test, and none only when no voice does |
| `Playback.SelectIndex` | src/TranslationPage.jsx:122-128 | the first exact-tag voice when one exists; otherwise the first voice passing the prefix test; none only when no voice passes the prefix test |
| `Playback.SelectVoice` | src/TranslationPage.jsx:122-132 | the chosen voice is the one at the position `SelectIndex` picks (first exact tag, else first prefix match); it comes from the list and passes the prefix test, an exact tag is preferred, and the default voice is kept only when no voice passes the prefix test |
| `Playback.RegionalFallback` | src/TranslationPage.jsx:125-128 | with only a zh-TW voice available, target zh selects that voice rather than the default |
| `Playback.PrefixIsNotSubtagMatch` | src/TranslationPage.jsx:127 | a voice with locale "tay-X" is selected for target ta (ta-MY): the test is a string prefix, not a subtag match |
| `Frontend.UtteranceFor` | src/TranslationPage.jsx:110-132 | the utterance speaks the given text in the target's locale at rate 0.9 with exactly the voice `SelectVoice` chooses (the first exact match, else the first prefix match), or the default voice when none passes |
| `Frontend.PlayKeepsCancelFirst` | src/TranslationPage.jsx:134-135 | logging cancel then speak keeps every speak immediately preceded by a cancel, so utterances never overlap |
| `Frontend.RequestKeepsWellFormed` | src/TranslationPage.jsx:88-96 | adding a request with non-blank text and selectable codes keeps every logged request well formed |
| `Frontend.TranslationPage.TranslateEnabled` | src/TranslationPage.jsx:267 | the Translate button is enabled exactly when `inputText.trim()` is non-empty and no request is loading |
| `Frontend.TranslationPage.constructor` | src/TranslationPage.jsx:23-29 | initial state: empty texts, source "auto", target "ms", not recording, not loading, empty logs; the recogniser effect has run |
| `Frontend.TranslationPage.Configure` | src/TranslationPage.jsx:31-67 | where recognition is supported, a fresh recogniser replaces the old one, with the locale of the current source language; nothing else changes, `isRecording` included |
| `Frontend.TranslationPage.SelectSourceLang` | src/TranslationPage.jsx:164-167 | a new source code replaces the recogniser with one in that code's locale; reselecting the current code changes nothing |
| `Frontend.TranslationPage.SelectTargetLang` | src/TranslationPage.jsx:179-182 | only the target language changes |
| `Frontend.TranslationPage.EditInput` | src/TranslationPage.jsx:195-198 | only the input text changes |
| `Frontend.TranslationPage.ToggleRecording` | src/TranslationPage.jsx:69-85 | without a recogniser: one notification and nothing else; while recording: `stop` is called and `isRecording` is left alone; otherwise `start` is called and `isRecording` becomes true, or stays false with one notification when `start` throws |
| `Frontend.TranslationPage.OnResult` | src/TranslationPage.jsx:50-54 | the transcript is appended to the input by the append rule and recording ends; nothing else changes |
| `Frontend.TranslationPage.OnError` | src/TranslationPage.jsx:56-59 | recording ends and exactly one notification is added; the texts are unchanged |
| `Frontend.TranslationPage.OnEnd` | src/TranslationPage.jsx:61-63 | recording ends; nothing else changes |
| `Frontend.TranslationPage.BeginTranslate` | src/TranslationPage.jsx:87-96 | blank input issues nothing and changes nothing; otherwise loading starts and exactly one request {untrimmed input, source, target} is logged; an enabled Translate button always issues |
| `Frontend.TranslationPage.CompleteTranslate` | src/TranslationPage.jsx:97-104 | success replaces the output with the translation; failure keeps the output and adds one notification; loading ends either way |
| `Frontend.TranslationPage.HandleTranslate` | src/TranslationPage.jsx:87-104 | on non-blank input one request ends in exactly one of success or failure and loading is off afterwards; blank input changes nothing |
| `Frontend.TranslationPage.HandleKeyDown` | src/TranslationPage.jsx:141-146 | Enter without Shift prevents the default and begins a translation; any other key, Shift+Enter included, changes nothing |
| `Frontend.TranslationPage.PlayAudio` | src/TranslationPage.jsx:106-139 | empty output does nothing; without speech synthesis one notification; otherwise a cancel and then the utterance for the output are logged |
| `Backend.LowerChar` | backend_server.py:48 | upper-case ASCII letters become their lower-case forms; every other character is unchanged |
| `Backend.Lower` | backend_server.py:48 | lowering keeps the length and lowers each character |
| `Backend.LowerIdempotent` | backend_server.py:48 | lowering twice is lowering once |
| `Backend.Normalize` | backend_server.py:48-49 | the normalised code is one of ms, en, zh-CN, ta, or the code itself |
| `Backend.NormalizeKey` | backend_server.py:37-42 | every key of `LANG_MAP` is found as it is and yields its mapped value |
| `Backend.NormalizeTable` | backend_server.py:37-42 | malay/ms map to ms, english/en to en, mandarin/zh to zh-CN, tamil/ta to ta |
| `Backend.NormalizeIgnoresCase` | backend_server.py:48-49 | codes that lower to the same key normalise alike and like their lower-case form |
| `Backend.NormalizePassesThrough` | backend_server.py:48-49 | a code whose lower-case form is not a key comes back unchanged with its casing |
| `Backend.NormalizeExamples` | backend_server.py:37-49 | "MS", "Malay" and "ZH" normalise like "ms", "malay" and "zh"; the default source "auto" passes through |
| `Backend.NormalizeIdempotent` | backend_server.py:37-49 | normalising an already normalised code returns it unchanged |
| `Backend.ReceiveRequest` | backend_server.py:25-28 | an omitted `source_lang` defaults to "auto"; text and target are taken as given |
| `Backend.OmittedSourceServedAsAuto` | backend_server.py:27 | a request without `source_lang` that is translated answers with source language "auto" |
| `Backend.TranslateText` | backend_server.py:44-64 | the translator is called with the normalised codes; on success the response echoes the original text and the normalised codes; any exception becomes HTTP 500 with detail "Translation failed: " followed by the exception text |
| `Wiring.PageCodesNormalize` | backend_server.py:37-49 | every code the page's selects offer reaches the translator unchanged, except zh, which becomes zh-CN |
| `Wiring.PageRequestServed` | backend_server.py:56-61 | a response to a request the page sent carries a known target, a known or "auto" source, and the sent text |
| `Wiring.GoodMorningScenario` | src/TranslationPage.jsx:87-104 | "Good morning", en to ms: the page sends exactly that request, and the server's "Selamat pagi" becomes the output with loading over |
| `Wiring.FailureScenario` | src/TranslationPage.jsx:97-103 | a failed request keeps the previous output, ends loading and records one notification |
| `Wiring.OverlappingRequestsScenario` | src/TranslationPage.jsx:141-146 | two Enter presses while loading send two requests; loading turns off after the first response; the last response handled sets the output |
| `Wiring.StaleRecognizerScenario` | src/TranslationPage.jsx:65-85 | after the source language changes mid-recording, `isRecording` is still set, the next toggle stops the new recogniser, and the old recogniser's transcript is still appended |

## Left out

- Network I/O is not modelled. This covers the axios call and the base URL read
  from `VITE_API_URL`. A request is logged, and its settlement is an input to
  `CompleteTranslate`.
- The transcript is passed to `OnResult` directly. The event structure
  `event.results[0][0]` is not modelled.
- Real recognition and synthesis are not modelled. Only the calls made on them are
  logged. Toast rendering is not modelled, and neither is the clipboard write of
  the Copy button, which is fire-and-forget.
- React rendering is not modelled. A state update takes effect at once, and the
  recogniser effect runs as part of the source-language change.
- Interleavings are limited. Handlers run one at a time, with the `await` in
  `handleTranslate` as the only suspension point.
- The speaking rate is the exact real 0.9. No floating-point reasoning is done.
- Backend.LowerChar: only ASCII letters are lowered, not all of Python's Unicode
  `str.lower`. The only non-ASCII character that lowers to an ASCII letter is
  KELVIN SIGN, which lowers to `k`. No `LANG_MAP` key contains `k`, so every
  lookup gives the same answer.
- Playback.PlaybackLocale: keys inherited from `Object.prototype`, such as
  `constructor`, are not modelled. `targetLang` only ever holds a value offered by
  the target select.
- Backend plumbing is not modelled. This covers the `GoogleTranslator` library,
  FastAPI, CORS, uvicorn, logging, and pydantic's rejection of malformed bodies.
- The page markup is not modelled, apart from the Translate button's enable
  condition and the handlers bound to the two selects and the text box.
- `src/App.jsx` and `tailwind.config.cjs` are presentation and build
  configuration, and are not part of this model.
