/**
 * Speech capture: the locale a recogniser is created with, the recogniser
 * object itself, and the rule that appends a recognised transcript to the
 * text already typed.
 */
module Capture {

  /**
   * The recognition locale chosen from the source-language selection
   * (the nested conditional that sets `recognitionInstance.lang`): the
   * detect sentinel "auto" and every unknown code fall back to en-US.
   */
  function RecognitionLocale(sourceLang: string): (tag: string)
    ensures tag in {"en-US", "ms-MY", "zh-CN", "ta-MY"}
    ensures tag == "en-US" <==> sourceLang !in {"ms", "zh", "ta"}
    ensures sourceLang in {"ms", "en", "zh", "ta"} ==> tag[..2] == sourceLang
  {
    if sourceLang == "auto" then "en-US"
    else if sourceLang == "ms" then "ms-MY"
    else if sourceLang == "zh" then "zh-CN"
    else if sourceLang == "ta" then "ta-MY"
    else "en-US"
  }

  /**
   * A speech recogniser instance. Its locale and its two flags are set
   * once, right after construction, and never changed afterwards; a new
   * locale therefore needs a new instance.
   */
  class Recognizer {
    const lang: string
    const continuous: bool
    const interimResults: bool

    /** `new SpeechRecognition()` configured for one final result in locale `lang`. */
    constructor (lang: string)
      ensures this.lang == lang && !continuous && !interimResults
    {
      this.lang := lang;
      continuous := false;
      interimResults := false;
    }
  }

  /**
   * The `onresult` update of the input buffer: the transcript replaces an
   * empty buffer and is otherwise joined to it by one space, so the typed
   * text is always kept as a prefix and the transcript always ends the result.
   */
  function AppendTranscript(prev: string, transcript: string): (r: string)
    ensures prev == [] ==> r == transcript
    ensures prev != [] ==> |r| == |prev| + 1 + |transcript|
    ensures prev != [] ==> r[..|prev|] == prev && r[|prev|] == ' ' && r[|prev| + 1..] == transcript
  {
    if prev == [] then transcript else prev + " " + transcript
  }

  /** The buffer after a series of dictated transcripts, one `onresult` each. */
  function Dictate(prev: string, transcripts: seq<string>): string
    decreases transcripts
  {
    if transcripts == [] then prev
    else Dictate(AppendTranscript(prev, transcripts[0]), transcripts[1..])
  }

  /** Each transcript preceded by one space. */
  function Spaced(transcripts: seq<string>): string
  {
    if transcripts == [] then [] else " " + transcripts[0] + Spaced(transcripts[1..])
  }

  /** The transcripts joined by single spaces. */
  function Join(transcripts: seq<string>): string
  {
    if transcripts == [] then [] else transcripts[0] + Spaced(transcripts[1..])
  }

  /**
   * Dictating into a non-empty buffer keeps it and appends every transcript,
   * in order, each after one space.
   */
  lemma {:induction false} DictateOntoText(prev: string, transcripts: seq<string>)
    requires prev != []
    ensures Dictate(prev, transcripts) == prev + Spaced(transcripts)
    decreases transcripts
  {
    if transcripts != [] {
      var head, rest := transcripts[0], transcripts[1..];
      var next := AppendTranscript(prev, head);
      assert next == prev + " " + head;
      DictateOntoText(next, rest);
      assert Spaced(transcripts) == " " + head + Spaced(rest);
      assert prev + " " + head + Spaced(rest) == prev + (" " + head + Spaced(rest));
    }
  }

  /**
   * Dictating into an empty buffer yields the transcripts joined by single
   * spaces, provided the first transcript is not itself empty.
   */
  lemma {:induction false} DictateFromEmpty(transcripts: seq<string>)
    requires transcripts == [] || transcripts[0] != []
    ensures Dictate([], transcripts) == Join(transcripts)
  {
    if transcripts != [] {
      DictateOntoText(transcripts[0], transcripts[1..]);
    }
  }

  /** Two dictations from an empty buffer, and one onto existing text. */
  lemma DictationExamples()
    ensures Dictate("", ["hello", "world"]) == "hello world"
    ensures Dictate("existing", ["hello"]) == "existing hello"
  {
    DictateFromEmpty(["hello", "world"]);
    assert Spaced(["world"]) == " world";
    DictateOntoText("existing", ["hello"]);
    assert Spaced(["hello"]) == " hello";
  }
}
