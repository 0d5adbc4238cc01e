/**
 * The translation server's handler for `POST /translation/`: it normalises
 * the two language codes through `LANG_MAP`, hands the text to a
 * translator, and echoes the request in the response.
 */
module Backend {
  import opened Wrappers
  import opened Api

  /** `LANG_MAP`: language names and codes, in lower case, to translator codes. */
  const LangMap: map<string, string> := map[
    "malay" := "ms", "ms" := "ms",
    "english" := "en", "en" := "en",
    "mandarin" := "zh-CN", "zh" := "zh-CN",
    "tamil" := "ta", "ta" := "ta"]

  /** The values of `LangMap`. */
  const NormalCodes: set<string> := {"ms", "en", "zh-CN", "ta"}

  /** `source_lang` when the client leaves it out. */
  const DefaultSourceLang: string := "auto"

  /** The prefix of the detail of every failed translation. */
  const FailurePrefix: string := "Translation failed: "

  /** An HTTP error raised by the handler. */
  datatype HttpError = HttpError(status_code: int, detail: string)

  /**
   * The external translator, `GoogleTranslator(source, target).translate(text)`:
   * given source code, target code and text, the translation, or the text
   * of the exception it raised.
   */
  type Translator = (string, string, string) -> Result<string, string>

  /** Python's `str.lower` on one character, for the ASCII letters. */
  function LowerChar(c: char): (d: char)
    ensures 'A' <= c <= 'Z' ==> 'a' <= d <= 'z' && d as int - c as int == 32
    ensures !('A' <= c <= 'Z') ==> d == c
  {
    if 'A' <= c <= 'Z' then (c as int + 32) as char else c
  }

  /** `s.lower()`, character by character. */
  function Lower(s: string): (r: string)
    ensures |r| == |s|
    ensures forall i :: 0 <= i < |s| ==> r[i] == LowerChar(s[i])
  {
    seq(|s|, i requires 0 <= i < |s| => LowerChar(s[i]))
  }

  /** Lowering twice is lowering once. */
  lemma LowerIdempotent(s: string)
    ensures Lower(Lower(s)) == Lower(s)
  {
  }

  /**
   * `LANG_MAP.get(code.lower(), code)`: the mapped value when the
   * lower-cased code is a key, otherwise the code itself with its casing.
   */
  function Normalize(code: string): (r: string)
    ensures r in NormalCodes || r == code
  {
    var key := Lower(code);
    if key in LangMap then LangMap[key] else code
  }

  /** Every key of `LangMap` is already lower case, so it is found as it is. */
  lemma NormalizeKey(k: string)
    requires k in LangMap
    ensures Normalize(k) == LangMap[k]
  {
    assert forall i :: 0 <= i < |k| ==> !('A' <= k[i] <= 'Z');
    assert Lower(k) == k;
  }

  /** The names and codes of the four languages map as the server intends. */
  lemma NormalizeTable()
    ensures Normalize("malay") == "ms" && Normalize("ms") == "ms"
    ensures Normalize("english") == "en" && Normalize("en") == "en"
    ensures Normalize("mandarin") == "zh-CN" && Normalize("zh") == "zh-CN"
    ensures Normalize("tamil") == "ta" && Normalize("ta") == "ta"
  {
    NormalizeKey("malay");
    NormalizeKey("ms");
    NormalizeKey("english");
    NormalizeKey("en");
    NormalizeKey("mandarin");
    NormalizeKey("zh");
    NormalizeKey("tamil");
    NormalizeKey("ta");
  }

  /**
   * The lookup ignores case: two codes that lower to the same key normalise
   * alike, and a code normalises like its lower-case form.
   */
  lemma NormalizeIgnoresCase(a: string, b: string)
    requires Lower(a) == Lower(b) && Lower(a) in LangMap
    ensures Normalize(a) == Normalize(b) == Normalize(Lower(a))
  {
    LowerIdempotent(a);
  }

  /** A code whose lower-case form is not a key passes through with its original casing. */
  lemma NormalizePassesThrough(code: string)
    requires Lower(code) !in LangMap
    ensures Normalize(code) == code
  {
  }

  /**
   * Upper- and mixed-case spellings normalise like their lower-case forms,
   * and the default source "auto", not being a key, passes through.
   */
  lemma NormalizeExamples()
    ensures Normalize("MS") == Normalize("ms") == "ms"
    ensures Normalize("Malay") == Normalize("malay") == "ms"
    ensures Normalize("ZH") == Normalize("zh") == "zh-CN"
    ensures Normalize(DefaultSourceLang) == DefaultSourceLang
  {
    NormalizeTable();
    assert Lower("MS") == "ms";
    assert Lower("Malay") == "malay";
    assert Lower("ZH") == "zh";
    assert Lower(DefaultSourceLang) == "auto";
  }

  /** Normalising a normalised code changes nothing. */
  lemma NormalizeIdempotent(code: string)
    ensures Normalize(Normalize(code)) == Normalize(code)
  {
    if Lower(code) in LangMap {
      NormalizeTable();
      assert Lower("zh-CN") == "zh-cn";
    }
  }

  /** The request model's default: an absent `source_lang` reads as "auto". */
  function ReceiveRequest(text: string, source_lang: Option<string>, target_lang: string): (req: TranslationRequest)
    ensures req.text == text && req.target_lang == target_lang
    ensures req.source_lang == (if source_lang.Some? then source_lang.value else DefaultSourceLang)
  {
    TranslationRequest(text, if source_lang.Some? then source_lang.value else DefaultSourceLang, target_lang)
  }

  /**
   * A request that leaves out `source_lang` is translated from "auto": the
   * default passes through normalisation unchanged.
   */
  lemma OmittedSourceServedAsAuto(text: string, target_lang: string, translate: Translator)
    ensures var r := TranslateText(ReceiveRequest(text, None, target_lang), translate);
      r.Ok? ==> r.value.src_lang == DefaultSourceLang
  {
    NormalizeExamples();
  }

  /**
   * `translate_text`: translation is attempted with the normalised codes;
   * on success the response carries the translation, the original text and
   * the normalised codes; any exception becomes an HTTP 500 whose detail
   * starts with "Translation failed: " followed by the exception's text.
   */
  function TranslateText(request: TranslationRequest, translate: Translator): (r: Result<TranslationResponse, HttpError>)
    ensures var outcome := translate(Normalize(request.source_lang), Normalize(request.target_lang), request.text);
      && (r.Ok? <==> outcome.Ok?)
      && (r.Ok? ==> r.value.translated_text == outcome.value)
      && (r.Err? ==> r.error.detail == FailurePrefix + outcome.error)
    ensures r.Ok? ==> r.value.original_text == request.text
    ensures r.Ok? ==> r.value.src_lang == Normalize(request.source_lang)
    ensures r.Ok? ==> r.value.tgt_lang == Normalize(request.target_lang)
    ensures r.Err? ==> r.error.status_code == 500 && FailurePrefix <= r.error.detail
  {
    var source := Normalize(request.source_lang);
    var target := Normalize(request.target_lang);
    match translate(source, target, request.text)
    case Ok(translated) => Ok(TranslationResponse(translated, request.text, source, target))
    case Err(e) => Err(HttpError(500, FailurePrefix + e))
  }
}
