/**
 * The page and the server together: what the server makes of the requests
 * the page can send, and whole interactions followed through the page's
 * handlers.
 */
module Wiring {
  import opened Wrappers
  import opened JsText
  import opened Api
  import opened Capture
  import opened Frontend
  import Backend

  /**
   * The codes the page sends reach the translator as the server intends:
   * "zh" becomes "zh-CN", every other code offered by the selects
   * (including "auto") arrives unchanged.
   */
  lemma PageCodesNormalize(code: string)
    requires code in SourceCodes
    ensures Backend.Normalize(code) == (if code == "zh" then "zh-CN" else code)
  {
    Backend.NormalizeTable();
    Backend.NormalizeExamples();
  }

  /**
   * A request from the page is served with a target the translator knows
   * and a source that is a known code or "auto"; the text is echoed back.
   */
  lemma PageRequestServed(requests: seq<TranslationRequest>, i: nat, translate: Backend.Translator)
    requires WellFormedRequests(requests) && i < |requests|
    ensures var r := Backend.TranslateText(requests[i], translate);
      r.Ok? ==> (r.value.tgt_lang in Backend.NormalCodes
                 && r.value.src_lang in Backend.NormalCodes + {"auto"}
                 && r.value.original_text == requests[i].text)
  {
    PageCodesNormalize(requests[i].source_lang);
    PageCodesNormalize(requests[i].target_lang);
  }

  /**
   * "Good morning" from English to Malay: the page sends exactly the
   * request the server expects, and the server's translation becomes the
   * output with loading over.
   */
  method GoodMorningScenario(translate: Backend.Translator) returns (output: string, loading: bool, sent: seq<TranslationRequest>)
    requires translate("en", "ms", "Good morning") == Ok("Selamat pagi")
    ensures sent == [TranslationRequest("Good morning", "en", "ms")]
    ensures output == "Selamat pagi" && !loading
  {
    var page := new TranslationPage(true, true);
    page.EditInput("Good morning");
    page.SelectSourceLang("en");
    assert page.inputText[0] == 'G' && !IsBlank(page.inputText);
    var issued := page.BeginTranslate();
    var request := page.requests[0];
    PageCodesNormalize("en");
    PageCodesNormalize("ms");
    var response := Backend.TranslateText(request, translate);
    assert response.Ok?;
    page.CompleteTranslate(Success(response.value.translated_text));
    output, loading, sent := page.outputText, page.isLoading, page.requests;
  }

  /**
   * A failed request keeps the previous output, ends loading and records
   * one notification.
   */
  method FailureScenario() returns (output: string, loading: bool, notes: seq<string>)
    ensures output == "Selamat pagi" && !loading && notes == [TranslationFailed]
  {
    var page := new TranslationPage(true, true);
    page.EditInput("Good morning");
    assert page.inputText[0] == 'G' && !IsBlank(page.inputText);
    var issued := page.BeginTranslate();
    page.CompleteTranslate(Success("Selamat pagi"));
    issued := page.BeginTranslate();
    page.CompleteTranslate(Failure);
    output, loading, notes := page.outputText, page.isLoading, page.notifications;
  }

  /**
   * The Enter key is not guarded by `isLoading`: pressing it while a
   * request is loading issues a second request, and the first response
   * turns loading off while the second is still outstanding. The output
   * then ends up as whichever response is handled last.
   */
  method OverlappingRequestsScenario() returns (sent: nat, loadingAfterFirst: bool, output: string)
    ensures sent == 2 && !loadingAfterFirst && output == "first"
  {
    var page := new TranslationPage(true, true);
    page.EditInput("hello");
    assert page.inputText[0] == 'h' && !IsBlank(page.inputText);
    var prevented, issued := page.HandleKeyDown("Enter", false);
    assert page.isLoading && !page.TranslateEnabled();
    prevented, issued := page.HandleKeyDown("Enter", false);
    assert issued && page.inFlight == 2;
    page.CompleteTranslate(Success("second"));
    loadingAfterFirst := page.isLoading;
    assert page.inFlight == 1;
    page.CompleteTranslate(Success("first"));
    sent, output := |page.requests|, page.outputText;
  }

  /**
   * Changing the source language while recording replaces the recogniser
   * but leaves `isRecording` set, so the next press of the microphone
   * button stops the new recogniser, which was never started; a transcript
   * still delivered by the old one is appended all the same.
   */
  method StaleRecognizerScenario() returns (stillRecording: bool, stoppedNew: bool, input: string)
    ensures stillRecording && stoppedNew && input == "selamat"
  {
    var page := new TranslationPage(true, true);
    page.ToggleRecording(false);
    var first := page.recognition;
    page.SelectSourceLang("ms");
    stillRecording := page.isRecording;
    var second := page.recognition;
    page.ToggleRecording(false);
    stoppedNew := page.micCalls == [Start(first), Stop(second)] && first != second;
    page.OnResult("selamat");
    input := page.inputText;
  }
}
