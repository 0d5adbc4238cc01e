/**
 * The JSON bodies exchanged over `POST /translation/` between the page and
 * the translation server.
 */
module Api {
  /** The request body; field names follow the wire format. */
  datatype TranslationRequest = TranslationRequest(text: string, source_lang: string, target_lang: string)

  /** The success body returned by the server. */
  datatype TranslationResponse = TranslationResponse(
    translated_text: string,
    original_text: string,
    src_lang: string,
    tgt_lang: string)
}
