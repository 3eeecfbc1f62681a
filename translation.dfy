/** The component's `translate` helper: one POST to the translation service,
    falling back to the original text when anything goes wrong. */
module Translation {

  const Endpoint := "https://translation.googleapis.com/language/translate/v2"
  const ApiKey := "YOUR_GOOGLE_TRANSLATE_API_KEY"

  /** The POST: its URL and the fields of its JSON body. */
  datatype Request = Request(url: string, q: string, target: string, format: string, key: string)

  /** What comes back: the promise rejects (network error, non-2xx status), or
      it resolves with the list `data.data.translations` of translated texts.
      A resolved body without `data.data.translations` makes the field access
      throw inside the `try`; it counts as a rejection here. */
  datatype Reply = Rejected | Answered(translations: seq<string>)

  /** The POST sent for `text` while the component's language is `lang`. */
  function RequestFor(text: string, lang: string): (req: Request)
    ensures req.url == Endpoint && req.q == text && req.target == lang
  {
    Request(Endpoint, text, lang, "text", ApiKey)
  }

  /** `translate(text)` with the service modelled as `post`: the first
      translation when there is one; the input itself when the call rejects or
      `translations[0]` is missing (reading a field of it throws, and the catch
      returns the input). */
  function Translate(text: string, lang: string, post: Request -> Reply): (r: string)
    ensures post(RequestFor(text, lang)).Rejected? ==> r == text
    ensures post(RequestFor(text, lang)) == Answered([]) ==> r == text
    ensures post(RequestFor(text, lang)).Answered? && |post(RequestFor(text, lang)).translations| > 0
            ==> r == post(RequestFor(text, lang)).translations[0]
  {
    match post(RequestFor(text, lang))
    case Rejected => text
    case Answered(ts) => if |ts| > 0 then ts[0] else text
  }

  /** Fail-soft: whatever the service does, the result is the input text or a
      text the service returned for exactly this request. */
  lemma TranslateFailSoft(text: string, lang: string, post: Request -> Reply)
    ensures var r := Translate(text, lang, post);
            r == text || (post(RequestFor(text, lang)).Answered? && r in post(RequestFor(text, lang)).translations)
  {
  }

  /** With a service that is unreachable for every request, `translate` is the identity. */
  lemma TranslateOffline(text: string, lang: string)
    ensures Translate(text, lang, _ => Rejected) == text
  {
  }
}
