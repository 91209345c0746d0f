/** FastAPI error responses. Several endpoints raise an `HTTPException`
    inside `try: ... except Exception as e: raise HTTPException(500, str(e))`;
    the inner exception is then caught, and its text, `"<code>: <detail>"`,
    becomes the detail of a 500. */
module HttpErrors {
  import opened JsonValue
  import JsText

  /** The detail of a response: a fixed text, or `str(e)` of an exception
      the model names but whose message text it does not carry, possibly
      after a fixed prefix. */
  datatype Detail = Text(text: string) | Raised(error: PyError) | Prefixed(prefix: string, error: PyError)

  datatype HttpError = HttpError(status: int, detail: Detail)

  /** `str(HTTPException(status, detail))`. */
  function ExceptionText(status: int, detail: string): string {
    JsText.IntToString(status) + ": " + detail
  }

  /** What `except Exception as e: raise HTTPException(500, str(e))` makes
      of an `HTTPException` raised inside its `try`. */
  function Rewrapped(e: HttpError): (r: HttpError)
    requires e.detail.Text?
    ensures r.status == 500
    ensures r.detail == Text(ExceptionText(e.status, e.detail.text))
  {
    HttpError(500, Text(ExceptionText(e.status, e.detail.text)))
  }

  /** A 404 raised inside such a `try` reaches the client as a 500 whose
      detail begins with "404: ". */
  lemma NotFoundBecomes500(detail: string)
    ensures Rewrapped(HttpError(404, Text(detail))) == HttpError(500, Text("404: " + detail))
  {
    assert JsText.IntToString(404) == "404";
  }

  /** So does a 503, with "503: ". */
  lemma UnavailableBecomes500(detail: string)
    ensures Rewrapped(HttpError(503, Text(detail))) == HttpError(500, Text("503: " + detail))
  {
    assert JsText.IntToString(503) == "503";
  }

  const FirebaseUnavailable: HttpError := HttpError(503, Text("Firebase is not initialized."))
}
