/** The `/chat` route of the backend. The chatbot is an input `chat`: its
    reply to a message from a user id, or the exception it raises. */
module ChatRoute {
  import opened Wrappers
  import opened JsonValue
  import opened HttpErrors
  import BearerUser
  import AnalysisRoute

  const Unavailable: HttpError := HttpError(503, Text("Chat service not available"))

  /** `POST /chat`. A missing chatbot is refused before the header is read
      and outside any `try`, so it stays a 503; the reply passes through
      unchanged and any exception becomes 500. */
  function Chat(available: bool, authorization: Option<string>, decode: string -> Option<Json>, message: string,
                chat: (string, Json) -> Result<Json, PyError>): (r: Result<Json, HttpError>)
    ensures !available ==> r == Err(Unavailable)
    ensures available && chat(message, BearerUser.UserId(authorization, decode)).Ok? ==>
      r == Ok(chat(message, BearerUser.UserId(authorization, decode)).value)
    ensures available && chat(message, BearerUser.UserId(authorization, decode)).Err? ==>
      r == Err(HttpError(500, Raised(chat(message, BearerUser.UserId(authorization, decode)).error)))
  {
    if !available then Err(Unavailable)
    else
      match chat(message, BearerUser.UserId(authorization, decode))
      case Ok(reply) => Ok(reply)
      case Err(e) => Err(HttpError(500, Raised(e)))
  }

  /** The two routes answer a missing service differently: chat with 503,
      analysis with 500. */
  lemma UnavailableAnswersDiffer(authorization: Option<string>, decode: string -> Option<Json>, message: string,
                                 chat: (string, Json) -> Result<Json, PyError>,
                                 run: Json -> Result<AnalysisRoute.CoreAgent.Reply, PyError>)
    ensures Chat(false, authorization, decode, message, chat).error.status == 503
    ensures AnalysisRoute.Start(false, authorization, decode, run).error.status == 500
  {
  }
}
