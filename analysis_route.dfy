/** The `/analyze` routes of the backend. The pipeline is an input `run`:
    the reply the core agent gives for a user id, or the exception it
    raises. */
module AnalysisRoute {
  import opened Wrappers
  import opened JsonValue
  import opened HttpErrors
  import BearerUser
  import CoreAgent

  const NotAvailable: string := "Analysis service not available"
  const Unavailable: HttpError := HttpError(503, Text(NotAvailable))

  /** `POST /analyze/start`. The 503 for a missing pipeline is raised inside
      the `try` whose `except Exception` re-raises everything as 500. */
  function Start(available: bool, authorization: Option<string>, decode: string -> Option<Json>,
                 run: Json -> Result<CoreAgent.Reply, PyError>): (r: Result<CoreAgent.Reply, HttpError>)
    ensures !available ==> r == Err(Rewrapped(Unavailable))
    ensures available && run(BearerUser.UserId(authorization, decode)).Ok? ==>
      r == Ok(run(BearerUser.UserId(authorization, decode)).value)
    ensures available && run(BearerUser.UserId(authorization, decode)).Err? ==>
      r == Err(HttpError(500, Raised(run(BearerUser.UserId(authorization, decode)).error)))
    ensures r.Err? ==> r.error.status == 500
  {
    if !available then Err(Rewrapped(Unavailable))
    else
      match run(BearerUser.UserId(authorization, decode))
      case Ok(reply) => Ok(reply)
      case Err(e) => Err(HttpError(500, Raised(e)))
  }

  /** A missing pipeline reaches the client as a 500 whose detail is the
      text of the 503. */
  lemma UnavailableIs500(authorization: Option<string>, decode: string -> Option<Json>,
                         run: Json -> Result<CoreAgent.Reply, PyError>)
    ensures Start(false, authorization, decode, run) == Err(HttpError(500, Text("503: " + NotAvailable)))
  {
    UnavailableBecomes500(NotAvailable);
  }

  /** `GET /analyze/status/{task_id}`: the same answer for every task. */
  function Status(taskId: string): (r: Dict)
    ensures r.Keys == {"status", "progress"}
    ensures r["status"] == JStr("completed") && r["progress"] == JNum(100.0)
  {
    map["status" := JStr("completed"), "progress" := JNum(100.0)]
  }
}
