/** The `useIncidents` hook: the incident list and detail fetches. Unlike
    `useErrorGroups`, a failure outside a development build is rethrown to
    the caller. `Date.now()` and the ISO timestamp of the mocks are inputs. */
module IncidentsHook {
  import opened Wrappers
  import opened JsonValue
  import JsText

  /** What the hook's promise settles with: a value, or the rethrown error. */
  datatype Outcome = Returned(value: Json) | Threw(message: string)

  function ErrorText(message: string, fallback: string): (e: string)
    ensures message != "" ==> e == message
    ensures message == "" ==> e == fallback
  {
    if message != "" then message else fallback
  }

  /** The `i`-th mock incident: id `INC-<now>-<i>`, name `Mock Incident <i>`. */
  function MockIncident(now: nat, createdAt: string, i: nat): Json {
    JObj(map[
      "id" := JStr("INC-" + JsText.IntToString(now) + "-" + JsText.IntToString(i)),
      "name" := JStr("Mock Incident " + JsText.IntToString(i)),
      "severity" := JStr("HIGH"),
      "status" := JStr("OPEN"),
      "created_at" := JStr(createdAt)])
  }

  /** `Array(5).fill(null).map((_, i) => ...)`. */
  function MockIncidents(now: nat, createdAt: string): (m: seq<Json>)
    ensures |m| == 5 && forall i :: 0 <= i < 5 ==> m[i] == MockIncident(now, createdAt, i)
  {
    seq(5, i requires 0 <= i < 5 => MockIncident(now, createdAt, i))
  }

  /** The mock detail echoes the requested id. */
  function MockDetail(id: Json, createdAt: string): (m: Json)
    ensures m.JObj? && "id" in m.fields && "status" in m.fields
    ensures m.fields["id"] == id && m.fields["status"] == JStr("INVESTIGATING")
  {
    JObj(map[
      "id" := id,
      "name" := JStr("Mock Incident Detail"),
      "severity" := JStr("CRITICAL"),
      "status" := JStr("INVESTIGATING"),
      "created_at" := JStr(createdAt),
      "timeline" := JArr([])])
  }

  /** The five mock ids differ from one another, since `String(i)` does. */
  lemma MockIdsDistinct(now: nat, createdAt: string, i: nat, j: nat)
    requires i < 5 && j < 5 && i != j
    ensures MockIncident(now, createdAt, i) != MockIncident(now, createdAt, j)
  {
    var p := "INC-" + JsText.IntToString(now) + "-";
    assert JsText.IntToString(i) == [JsText.DigitChar(i)];
    assert JsText.IntToString(j) == [JsText.DigitChar(j)];
    var a, b := p + [JsText.DigitChar(i)], p + [JsText.DigitChar(j)];
    assert a[|a| - 1] != b[|b| - 1];
    assert MockIncident(now, createdAt, i).fields["id"] == JStr(a);
    assert MockIncident(now, createdAt, j).fields["id"] == JStr(b);
  }

  class Hook {
    const dev: bool
    var incidents: seq<Json>
    var incident: Json
    var loading: bool
    var error: Option<string>
    var inFlight: nat

    constructor (dev: bool)
      ensures this.dev == dev
      ensures incidents == [] && incident == JNull && !loading && error.None? && inFlight == 0
    {
      this.dev := dev;
      incidents := [];
      incident := JNull;
      loading := false;
      error := None;
      inFlight := 0;
    }

    /** Either fetch before its `await`. */
    method FetchStarted()
      modifies this
      ensures loading && error.None? && inFlight == old(inFlight) + 1
      ensures incidents == old(incidents) && incident == old(incident)
    {
      loading := true;
      error := None;
      inFlight := inFlight + 1;
    }

    /** `fetchIncidents` settles: the data is stored and returned; a failure
        stores and returns five mocks in development and is rethrown otherwise. */
    method IncidentsSettled(reply: Result<seq<Json>, string>, now: nat, createdAt: string)
      returns (outcome: Outcome)
      requires inFlight > 0
      modifies this
      ensures !loading && inFlight == old(inFlight) - 1 && incident == old(incident)
      ensures reply.Ok? ==>
        incidents == reply.value && outcome == Returned(JArr(reply.value)) && error == old(error)
      ensures reply.Err? ==> error == Some(ErrorText(reply.error, "Failed to fetch incidents"))
      ensures reply.Err? && dev ==>
        incidents == MockIncidents(now, createdAt) && outcome == Returned(JArr(incidents))
      ensures reply.Err? && !dev ==> incidents == old(incidents) && outcome == Threw(reply.error)
    {
      if reply.Ok? {
        incidents := reply.value;
        outcome := Returned(JArr(reply.value));
      } else {
        error := Some(ErrorText(reply.error, "Failed to fetch incidents"));
        if dev {
          incidents := MockIncidents(now, createdAt);
          outcome := Returned(JArr(incidents));
        } else {
          outcome := Threw(reply.error);
        }
      }
      loading := false;
      inFlight := inFlight - 1;
    }

    /** `fetchIncidentById(id)` settles, with the same rethrow rule. */
    method DetailSettled(id: Json, reply: Result<Json, string>, createdAt: string)
      returns (outcome: Outcome)
      requires inFlight > 0
      modifies this
      ensures !loading && inFlight == old(inFlight) - 1 && incidents == old(incidents)
      ensures reply.Ok? ==>
        incident == reply.value && outcome == Returned(reply.value) && error == old(error)
      ensures reply.Err? ==> error == Some(ErrorText(reply.error, "Failed to fetch incident details"))
      ensures reply.Err? && dev ==> incident == MockDetail(id, createdAt) && outcome == Returned(incident)
      ensures reply.Err? && !dev ==> incident == old(incident) && outcome == Threw(reply.error)
    {
      if reply.Ok? {
        incident := reply.value;
        outcome := Returned(reply.value);
      } else {
        error := Some(ErrorText(reply.error, "Failed to fetch incident details"));
        if dev {
          incident := MockDetail(id, createdAt);
          outcome := Returned(incident);
        } else {
          outcome := Threw(reply.error);
        }
      }
      loading := false;
      inFlight := inFlight - 1;
    }
  }

  /** Outside development a failed list fetch rejects with the same error,
      after recording the message and clearing the spinner. */
  method ListFailureRethrows(message: string)
    returns (outcome: Outcome, error: Option<string>, loading: bool)
    requires message != ""
    ensures outcome == Threw(message) && error == Some(message) && !loading
  {
    var h := new Hook(false);
    h.FetchStarted();
    outcome := h.IncidentsSettled(Err(message), 0, "");
    error, loading := h.error, h.loading;
  }

  /** In development a failed detail fetch resolves with a mock carrying the
      requested id. */
  method DetailFailureInDev(id: Json, createdAt: string) returns (outcome: Outcome)
    ensures outcome.Returned? && outcome.value.JObj? && "id" in outcome.value.fields
    ensures outcome.value.fields["id"] == id
  {
    var h := new Hook(true);
    h.FetchStarted();
    outcome := h.DetailSettled(id, Err(""), createdAt);
  }
}
