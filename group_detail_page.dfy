/** The error-group detail page. For a truthy route id it fetches the group,
    then that group's incidents; an action from the control panel edits the
    shown group or leaves the page. Each request's reply is an event. */
module GroupDetailPage {
  import opened Wrappers
  import opened JsonValue
  import opened Toasts
  import ActionControlPanel

  const LoadError: string := "Failed to load group details. Please ensure the backend is running."

  const IncidentsLimit: int := 20

  datatype Request = Detail(id: Json) | IncidentsOf(groupId: Json, limit: int)

  /** Which reply the fetch sequence is waiting for. */
  datatype Stage = Idle | AwaitingDetail(id: Json) | AwaitingIncidents(id: Json)

  datatype View = Spinner | ErrorView(message: string) | Content

  /** `{ ...prev, status: 'RESOLVED' }`: an object keeps its other fields;
      spreading `null`, a number or a boolean gives the status alone. A text
      or a list would also lend its index keys, which the model leaves out:
      the group shown is always an object or `null`. */
  function Resolved(prev: Json): (g: Json)
    ensures g.JObj? && "status" in g.fields && g.fields["status"] == JStr("RESOLVED")
    ensures prev.JObj? ==> g.fields.Keys == prev.fields.Keys + {"status"}
    ensures prev.JObj? ==> forall k :: k in prev.fields && k != "status" ==> g.fields[k] == prev.fields[k]
  {
    match prev
    case JObj(f) => JObj(f["status" := JStr("RESOLVED")])
    case _ => JObj(map["status" := JStr("RESOLVED")])
  }

  class Page {
    var loading: bool
    var group: Json
    var incidents: Json
    var error: Option<string>
    var stage: Stage
    var toasts: seq<Toast>
    var navigations: seq<string>

    constructor ()
      ensures loading && group == JNull && incidents == JArr([]) && error.None?
      ensures stage == Idle && toasts == [] && navigations == []
    {
      loading := true;
      group := JNull;
      incidents := JArr([]);
      error := None;
      stage := Idle;
      toasts := [];
      navigations := [];
    }

    /** The effect for route id `id` (undefined is `None`): nothing is
        fetched for a falsy id, and the spinner then stays up. */
    method RouteEntered(id: Option<Json>) returns (request: Option<Request>)
      modifies this
      ensures !JsTruthy(id) ==> request.None? && loading == old(loading) && stage == old(stage)
      ensures JsTruthy(id) ==> request == Some(Detail(id.value)) && loading && stage == AwaitingDetail(id.value)
      ensures group == old(group) && incidents == old(incidents) && error == old(error)
      ensures toasts == old(toasts) && navigations == old(navigations)
    {
      if JsTruthy(id) {
        loading := true;
        stage := AwaitingDetail(id.value);
        request := Some(Detail(id.value));
      } else {
        request := None;
      }
    }

    /** The group reply: success stores it and asks for its incidents. */
    method DetailSettled(reply: Result<Json, string>) returns (request: Option<Request>)
      requires stage.AwaitingDetail?
      modifies this
      ensures reply.Ok? ==> group == reply.value && loading == old(loading) && error == old(error)
      ensures reply.Ok? ==>
        request == Some(IncidentsOf(old(stage).id, IncidentsLimit)) && stage == AwaitingIncidents(old(stage).id)
      ensures reply.Err? ==> group == old(group) && error == Some(LoadError) && !loading
      ensures reply.Err? ==> request.None? && stage == Idle
      ensures incidents == old(incidents) && toasts == old(toasts) && navigations == old(navigations)
    {
      if reply.Ok? {
        group := reply.value;
        request := Some(IncidentsOf(stage.id, IncidentsLimit));
        stage := AwaitingIncidents(stage.id);
      } else {
        error := Some(LoadError);
        loading := false;
        request := None;
        stage := Idle;
      }
    }

    /** The incidents reply; either way the spinner goes. */
    method IncidentsSettled(reply: Result<Json, string>)
      requires stage.AwaitingIncidents?
      modifies this
      ensures reply.Ok? ==> incidents == reply.value && error == old(error)
      ensures reply.Err? ==> incidents == old(incidents) && error == Some(LoadError)
      ensures !loading && stage == Idle && group == old(group)
      ensures toasts == old(toasts) && navigations == old(navigations)
    {
      if reply.Ok? {
        incidents := reply.value;
      } else {
        error := Some(LoadError);
      }
      loading := false;
      stage := Idle;
    }

    /** `handleAction`, called by the control panel. */
    method HandleAction(actionType: string)
      modifies this
      ensures actionType == "rollback" ==> group == Resolved(old(group)) && navigations == old(navigations)
      ensures actionType == "rollback" ==>
        toasts == old(toasts) + [Toast("Rollback initiated successfully. Monitoring stability...", Success)]
      ensures actionType == "fix" ==> group == old(group) && navigations == old(navigations)
      ensures actionType == "fix" ==> toasts == old(toasts) + [Toast("Applied recommended remediation logic.", Info)]
      ensures actionType == "ignore" ==> group == old(group) && navigations == old(navigations) + ["/incidents"]
      ensures actionType == "ignore" ==>
        toasts == old(toasts) + [Toast("Marked as false positive. Learning updated.", Warning)]
      ensures actionType !in {"rollback", "fix", "ignore"} ==>
        group == old(group) && navigations == old(navigations) && toasts == old(toasts)
      ensures loading == old(loading) && incidents == old(incidents) && error == old(error) && stage == old(stage)
    {
      if actionType == "rollback" {
        toasts := toasts + [Toast("Rollback initiated successfully. Monitoring stability...", Success)];
        group := Resolved(group);
      } else if actionType == "fix" {
        toasts := toasts + [Toast("Applied recommended remediation logic.", Info)];
      } else if actionType == "ignore" {
        toasts := toasts + [Toast("Marked as false positive. Learning updated.", Warning)];
        navigations := navigations + ["/incidents"];
      }
    }

    /** Loading wins over an error, and an error over the content. */
    function View(): (v: View)
      reads this
      ensures loading ==> v == Spinner
      ensures !loading && error.Some? && error.value != "" ==> v == ErrorView(error.value)
      ensures v == Content <==> !loading && (error.None? || error.value == "")
    {
      if loading then Spinner
      else if error.Some? && error.value != "" then ErrorView(error.value)
      else Content
    }
  }

  /** The group arrives but its incidents fail: the group is kept and the
      error view is shown over it. */
  method GroupThenIncidentsFail(id: Json, g: Json, why: string) returns (group: Json, view: View, requests: seq<Request>)
    requires JsTruthy(Some(id))
    ensures group == g && view == ErrorView(LoadError)
    ensures requests == [Detail(id), IncidentsOf(id, 20)]
  {
    var p := new Page();
    var r1 := p.RouteEntered(Some(id));
    var r2 := p.DetailSettled(Ok(g));
    p.IncidentsSettled(Err(why));
    group, view := p.group, p.View();
    requests := [r1.value, r2.value];
  }

  /** Without a route id nothing is requested and the spinner never leaves. */
  method NoIdSpinsForever() returns (request: Option<Request>, view: View)
    ensures request.None? && view == Spinner
  {
    var p := new Page();
    request := p.RouteEntered(None);
    view := p.View();
  }

  /** Rollback on a loaded group marks it resolved and keeps the rest. */
  method RollbackKeepsFields(id: Json, g: map<string, Json>, list: Json) returns (group: Json)
    requires JsTruthy(Some(id))
    ensures group.JObj? && "status" in group.fields && group.fields["status"] == JStr("RESOLVED")
    ensures forall k :: k in g && k != "status" ==> k in group.fields && group.fields[k] == g[k]
  {
    var p := new Page();
    var r := p.RouteEntered(Some(id));
    r := p.DetailSettled(Ok(JObj(g)));
    p.IncidentsSettled(Ok(list));
    p.HandleAction("rollback");
    group := p.group;
  }

  /** The only control the panel renders reports `ignore`, so the page's
      sole reachable reaction is to leave for the incident list. */
  method PanelClickLeavesPage(id: Json, g: Json) returns (navigations: seq<string>, group: Json)
    requires JsTruthy(Some(id))
    ensures navigations == ["/incidents"] && group == g
  {
    var page := new Page();
    var r := page.RouteEntered(Some(id));
    r := page.DetailSettled(Ok(g));
    var panel := new ActionControlPanel.Panel();
    panel.ClickMarkFalsePositive();
    var action := panel.TimerFired(0);
    page.HandleAction(action);
    navigations, group := page.navigations, page.group;
  }
}
