/** The `useErrorGroups` hook: three fetches over the groups API and the state
    each writes. `dev` is the build's `import.meta.env.DEV` flag, fixed for
    the hook's lifetime. A rejected request carries the error's `message`. */
module ErrorGroupsHook {
  import opened Wrappers
  import opened JsonValue

  const MockGroups: Json := JArr([
    JObj(map["id" := JStr("GRP-1"), "name" := JStr("Database Timeout"), "severity" := JStr("CRITICAL"),
             "status" := JStr("OPEN"), "count" := JNum(150.0)]),
    JObj(map["id" := JStr("GRP-2"), "name" := JStr("UI Rendering Error"), "severity" := JStr("MEDIUM"),
             "status" := JStr("RESOLVED"), "count" := JNum(45.0)])])

  const MockPlaybook: Json := JObj(map["steps" := JArr([JStr("Restart Service"), JStr("Check Logs")])])

  /** `err.message || fallback`. */
  function ErrorText(message: string, fallback: string): (e: string)
    ensures message != "" ==> e == message
    ensures message == "" ==> e == fallback
  {
    if message != "" then message else fallback
  }

  class Hook {
    const dev: bool
    var groups: Json
    var group: Json
    var playbook: Json
    var loading: bool
    var error: Option<string>
    /** Fetches that set `loading` and have not finished. */
    var inFlight: nat

    constructor (dev: bool)
      ensures this.dev == dev
      ensures groups == JArr([]) && group == JNull && playbook == JNull
      ensures !loading && error.None? && inFlight == 0
    {
      this.dev := dev;
      groups := JArr([]);
      group := JNull;
      playbook := JNull;
      loading := false;
      error := None;
      inFlight := 0;
    }

    /** `fetchGroups` or `fetchGroupDetail` before its `await`. */
    method FetchStarted()
      modifies this
      ensures loading && error.None? && inFlight == old(inFlight) + 1
      ensures groups == old(groups) && group == old(group) && playbook == old(playbook)
    {
      loading := true;
      error := None;
      inFlight := inFlight + 1;
    }

    /** `fetchGroups` settles. A failure is not rethrown: the caller gets
        `undefined`; in a development build the two mock groups are shown. */
    method GroupsSettled(reply: Result<Json, string>) returns (returned: Option<Json>)
      requires inFlight > 0
      modifies this
      ensures !loading && inFlight == old(inFlight) - 1
      ensures reply.Ok? ==> groups == reply.value && returned == Some(reply.value) && error == old(error)
      ensures reply.Err? ==>
        returned.None? && error == Some(ErrorText(reply.error, "Failed to fetch error groups"))
      ensures reply.Err? ==> groups == (if dev then MockGroups else old(groups))
      ensures group == old(group) && playbook == old(playbook)
    {
      if reply.Ok? {
        groups := reply.value;
        returned := Some(reply.value);
      } else {
        error := Some(ErrorText(reply.error, "Failed to fetch error groups"));
        if dev {
          groups := MockGroups;
        }
        returned := None;
      }
      loading := false;
      inFlight := inFlight - 1;
    }

    /** `fetchGroupDetail` settles; a failure leaves `group` as it was. */
    method DetailSettled(reply: Result<Json, string>) returns (returned: Option<Json>)
      requires inFlight > 0
      modifies this
      ensures !loading && inFlight == old(inFlight) - 1
      ensures reply.Ok? ==> group == reply.value && returned == Some(reply.value) && error == old(error)
      ensures reply.Err? ==> returned.None? && group == old(group)
      ensures reply.Err? ==> error == Some(ErrorText(reply.error, "Failed to fetch group details"))
      ensures groups == old(groups) && playbook == old(playbook)
    {
      if reply.Ok? {
        group := reply.value;
        returned := Some(reply.value);
      } else {
        error := Some(ErrorText(reply.error, "Failed to fetch group details"));
        returned := None;
      }
      loading := false;
      inFlight := inFlight - 1;
    }

    /** `fetchPlaybook` (no state is touched before its `await`): it never
        changes `loading` or `error`. */
    method PlaybookSettled(reply: Result<Json, string>) returns (returned: Option<Json>)
      modifies this
      ensures reply.Ok? ==> playbook == reply.value && returned == Some(reply.value)
      ensures reply.Err? ==> returned.None? && playbook == (if dev then MockPlaybook else old(playbook))
      ensures loading == old(loading) && error == old(error) && inFlight == old(inFlight)
      ensures groups == old(groups) && group == old(group)
    {
      if reply.Ok? {
        playbook := reply.value;
        returned := Some(reply.value);
      } else {
        if dev {
          playbook := MockPlaybook;
        }
        returned := None;
      }
    }
  }

  /** A failed `fetchGroups` in a development build: exactly the two mock
      groups, the error text (defaulted when the message is empty), no
      spinner, and `undefined` for the caller. */
  method GroupsFailureInDev(message: string)
    returns (groups: Json, error: Option<string>, loading: bool, returned: Option<Json>)
    ensures groups == MockGroups && |groups.items| == 2
    ensures error == Some(if message == "" then "Failed to fetch error groups" else message)
    ensures !loading && returned.None?
  {
    var h := new Hook(true);
    h.FetchStarted();
    returned := h.GroupsSettled(Err(message));
    groups, error, loading := h.groups, h.error, h.loading;
  }

  /** Outside development a failure keeps the groups already shown. */
  method GroupsFailureInProduction(shown: Json, message: string)
    returns (groups: Json, error: Option<string>, loading: bool)
    ensures groups == shown && error.Some? && !loading
  {
    var h := new Hook(false);
    h.FetchStarted();
    var r := h.GroupsSettled(Ok(shown));
    h.FetchStarted();
    r := h.GroupsSettled(Err(message));
    groups, error, loading := h.groups, h.error, h.loading;
  }

  /** A later fetch clears the previous error before its request goes out. */
  method RetryClearsError(message: string) returns (errorWhileRetrying: Option<string>, loading: bool)
    ensures errorWhileRetrying.None? && loading
  {
    var h := new Hook(false);
    h.FetchStarted();
    var r := h.DetailSettled(Err(message));
    h.FetchStarted();
    errorWhileRetrying, loading := h.error, h.loading;
  }
}
