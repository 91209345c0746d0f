/** The alert-rule (automation policy) page (`AlertRulesPage`): the rule list,
    its load, the optimistic enable/disable toggle, delete, and the editor
    modal with save. Rules are decoded JSON objects. Each `await` splits a
    handler into a "started" and a "settled" event; replies are inputs. */
module AlertRulesPage {
  import opened Wrappers
  import opened JsonValue
  import opened Toasts

  type Rule = Dict

  /** `r.id`, `undefined` when absent. */
  function Id(r: Rule): Option<Json> {
    if "id" in r then Some(r["id"]) else None
  }

  /** The truthiness of `r.enabled`. */
  predicate Enabled(r: Rule) {
    JsTruthy(if "enabled" in r then Some(r["enabled"]) else None)
  }

  /** `{ ...r, enabled: !r.enabled }`. */
  function Flipped(r: Rule): (f: Rule)
    ensures Enabled(f) == !Enabled(r) && Id(f) == Id(r)
    ensures forall k :: k in r && k != "enabled" ==> k in f && f[k] == r[k]
    ensures f.Keys == r.Keys + {"enabled"}
  {
    r["enabled" := JBool(!Enabled(r))]
  }

  /** `rules.map(r => r.id === rule.id ? { ...r, enabled: !r.enabled } : r)`. */
  function FlipEnabled(rules: seq<Rule>, id: Option<Json>): (r: seq<Rule>)
    ensures |r| == |rules|
    ensures forall i :: 0 <= i < |r| ==>
      r[i] == (if Id(rules[i]) == id then Flipped(rules[i]) else rules[i])
  {
    seq(|rules|, i requires 0 <= i < |rules| =>
      if Id(rules[i]) == id then Flipped(rules[i]) else rules[i])
  }

  function Ids(rules: seq<Rule>): (ids: seq<Option<Json>>)
    ensures |ids| == |rules| && forall i :: 0 <= i < |rules| ==> ids[i] == Id(rules[i])
  {
    seq(|rules|, i requires 0 <= i < |rules| => Id(rules[i]))
  }

  /** The toggle keeps the list's length, order and ids; only the matching
      rules change, and for them only `enabled`, which is negated. */
  lemma FlipKeepsIdsAndOrder(rules: seq<Rule>, id: Option<Json>)
    ensures Ids(FlipEnabled(rules, id)) == Ids(rules)
    ensures forall i :: 0 <= i < |rules| ==>
      Enabled(FlipEnabled(rules, id)[i]) == (if Id(rules[i]) == id then !Enabled(rules[i]) else Enabled(rules[i]))
  {
  }

  /** Toggling twice restores a list whose matching rules hold booleans. */
  lemma FlipTwiceRestores(rules: seq<Rule>, id: Option<Json>)
    requires forall i :: 0 <= i < |rules| && Id(rules[i]) == id ==>
      "enabled" in rules[i] && rules[i]["enabled"].JBool?
    ensures FlipEnabled(FlipEnabled(rules, id), id) == rules
  {
    var twice := FlipEnabled(FlipEnabled(rules, id), id);
    forall i | 0 <= i < |rules|
      ensures twice[i] == rules[i]
    {
      if Id(rules[i]) == id {
        assert Flipped(Flipped(rules[i])) == rules[i];
      }
    }
  }

  /** `rules.filter(r => r.id !== id)`. */
  function RemoveId(rules: seq<Rule>, id: Option<Json>): (r: seq<Rule>)
    ensures |r| <= |rules|
    ensures forall x :: x in r ==> x in rules && Id(x) != id
    ensures forall x :: x in rules && Id(x) != id ==> x in r
  {
    if rules == [] then []
    else (if Id(rules[0]) != id then [rules[0]] else []) + RemoveId(rules[1..], id)
  }

  /** The surviving rules keep their order: removal commutes with taking a
      prefix, so the result is an order-preserving subsequence. */
  lemma {:induction false} RemoveIdKeepsOrder(rules: seq<Rule>, more: seq<Rule>, id: Option<Json>)
    ensures RemoveId(rules + more, id) == RemoveId(rules, id) + RemoveId(more, id)
  {
    if rules != [] {
      assert (rules + more)[1..] == rules[1..] + more;
      RemoveIdKeepsOrder(rules[1..], more, id);
    } else {
      assert rules + more == more;
    }
  }

  /** Removing twice is removing once. */
  lemma {:induction false} RemoveIdIdempotent(rules: seq<Rule>, id: Option<Json>)
    ensures RemoveId(RemoveId(rules, id), id) == RemoveId(rules, id)
  {
    if rules != [] {
      RemoveIdIdempotent(rules[1..], id);
      if Id(rules[0]) != id {
        assert RemoveId(rules, id) == [rules[0]] + RemoveId(rules[1..], id);
        assert RemoveId(rules, id)[1..] == RemoveId(rules[1..], id);
      } else {
        assert [] + RemoveId(rules[1..], id) == RemoveId(rules[1..], id);
        assert RemoveId(rules, id) == RemoveId(rules[1..], id);
      }
    }
  }

  /** The rule name as the toast template prints it: a missing name prints
      "undefined". A number or a list, which the editor never stores as a
      name, prints as "" here. */
  function NameText(r: Rule): (t: string)
    ensures "name" !in r ==> t == "undefined"
    ensures "name" in r && r["name"].JStr? ==> t == r["name"].s
    ensures "name" in r && r["name"] == JNull ==> t == "null"
  {
    if "name" !in r then "undefined"
    else match r["name"]
      case JStr(s) => s
      case JNull => "null"
      case JBool(b) => if b then "true" else "false"
      case JObj(_) => "[object Object]"
      case _ => ""
  }

  function ToggleToast(r: Rule): (t: Toast)
    ensures t.kind == Info
    ensures t.message == "Policy '" + NameText(r) + "' " + (if Enabled(r) then "paused" else "activated")
  {
    Toast("Policy '" + NameText(r) + "' " + (if Enabled(r) then "paused" else "activated"), Info)
  }

  const ToggleFailedToast: Toast := Toast("Failed to update policy status", Error)
  const DeletedToast: Toast := Toast("Alert rule deleted successfully", Info)
  const DeleteFailedToast: Toast := Toast("Failed to delete alert rule", Error)
  const UpdatedToast: Toast := Toast("Policy configuration updated", Success)
  const CreatedToast: Toast := Toast("New automation policy defined", Success)
  const SaveFailedToast: Toast := Toast("Failed to save policy", Error)

  /** The request a handler sends to the alert-rule API. */
  datatype Request = List | Update(id: Option<Json>, body: Dict) | Create(body: Dict) | Delete(id: Option<Json>)

  class Page {
    var rules: seq<Rule>
    var loading: bool
    var isEditorOpen: bool
    var editingRule: Option<Rule>
    var isSaving: bool
    var toasts: seq<Toast>
    /** `fetchRules` calls still waiting for their list. */
    var fetchesInFlight: nat
    /** Toggles waiting for their update, with the rule each was called with. */
    var togglesInFlight: seq<Rule>
    /** The save waiting for its write, with the request it sent. */
    var saveInFlight: Option<Request>
    /** Deletes waiting for their call, each with its id and the list the
        click handler closed over. */
    var deletesInFlight: seq<(Option<Json>, seq<Rule>)>

    /** Mounting calls `fetchRules` once. */
    constructor ()
      ensures rules == [] && loading && !isEditorOpen && editingRule.None? && !isSaving
      ensures toasts == [] && fetchesInFlight == 1 && togglesInFlight == [] && saveInFlight.None?
      ensures deletesInFlight == []
    {
      rules := [];
      loading := true;
      isEditorOpen := false;
      editingRule := None;
      isSaving := false;
      toasts := [];
      fetchesInFlight := 1;
      togglesInFlight := [];
      saveInFlight := None;
      deletesInFlight := [];
    }

    /** A `fetchRules` list reply: the list on success, [] on failure, and
        loading cleared either way. */
    method RulesArrived(reply: Result<seq<Rule>, string>)
      requires fetchesInFlight > 0
      modifies this
      ensures rules == (if reply.Ok? then reply.value else []) && !loading
      ensures fetchesInFlight == old(fetchesInFlight) - 1
      ensures isEditorOpen == old(isEditorOpen) && editingRule == old(editingRule)
      ensures isSaving == old(isSaving) && toasts == old(toasts)
      ensures togglesInFlight == old(togglesInFlight) && saveInFlight == old(saveInFlight)
      ensures deletesInFlight == old(deletesInFlight)
    {
      rules := if reply.Ok? then reply.value else [];
      loading := false;
      fetchesInFlight := fetchesInFlight - 1;
    }

    /** `handleCreate`. */
    method OpenCreate()
      modifies this
      ensures editingRule.None? && isEditorOpen
      ensures rules == old(rules) && loading == old(loading) && isSaving == old(isSaving)
      ensures toasts == old(toasts) && fetchesInFlight == old(fetchesInFlight)
      ensures togglesInFlight == old(togglesInFlight) && saveInFlight == old(saveInFlight)
      ensures deletesInFlight == old(deletesInFlight)
    {
      editingRule := None;
      isEditorOpen := true;
    }

    /** `handleEdit`. */
    method OpenEdit(rule: Rule)
      modifies this
      ensures editingRule == Some(rule) && isEditorOpen
      ensures rules == old(rules) && loading == old(loading) && isSaving == old(isSaving)
      ensures toasts == old(toasts) && fetchesInFlight == old(fetchesInFlight)
      ensures togglesInFlight == old(togglesInFlight) && saveInFlight == old(saveInFlight)
      ensures deletesInFlight == old(deletesInFlight)
    {
      editingRule := Some(rule);
      isEditorOpen := true;
    }

    /** The backdrop or the editor's Cancel. */
    method CloseEditor()
      modifies this
      ensures !isEditorOpen
      ensures rules == old(rules) && loading == old(loading) && isSaving == old(isSaving)
      ensures editingRule == old(editingRule) && toasts == old(toasts)
      ensures fetchesInFlight == old(fetchesInFlight)
      ensures togglesInFlight == old(togglesInFlight) && saveInFlight == old(saveInFlight)
      ensures deletesInFlight == old(deletesInFlight)
    {
      isEditorOpen := false;
    }

    /** `handleToggle` up to its `await`: the flip is applied locally first,
        then the update is sent with the rule's own `enabled` negated. */
    method ToggleStarted(rule: Rule) returns (request: Request)
      modifies this
      ensures rules == FlipEnabled(old(rules), Id(rule))
      ensures request == Update(Id(rule), Flipped(rule))
      ensures togglesInFlight == old(togglesInFlight) + [rule]
      ensures loading == old(loading) && isEditorOpen == old(isEditorOpen)
      ensures editingRule == old(editingRule) && isSaving == old(isSaving)
      ensures toasts == old(toasts) && fetchesInFlight == old(fetchesInFlight)
      ensures saveInFlight == old(saveInFlight) && deletesInFlight == old(deletesInFlight)
    {
      rules := FlipEnabled(rules, Id(rule));
      request := Update(Id(rule), Flipped(rule));
      togglesInFlight := togglesInFlight + [rule];
    }

    /** The `i`-th pending toggle's update settles. Success only reports;
        failure restores nothing: it starts a refetch (not awaited, so
        loading is on again) and reports the error. */
    method ToggleSettled(i: nat, ok: bool) returns (refetch: Option<Request>)
      requires i < |togglesInFlight|
      modifies this
      ensures var rule := old(togglesInFlight[i]);
        && togglesInFlight == old(togglesInFlight[..i] + togglesInFlight[i + 1..])
        && (ok ==> toasts == old(toasts) + [ToggleToast(rule)] && refetch.None?
                   && loading == old(loading) && fetchesInFlight == old(fetchesInFlight))
        && (!ok ==> toasts == old(toasts) + [ToggleFailedToast] && refetch == Some(List)
                    && loading && fetchesInFlight == old(fetchesInFlight) + 1)
      ensures rules == old(rules) && isEditorOpen == old(isEditorOpen)
      ensures editingRule == old(editingRule) && isSaving == old(isSaving)
      ensures saveInFlight == old(saveInFlight) && deletesInFlight == old(deletesInFlight)
    {
      var rule := togglesInFlight[i];
      togglesInFlight := togglesInFlight[..i] + togglesInFlight[i + 1..];
      if ok {
        toasts := toasts + [ToggleToast(rule)];
        refetch := None;
      } else {
        loading := true;
        fetchesInFlight := fetchesInFlight + 1;
        refetch := Some(List);
        toasts := toasts + [ToggleFailedToast];
      }
    }

    /** `handleDelete` up to its `await`: the call is sent, and the handler
        keeps the list as it stood at the click. */
    method DeleteStarted(id: Option<Json>) returns (request: Request)
      modifies this
      ensures request == Delete(id)
      ensures deletesInFlight == old(deletesInFlight) + [(id, old(rules))]
      ensures rules == old(rules) && loading == old(loading) && isEditorOpen == old(isEditorOpen)
      ensures editingRule == old(editingRule) && isSaving == old(isSaving)
      ensures toasts == old(toasts) && fetchesInFlight == old(fetchesInFlight)
      ensures togglesInFlight == old(togglesInFlight) && saveInFlight == old(saveInFlight)
    {
      request := Delete(id);
      deletesInFlight := deletesInFlight + [(id, rules)];
    }

    /** The `i`-th pending delete settles: a success sets the list to the
        click-time list without that id, overwriting whatever changed the
        list meanwhile; a failure only reports. */
    method DeleteSettled(i: nat, ok: bool)
      requires i < |deletesInFlight|
      modifies this
      ensures var (id, captured) := old(deletesInFlight[i]);
        && deletesInFlight == old(deletesInFlight[..i] + deletesInFlight[i + 1..])
        && (ok ==> rules == RemoveId(captured, id) && toasts == old(toasts) + [DeletedToast])
        && (!ok ==> rules == old(rules) && toasts == old(toasts) + [DeleteFailedToast])
      ensures loading == old(loading) && isEditorOpen == old(isEditorOpen)
      ensures editingRule == old(editingRule) && isSaving == old(isSaving)
      ensures fetchesInFlight == old(fetchesInFlight)
      ensures togglesInFlight == old(togglesInFlight) && saveInFlight == old(saveInFlight)
    {
      var (id, captured) := deletesInFlight[i];
      deletesInFlight := deletesInFlight[..i] + deletesInFlight[i + 1..];
      if ok {
        rules := RemoveId(captured, id);
        toasts := toasts + [DeletedToast];
      } else {
        toasts := toasts + [DeleteFailedToast];
      }
    }

    /** `handleSave` up to its first `await`: update when a rule is being
        edited, create otherwise. While a save is in flight the editor's
        submit button is disabled, so the click sends nothing (`None`) and
        changes nothing. */
    method SaveStarted(form: Dict) returns (request: Option<Request>)
      modifies this
      ensures old(isSaving) ==> request.None? && saveInFlight == old(saveInFlight)
      ensures !old(isSaving) ==> request.Some? && saveInFlight == request
      ensures !old(isSaving) && editingRule.Some? ==> request == Some(Update(Id(editingRule.value), form))
      ensures !old(isSaving) && editingRule.None? ==> request == Some(Create(form))
      ensures isSaving
      ensures rules == old(rules) && loading == old(loading) && isEditorOpen == old(isEditorOpen)
      ensures editingRule == old(editingRule) && toasts == old(toasts)
      ensures fetchesInFlight == old(fetchesInFlight) && togglesInFlight == old(togglesInFlight)
      ensures deletesInFlight == old(deletesInFlight)
    {
      if isSaving {
        request := None;
        return;
      }
      isSaving := true;
      request := Some(if editingRule.Some? then Update(Id(editingRule.value), form) else Create(form));
      saveInFlight := request;
    }

    /** The save's write settles. On success `fetchRules` is awaited (its
        reply is `refetch`), the editor closes and success is reported; on
        failure only the error is reported. `isSaving` is cleared either way. */
    method SaveSettled(ok: bool, refetch: Result<seq<Rule>, string>)
      requires saveInFlight.Some?
      modifies this
      ensures !isSaving && saveInFlight.None?
      ensures ok ==> (rules == (if refetch.Ok? then refetch.value else []) && !loading
        && !isEditorOpen
        && toasts == old(toasts) + [if old(saveInFlight.value).Update? then UpdatedToast else CreatedToast])
      ensures !ok ==> (rules == old(rules) && loading == old(loading)
        && isEditorOpen == old(isEditorOpen) && toasts == old(toasts) + [SaveFailedToast])
      ensures editingRule == old(editingRule) && fetchesInFlight == old(fetchesInFlight)
      ensures togglesInFlight == old(togglesInFlight) && deletesInFlight == old(deletesInFlight)
    {
      if ok {
        rules := if refetch.Ok? then refetch.value else [];
        loading := false;
        toasts := toasts + [if saveInFlight.value.Update? then UpdatedToast else CreatedToast];
        isEditorOpen := false;
      } else {
        toasts := toasts + [SaveFailedToast];
      }
      isSaving := false;
      saveInFlight := None;
    }
  }

  /** A failed toggle is not rolled back to a snapshot: the list ends up as
      whatever the refetch returns, and as [] if that fails too. */
  method ToggleFailureOutcome(initial: seq<Rule>, rule: Rule, refetched: Result<seq<Rule>, string>)
    returns (afterFlip: seq<Rule>, settled: seq<Rule>, lastToast: Toast)
    ensures afterFlip == FlipEnabled(initial, Id(rule))
    ensures settled == (if refetched.Ok? then refetched.value else [])
    ensures lastToast == Toast("Failed to update policy status", Error)
  {
    var p := new Page();
    p.RulesArrived(Ok(initial));
    var request := p.ToggleStarted(rule);
    afterFlip := p.rules;
    var refetch := p.ToggleSettled(0, false);
    lastToast := p.toasts[|p.toasts| - 1];
    p.RulesArrived(refetched);
    settled := p.rules;
  }

  /** Delete is not optimistic: a failed delete leaves the list as it was. */
  method DeleteFailureOutcome(initial: seq<Rule>, id: Option<Json>)
    returns (settled: seq<Rule>, toast: Toast)
    ensures settled == initial
    ensures toast == Toast("Failed to delete alert rule", Error)
  {
    var p := new Page();
    p.RulesArrived(Ok(initial));
    var request := p.DeleteStarted(id);
    p.DeleteSettled(0, false);
    settled := p.rules;
    toast := p.toasts[0];
  }

  /** A failed save keeps the editor open (with the rule still selected). */
  method SaveFailureKeepsEditor(rule: Rule, form: Dict)
    returns (request: Option<Request>, editorOpen: bool, saving: bool)
    ensures request == Some(Update(Id(rule), form))
    ensures editorOpen && !saving
  {
    var p := new Page();
    p.OpenEdit(rule);
    request := p.SaveStarted(form);
    p.SaveSettled(false, Err("unreachable"));
    editorOpen := p.isEditorOpen;
    saving := p.isSaving;
  }

  /** A second click on save while the first is in flight sends nothing:
      only the first request is sent, and it is the one that settles. */
  method DoubleSaveSendsOnce(form: Dict, again: Dict)
    returns (first: Option<Request>, second: Option<Request>, toast: Toast)
    ensures first == Some(Create(form)) && second.None?
    ensures toast == CreatedToast
  {
    var p := new Page();
    p.OpenCreate();
    first := p.SaveStarted(form);
    second := p.SaveStarted(again);
    p.SaveSettled(true, Ok([]));
    toast := p.toasts[|p.toasts| - 1];
  }

  /** A delete that succeeds after a toggle of another rule was applied puts
      back the click-time list: the toggled rule shows its old `enabled`
      again, while the update request has flipped it on the server. */
  method DeleteUndoesToggle(a: Rule, b: Rule)
    returns (toggled: seq<Rule>, request: Request, settled: seq<Rule>)
    requires Id(a) != Id(b)
    ensures toggled == [a, Flipped(b)]
    ensures request == Update(Id(b), Flipped(b))
    ensures settled == [b] && Enabled(settled[0]) != Enabled(toggled[1])
  {
    var p := new Page();
    p.RulesArrived(Ok([a, b]));
    var deletion := p.DeleteStarted(Id(a));
    request := p.ToggleStarted(b);
    toggled := p.rules;
    assert toggled[0] == a && toggled[1] == Flipped(b);
    p.DeleteSettled(0, true);
    settled := p.rules;
    assert RemoveId([b], Id(a)) == [b] + RemoveId([], Id(a));
  }
}
