/** The automation-policy card: values derived from one alert rule for
    display, and the confirmation that guards its delete button. A rule is a
    JavaScript object; a missing property is `None`. */
module AutomationPolicyCard {
  import opened Wrappers
  import opened JsonValue
  import JsText

  type Rule = Dict

  function Field(rule: Rule, k: string): (v: Option<Json>)
    ensures v.Some? <==> k in rule
  {
    JsProp(Some(JObj(rule)), k)
  }

  datatype Scope = Global | Infrastructure | Service

  /** Strict comparison of `rule.severity` with the two named levels. */
  function ScopeOf(rule: Rule): (s: Scope)
    ensures s == Global <==> Field(rule, "severity") == Some(JStr("CRITICAL"))
    ensures s == Infrastructure <==> Field(rule, "severity") == Some(JStr("HIGH"))
  {
    var sev := Field(rule, "severity");
    if sev == Some(JStr("CRITICAL")) then Global
    else if sev == Some(JStr("HIGH")) then Infrastructure
    else Service
  }

  /** The colour of the severity text uses the same two comparisons. */
  datatype SeverityColour = AlertRed | Orange | SuccessGreen

  function SeverityColourOf(rule: Rule): (c: SeverityColour)
    ensures c == AlertRed <==> ScopeOf(rule) == Global
    ensures c == Orange <==> ScopeOf(rule) == Infrastructure
  {
    var sev := Field(rule, "severity");
    if sev == Some(JStr("CRITICAL")) then AlertRed
    else if sev == Some(JStr("HIGH")) then Orange
    else SuccessGreen
  }

  /** `String(v)` for the values an id can hold: a string as it is, a whole
      number below 10^21 in size in decimal, a boolean or null by name, an
      object as `[object Object]`, a list as its items' texts joined with
      commas. A fraction and a number from 10^21 up print with the double's
      shortest digits, which are not modelled: they get no text (`None`). */
  function StringOf(v: Json): (t: Option<string>)
    decreases v, 1
    ensures v.JStr? ==> t == Some(v.s)
    ensures v.JNum? ==> (t.Some? <==> v.n == v.n.Floor as real && -JsText.ExponentFrom < v.n < JsText.ExponentFrom)
    ensures v.JNum? && t.Some? ==> t == Some(JsText.IntToString(v.n.Floor))
    ensures v.JBool? ==> t == Some(if v.b then "true" else "false")
    ensures v.JNull? ==> t == Some("null")
    ensures v.JObj? ==> t == Some("[object Object]")
    ensures v.JArr? ==> t == JoinTexts(v.items)
  {
    match v
    case JStr(s) => Some(s)
    case JNum(n) =>
      if n == n.Floor as real && -JsText.ExponentFrom < n < JsText.ExponentFrom then Some(JsText.IntToString(n.Floor))
      else None
    case JBool(b) => Some(if b then "true" else "false")
    case JNull => Some("null")
    case JObj(_) => Some("[object Object]")
    case JArr(items) => JoinTexts(items)
  }

  /** `items.join(',')`: each item's text, `null` as the empty text, with a
      comma between neighbours; no text if some item has none. */
  function JoinTexts(items: seq<Json>): (t: Option<string>)
    decreases items, 0
    ensures items == [] ==> t == Some("")
    ensures t.Some? ==> forall i :: 0 <= i < |items| ==> ItemText(items[i]).Some?
  {
    if items == [] then Some("")
    else
      var first := ItemText(items[0]);
      if first.None? then None
      else if |items| == 1 then first
      else
        var rest := JoinTexts(items[1..]);
        if rest.None? then None
        else
          assert forall i :: 1 <= i < |items| ==> items[i] == items[1..][i - 1];
          Some(first.value + "," + rest.value)
  }

  /** The text of one item of a joined list. */
  function ItemText(item: Json): (t: Option<string>)
    decreases item, 2
    ensures item.JNull? ==> t == Some("")
    ensures !item.JNull? ==> t == StringOf(item)
  {
    if item.JNull? then Some("") else StringOf(item)
  }

  /** A one-item list prints as its item, and `null` inside it as nothing. */
  lemma OneItemListText(item: Json)
    ensures StringOf(JArr([item])) == (if item.JNull? then Some("") else StringOf(item))
  {
  }

  /** `String(rule.id || 0).slice(-3).padStart(3, '0')`: the last three
      characters of the id's text, left-padded with zeros to three. */
  function Badge(rule: Rule): (b: Option<string>)
    ensures b.Some? <==> StringOf(JsOr(Field(rule, "id"), JNum(0.0))).Some?
    ensures b.Some? ==> |b.value| == 3
    ensures b.Some? ==>
      var t := StringOf(JsOr(Field(rule, "id"), JNum(0.0))).value;
      var k := if |t| < 3 then |t| else 3;
      && b.value[3 - k..] == t[|t| - k..]
      && forall i :: 0 <= i < 3 - k ==> b.value[i] == '0'
  {
    match StringOf(JsOr(Field(rule, "id"), JNum(0.0)))
    case Some(t) => Some(JsText.PadStart(JsText.LastChars(t, 3), 3, '0'))
    case None => None
  }

  /** A missing or falsy id shows `000`. */
  lemma FalsyIdBadge(rule: Rule)
    requires !JsTruthy(Field(rule, "id"))
    ensures Badge(rule) == Some("000")
  {
    assert JsOr(Field(rule, "id"), JNum(0.0)) == JNum(0.0);
    assert (0.0).Floor == 0;
    assert JsText.IntToString(0) == "0";
    assert StringOf(JNum(0.0)) == Some("0");
    assert JsText.LastChars("0", 3) == "0";
    assert JsText.Repeat('0', 2) == "00";
    assert JsText.PadStart("0", 3, '0') == "000";
  }

  /** A string id of at least three characters shows its last three. */
  lemma LongStringIdBadge(rule: Rule, id: string)
    requires Field(rule, "id") == Some(JStr(id)) && |id| >= 3
    ensures Badge(rule) == Some(id[|id| - 3..])
  {
    var last := JsText.LastChars(id, 3);
    assert |last| == 3 && last == id[|id| - 3..];
    assert JsText.PadStart(last, 3, '0') == last;
  }

  /** A shorter non-empty string id is left-padded with zeros. */
  lemma ShortStringIdBadge(rule: Rule, id: string)
    requires Field(rule, "id") == Some(JStr(id)) && 0 < |id| < 3
    ensures Badge(rule).Some?
    ensures Badge(rule).value == JsText.Repeat('0', 3 - |id|) + id
  {
  }

  /** Numeric id 7 shows `007`. */
  lemma NumericIdBadge(rule: Rule)
    requires Field(rule, "id") == Some(JNum(7.0))
    ensures Badge(rule) == Some("007")
  {
    assert JsOr(Field(rule, "id"), JNum(0.0)) == JNum(7.0);
    assert (7.0).Floor == 7;
    assert JsText.IntToString(7) == "7";
    assert StringOf(JNum(7.0)) == Some("7");
    assert JsText.LastChars("7", 3) == "7";
    assert JsText.Repeat('0', 2) == "00";
    assert JsText.PadStart("7", 3, '0') == "007";
  }

  /** A list id `[7]` prints as "7" and shows `007`. */
  lemma ListIdBadge(rule: Rule)
    requires Field(rule, "id") == Some(JArr([JNum(7.0)]))
    ensures Badge(rule) == Some("007")
  {
    assert JsOr(Field(rule, "id"), JNum(0.0)) == JArr([JNum(7.0)]);
    assert (7.0).Floor == 7;
    assert JsText.IntToString(7) == "7";
    OneItemListText(JNum(7.0));
    assert StringOf(JArr([JNum(7.0)])) == Some("7");
    assert JsText.LastChars("7", 3) == "7";
    assert JsText.Repeat('0', 2) == "00";
    assert JsText.PadStart("7", 3, '0') == "007";
  }

  /** `rule.category || 'General'`. */
  function CategoryLabel(rule: Rule): (c: Json)
    ensures JsTruthy(Field(rule, "category")) ==> c == rule["category"]
    ensures !JsTruthy(Field(rule, "category")) ==> c == JStr("General")
  {
    JsOr(Field(rule, "category"), JStr("General"))
  }

  function StatusLabel(rule: Rule): (s: string)
    ensures s == "MONITORING" <==> JsTruthy(Field(rule, "enabled"))
    ensures s == "PAUSED" <==> !JsTruthy(Field(rule, "enabled"))
  {
    if JsTruthy(Field(rule, "enabled")) then "MONITORING" else "PAUSED"
  }

  function ToggleLabel(rule: Rule): (s: string)
    ensures s == "Pause Rule" <==> JsTruthy(Field(rule, "enabled"))
    ensures s == "Resume Rule" <==> !JsTruthy(Field(rule, "enabled"))
  {
    if JsTruthy(Field(rule, "enabled")) then "Pause Rule" else "Resume Rule"
  }

  /** The toggle button offers to pause exactly the rules shown as monitoring. */
  lemma LabelsAgree(rule: Rule)
    ensures StatusLabel(rule) == "MONITORING" <==> ToggleLabel(rule) == "Pause Rule"
  {
  }

  /** The question put to `window.confirm`; `nameText` is `${rule.name}`. */
  function ConfirmPrompt(nameText: string): (p: string)
    ensures |p| >= |nameText| + 2 && p[|p| - |nameText| - 2..|p| - 2] == nameText
  {
    "Are you sure you want to delete the alert rule \"" + nameText + "\"?"
  }

  /** `handleDelete`: `onDelete(rule.id)` is called, with the id as it is
      (possibly undefined), exactly when the user confirms. */
  function DeleteCall(rule: Rule, confirmed: bool): (call: Option<Option<Json>>)
    ensures call.Some? <==> confirmed
    ensures call.Some? ==> call.value == Field(rule, "id")
  {
    if confirmed then Some(Field(rule, "id")) else None
  }
}
