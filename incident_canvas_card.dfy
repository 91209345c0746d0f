/** The error-group card of the incident list (`IncidentCanvasCard`): prop
    defaults, the confidence it hands to the ring, the rollback gate, and the
    collapsed sample-log preview. The `group` prop is a decoded JSON object;
    a key absent from it is JavaScript's `undefined`. */
module IncidentCanvasCard {
  import opened Wrappers
  import opened JsonValue
  import opened Rounding
  import ConfidenceRing

  /** Destructuring with a default: the default replaces only `undefined`. */
  function Prop(group: Dict, k: string, default: Json): (v: Json)
    ensures k in group ==> v == group[k]
    ensures k !in group ==> v == default
  {
    if k in group then group[k] else default
  }

  /** The props after the destructuring defaults. */
  datatype Props = Props(count: Json, rootCause: Json, status: Json, services: Json, route: Json)

  function Destructure(group: Dict): (p: Props)
    ensures "count" !in group ==> p.count == JNum(1.0)
    ensures "root_cause" !in group ==> p.rootCause == JObj(map[])
    ensures "status" !in group ==> p.status == JStr("OPEN")
    ensures "services" !in group ==> p.services == JArr([JStr("Unknown Service")])
    ensures "route" !in group ==> p.route == JStr("/api/unknown")
    ensures "count" in group ==> p.count == group["count"]
    ensures "root_cause" in group ==> p.rootCause == group["root_cause"]
    ensures "status" in group ==> p.status == group["status"]
    ensures "services" in group ==> p.services == group["services"]
    ensures "route" in group ==> p.route == group["route"]
  {
    Props(
      Prop(group, "count", JNum(1.0)),
      Prop(group, "root_cause", JObj(map[])),
      Prop(group, "status", JStr("OPEN")),
      Prop(group, "services", JArr([JStr("Unknown Service")])),
      Prop(group, "route", JStr("/api/unknown")))
  }

  /** `root_cause.confidence`: the default `{}` covers only an absent key, so
      a `null` root cause throws and the card does not render. */
  function RawConfidence(rootCause: Json): (c: Result<Option<Json>, JsError>)
    ensures c.Err? <==> rootCause.JNull?
    ensures rootCause.JObj? && "confidence" in rootCause.fields ==>
      c == Ok(Some(rootCause.fields["confidence"]))
    ensures !rootCause.JNull? && !(rootCause.JObj? && "confidence" in rootCause.fields) ==>
      c == Ok(None)
  {
    JsRead(Some(rootCause), "confidence")
  }

  /** The percentage rule on a numeric confidence: a missing or zero value is
      0; any value at most 1, negatives included, is scaled by 100; larger
      values are only rounded. */
  function Confidence(c: Option<real>): (r: int)
    ensures (c.None? || c.value == 0.0) ==> r == 0
    ensures c.Some? && c.value != 0.0 && c.value <= 1.0 ==>
      r as real - 0.5 <= 100.0 * c.value < r as real + 0.5
    ensures c.Some? && c.value > 1.0 ==> r as real - 0.5 <= c.value < r as real + 0.5
  {
    if c.Some? && c.value != 0.0 then
      (if c.value <= 1.0 then JsRound(c.value * 100.0) else JsRound(c.value))
    else 0
  }

  /** The card's `confidence` for whatever `root_cause.confidence` holds
      (`None` is NaN): a falsy value gives 0; a truthy one is compared with 1
      and multiplied by 100 through `Number`, so numeric text and `true` are
      read as numbers, and a value that is no number gives NaN. */
  function CardConfidence(raw: Option<Json>, textNumber: string -> Option<real>): (r: Option<int>)
    ensures !JsTruthy(raw) ==> r == Some(0)
    ensures JsTruthy(raw) ==> (r.None? <==> JsToNumber(raw.value, textNumber).None?)
    ensures JsTruthy(raw) && JsToNumber(raw.value, textNumber).Some? ==>
      r == Some(Confidence(JsToNumber(raw.value, textNumber)))
  {
    if !JsTruthy(raw) then Some(0)
    else match JsToNumber(raw.value, textNumber)
      case None => None
      case Some(n) => Some(Confidence(Some(n)))
  }

  /** A numeric confidence reads through the percentage rule unchanged. */
  lemma NumericConfidence(n: real, textNumber: string -> Option<real>)
    ensures CardConfidence(Some(JNum(n)), textNumber) == Some(Confidence(Some(n)))
  {
  }

  /** The text "0.85" is read as 0.85 and shown as 85 %; `true` is read as 1
      and shown as 100 %. */
  lemma CoercedConfidence(textNumber: string -> Option<real>)
    requires textNumber("0.85") == Some(0.85)
    ensures CardConfidence(Some(JStr("0.85")), textNumber) == Some(85)
    ensures CardConfidence(Some(JBool(true)), textNumber) == Some(100)
  {
    assert 0.85 * 100.0 + 0.5 == 85.5;
  }

  const RollbackThreshold: int := 70

  /** The "Approve Rollback" button is enabled iff this holds. */
  predicate CanRollback(confidence: int) {
    confidence >= RollbackThreshold
  }

  /** `confidence >= 70` on the card's value: NaN compares false. */
  predicate RollbackOffered(confidence: Option<int>) {
    confidence.Some? && CanRollback(confidence.value)
  }

  /** The rollback gate over the raw value: a fraction needs at least 0.695
      (it rounds to 70), a percentage at least 69.5; text that is no number
      never offers it. */
  lemma RollbackGate(c: real)
    requires c != 0.0
    ensures c <= 1.0 ==> (CanRollback(Confidence(Some(c))) <==> c >= 0.695)
    ensures c > 1.0 ==> (CanRollback(Confidence(Some(c))) <==> c >= 69.5)
  {
  }

  /** A confidence that is no number (NaN) never enables the rollback. */
  lemma NotANumberNoRollback(raw: Json, textNumber: string -> Option<real>)
    requires JsTruthy(Some(raw)) && JsToNumber(raw, textNumber).None?
    ensures !RollbackOffered(CardConfidence(Some(raw), textNumber))
  {
  }

  /** `services[0]`: the first listed service, or the first character of a
      text; it throws on a `null` services. */
  function PrimaryService(services: Json): (s: Result<Option<Json>, JsError>)
    ensures s.Err? <==> services.JNull?
    ensures services.JArr? && |services.items| > 0 ==> s == Ok(Some(services.items[0]))
    ensures services.JArr? && services.items == [] ==> s == Ok(None)
    ensures services.JStr? && |services.s| > 0 ==> s == Ok(Some(JStr([services.s[0]])))
  {
    JsFirst(Some(services))
  }

  /** `root_cause.cause || "Analysis pending..."`, which throws on a `null`
      root cause. */
  function CauseText(rootCause: Json): (t: Result<Json, JsError>)
    ensures t.Err? <==> rootCause.JNull?
    ensures t.Ok? && JsTruthy(JsProp(Some(rootCause), "cause")) ==> Some(t.value) == JsProp(Some(rootCause), "cause")
    ensures t.Ok? && !JsTruthy(JsProp(Some(rootCause), "cause")) ==> t.value == JStr("Analysis pending...")
  {
    match JsRead(Some(rootCause), "cause")
    case Err(e) => Err(e)
    case Ok(cause) => Ok(JsOr(cause, JStr("Analysis pending...")))
  }

  /** One line of the sample-log preview. */
  datatype PreviewLine = PreviewLine(severity: Json, message: Option<Json>)

  /** One log of the preview; `log.severity` throws on a `null` entry. */
  function LineOf(log: Json): (l: Result<PreviewLine, JsError>)
    ensures l.Err? <==> log.JNull?
    ensures l.Ok? && !JsTruthy(JsProp(Some(log), "severity")) ==> l.value.severity == JStr("INFO")
    ensures l.Ok? && JsTruthy(JsProp(Some(log), "severity")) ==> Some(l.value.severity) == JsProp(Some(log), "severity")
    ensures l.Ok? && JsTruthy(JsProp(Some(log), "message")) ==> l.value.message == JsProp(Some(log), "message")
    ensures l.Ok? && !JsTruthy(JsProp(Some(log), "message")) ==> l.value.message == JsProp(Some(log), "msg")
  {
    if log.JNull? then Err(JsTypeError)
    else
      var message := JsProp(Some(log), "message");
      Ok(PreviewLine(
        JsOr(JsProp(Some(log), "severity"), JStr("INFO")),
        if JsTruthy(message) then message else JsProp(Some(log), "msg")))
  }

  /** `logs.map(...)` over the preview's logs: it stops at the first log that
      throws. */
  function Lines(logs: seq<Json>): (r: Result<seq<PreviewLine>, JsError>)
    ensures r.Err? <==> exists i :: 0 <= i < |logs| && logs[i].JNull?
    ensures r.Ok? ==> |r.value| == |logs| && forall i :: 0 <= i < |logs| ==> LineOf(logs[i]) == Ok(r.value[i])
  {
    if |logs| == 0 then Ok([])
    else match LineOf(logs[0])
      case Err(e) => Err(e)
      case Ok(first) =>
        match Lines(logs[1..])
        case Err(e) =>
          assert exists i :: 0 <= i < |logs| - 1 && logs[1..][i].JNull?;
          var i :| 0 <= i < |logs| - 1 && logs[1..][i].JNull?;
          assert logs[i + 1].JNull?;
          Err(e)
        case Ok(rest) =>
          assert forall i :: 1 <= i < |logs| ==> logs[i] == logs[1..][i - 1];
          Ok([first] + rest)
  }

  const PreviewSize: nat := 3

  /** The logs the preview walks: `group.logs || []`; a truthy value that is
      not a list has a `slice` returning no list, or none at all, so the
      `.map` that follows throws. */
  function PreviewSource(logs: Option<Json>): (items: Result<seq<Json>, JsError>)
    ensures !JsTruthy(logs) ==> items == Ok([])
    ensures logs.Some? && logs.value.JArr? ==> items == Ok(logs.value.items)
    ensures JsTruthy(logs) && !logs.value.JArr? ==> items.Err?
  {
    if !JsTruthy(logs) then Ok([])
    else if logs.value.JArr? then Ok(logs.value.items)
    else Err(JsTypeError)
  }

  /** The first `PreviewSize` logs. */
  function Shown(items: seq<Json>): (shown: seq<Json>)
    ensures |shown| == if |items| < PreviewSize then |items| else PreviewSize
    ensures shown == items[..|shown|]
  {
    if |items| < PreviewSize then items else items[..PreviewSize]
  }

  /** `(group.logs || []).slice(0, 3).map(...)`, rendered only while the
      card is expanded; a collapsed card evaluates none of it. */
  function Preview(logs: Option<Json>): (lines: Result<seq<PreviewLine>, JsError>)
    ensures PreviewSource(logs).Err? ==> lines.Err?
    ensures PreviewSource(logs).Ok? ==>
      (lines.Err? <==> exists i :: 0 <= i < |Shown(PreviewSource(logs).value)| && PreviewSource(logs).value[i].JNull?)
    ensures lines.Ok? ==>
      |lines.value| == |Shown(PreviewSource(logs).value)| &&
      forall i :: 0 <= i < |lines.value| ==> LineOf(PreviewSource(logs).value[i]) == Ok(lines.value[i])
  {
    match PreviewSource(logs)
    case Err(e) => Err(e)
    case Ok(items) =>
      var shown := Shown(items);
      assert forall i :: 0 <= i < |shown| ==> shown[i] == items[i];
      Lines(shown)
  }

  /** In the expanded card, "No sample logs available" is shown iff
      `!group.logs` or its length is 0 (a truthy value that is not a list
      has thrown before). */
  predicate ShowsEmptyPreview(logs: Option<Json>) {
    !JsTruthy(logs) || (logs.value.JArr? && |logs.value.items| == 0)
  }

  /** When the card is expanded, the note shows exactly when the preview
      renders no line. */
  lemma EmptyPreviewIffNoLines(logs: Option<Json>)
    ensures ShowsEmptyPreview(logs) <==> Preview(logs) == Ok([])
  {
    if Preview(logs) == Ok([]) {
      assert PreviewSource(logs).Ok?;
      assert |Shown(PreviewSource(logs).value)| == 0;
    }
  }

  // ------------------------------------------------ the card feeds the ring

  /** What the ring draws for the card: the card's percentage is passed as the
      ring's `score`, and the ring normalises it a second time. */
  function RingDisplayAsWritten(c: Option<real>): (shown: int)
    ensures Confidence(c) != 1 ==> shown == Confidence(c)
    ensures Confidence(c) == 1 ==> shown == 100
  {
    ConfidenceRing.WholeScoreShown(Confidence(c));
    ConfidenceRing.NormalizedScore(Confidence(c) as real)
  }

  /** A confidence of 0.01 becomes 1 % on the card and is drawn as 100 %. */
  lemma OnePercentDrawnAsFull()
    ensures Confidence(Some(0.01)) == 1
    ensures RingDisplayAsWritten(Some(0.01)) == 100
  {
    assert 0.01 * 100.0 + 0.5 == 1.5;
  }

  /** The evidently intended display: the percentage the card computed. */
  function RingDisplay(c: Option<real>): (shown: int)
    ensures 0.0 <= c.GetOr(0.0) <= 100.0 ==> 0 <= shown <= 100
    ensures c.Some? && 0.0 < c.value <= 1.0 ==> shown as real - 0.5 <= 100.0 * c.value < shown as real + 0.5
  {
    Confidence(c)
  }
}
