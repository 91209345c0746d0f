/** The alert-rule editor form. Its state is one record of six JavaScript
    values: the defaults, or the edited rule's values with falsy ones
    defaulted. Inputs replace one field each, and submitting coerces the two
    numeric fields through `parseInt` (`None` is `NaN`). */
module RuleEditor {
  import opened Wrappers
  import opened JsonValue
  import JsText

  datatype Form = Form(name: Json, category: Json, threshold: Json, windowMinutes: Json,
                       severity: Json, enabled: Json)

  const DefaultForm: Form := Form(JStr(""), JStr("Database"), JNum(5.0), JNum(15.0), JStr("HIGH"), JBool(true))

  /** `rule.k || fallback`. */
  function FieldOr(rule: Dict, k: string, fallback: Json): (v: Json)
    ensures k in rule && JsTruthy(Some(rule[k])) ==> v == rule[k]
    ensures !(k in rule && JsTruthy(Some(rule[k]))) ==> v == fallback
  {
    JsOr(JsProp(Some(JObj(rule)), k), fallback)
  }

  /** The form an edited rule loads into. Falsy values take the default,
      except `enabled`, which defaults only when the key is absent. */
  function FromRule(rule: Dict): (f: Form)
    ensures f.name == FieldOr(rule, "name", DefaultForm.name)
    ensures f.category == FieldOr(rule, "category", DefaultForm.category)
    ensures f.threshold == FieldOr(rule, "threshold", DefaultForm.threshold)
    ensures f.windowMinutes == FieldOr(rule, "window_minutes", DefaultForm.windowMinutes)
    ensures f.severity == FieldOr(rule, "severity", DefaultForm.severity)
    ensures "enabled" in rule ==> f.enabled == rule["enabled"]
    ensures "enabled" !in rule ==> f.enabled == JBool(true)
  {
    Form(FieldOr(rule, "name", JStr("")),
         FieldOr(rule, "category", JStr("Database")),
         FieldOr(rule, "threshold", JNum(5.0)),
         FieldOr(rule, "window_minutes", JNum(15.0)),
         FieldOr(rule, "severity", JStr("HIGH")),
         if "enabled" in rule then rule["enabled"] else JBool(true))
  }

  /** The inputs that share `handleChange`, by their `name` attribute. */
  datatype TextField = NameInput | CategoryInput | ThresholdInput | WindowInput

  /** A change event: a text, select or number input delivers its string
      `value`; the one checkbox delivers `checked`. */
  datatype Change = Typed(field: TextField, value: string) | Checked(checked: bool)

  function Applied(f: Form, e: Change): (g: Form)
    ensures e.Typed? && e.field == NameInput ==> g == f.(name := JStr(e.value))
    ensures e.Typed? && e.field == CategoryInput ==> g == f.(category := JStr(e.value))
    ensures e.Typed? && e.field == ThresholdInput ==> g == f.(threshold := JStr(e.value))
    ensures e.Typed? && e.field == WindowInput ==> g == f.(windowMinutes := JStr(e.value))
    ensures e.Checked? ==> g == f.(enabled := JBool(e.checked))
  {
    match e
    case Checked(c) => f.(enabled := JBool(c))
    case Typed(NameInput, v) => f.(name := JStr(v))
    case Typed(CategoryInput, v) => f.(category := JStr(v))
    case Typed(ThresholdInput, v) => f.(threshold := JStr(v))
    case Typed(WindowInput, v) => f.(windowMinutes := JStr(v))
  }

  /** The four criticality buttons. */
  datatype Severity = Low | Medium | High | Critical

  function SeverityText(s: Severity): (t: string)
    ensures t in {"LOW", "MEDIUM", "HIGH", "CRITICAL"}
  {
    match s
    case Low => "LOW"
    case Medium => "MEDIUM"
    case High => "HIGH"
    case Critical => "CRITICAL"
  }

  /** `parseInt(v)`, which parses `String(v)`: a string as written, a number
      through its printed form (exponent notation included), a list through
      its comma-joined text, whose leading number is its first item's; and
      `true`, `false`, `null` or an object give `NaN`. */
  function ParseIntValue(v: Json): (r: Option<int>)
    ensures v.JStr? ==> r == JsText.ParseInt(v.s)
    ensures v.JNum? ==> r == Some(JsText.ParseIntOfNumber(v.n))
    ensures v.JArr? ==> r == if v.items == [] then None else ParseIntValue(v.items[0])
    ensures v.JBool? || v.JNull? || v.JObj? ==> r.None?
  {
    match v
    case JStr(s) => JsText.ParseInt(s)
    case JNum(n) => Some(JsText.ParseIntOfNumber(n))
    case JArr(items) => if items == [] then None else ParseIntValue(items[0])
    case _ => None
  }

  /** What `onSave` receives: the form with both numbers coerced. */
  datatype Payload = Payload(name: Json, category: Json, threshold: Option<int>, windowMinutes: Option<int>,
                             severity: Json, enabled: Json)

  function SubmitPayload(f: Form): (p: Payload)
    ensures p.name == f.name && p.category == f.category
    ensures p.severity == f.severity && p.enabled == f.enabled
    ensures p.threshold == ParseIntValue(f.threshold) && p.windowMinutes == ParseIntValue(f.windowMinutes)
  {
    Payload(f.name, f.category, ParseIntValue(f.threshold), ParseIntValue(f.windowMinutes), f.severity, f.enabled)
  }

  // ------------------------------------------- the browser's form checks

  /** 10^n as a real. */
  function Pow10(n: nat): (p: real)
    ensures p >= 1.0
  {
    if n == 0 then 1.0 else 10.0 * Pow10(n - 1)
  }

  /** The value of text that is a valid floating-point number in the sense
      of the HTML standard: an optional `-`, then digits, digits with a
      fraction, or a fraction alone, then an optional exponent (`e` or `E`,
      an optional sign, digits). Any other text has no value (`None`). */
  function FloatValue(s: string): (v: Option<real>)
    ensures s != [] && s[0] == '-' ==> v == Negated(UnsignedValue(s[1..]))
    ensures (s == [] || s[0] != '-') ==> v == UnsignedValue(s)
  {
    if s != [] && s[0] == '-' then Negated(UnsignedValue(s[1..])) else UnsignedValue(s)
  }

  function Negated(v: Option<real>): Option<real> {
    if v.Some? then Some(-v.value) else None
  }

  /** A valid number without its `-`: digits, then an optional fraction of
      one or more digits, or a fraction alone; then the exponent part. */
  function UnsignedValue(t: string): (v: Option<real>)
  {
    var whole := JsText.DigitPrefix(t, 10);
    var rest := t[|whole|..];
    if rest != [] && rest[0] == '.' then
      var frac := JsText.DigitPrefix(rest[1..], 10);
      if frac == [] then None else Scaled(Mantissa(whole, frac), rest[1 + |frac|..])
    else if whole == [] then None
    else Scaled(Mantissa(whole, []), rest)
  }

  /** The mantissa `m` followed by the text `tail`: nothing, or an exponent. */
  function Scaled(m: real, tail: string): (v: Option<real>)
    ensures tail == [] ==> v == Some(m)
  {
    if tail == [] then Some(m)
    else if tail[0] != 'e' && tail[0] != 'E' then None
    else
      var k := Exponent(tail[1..]);
      if k.None? then None
      else if k.value < 0 then Some(m / Pow10(-k.value))
      else Some(m * Pow10(k.value))
  }

  /** The exponent after the `e`: an optional sign, then digits to the end. */
  function Exponent(t: string): (k: Option<int>)
  {
    var u := if t != [] && (t[0] == '-' || t[0] == '+') then t[1..] else t;
    var e := JsText.DigitPrefix(u, 10);
    if e == [] || |e| != |u| then None
    else if t[0] == '-' then Some(-JsText.DigitsValue(e, 10))
    else Some(JsText.DigitsValue(e, 10))
  }

  /** The digits before and after the point, read as one number. */
  function Mantissa(whole: string, frac: string): real {
    JsText.DigitsValue(whole + frac, 10) as real / Pow10(|frac|)
  }

  /** The number a number input holds for a form value. React writes
      `String(v)` into the input, and the browser keeps that text only when
      it is a valid floating-point number: a number is kept, a text is read
      as written, a one-item list reads as its item, and anything else is
      emptied. */
  function InputNumber(v: Json): (n: Option<real>)
    ensures v.JNum? ==> n == Some(v.n)
    ensures v.JStr? ==> n == FloatValue(v.s)
    ensures v.JArr? && |v.items| != 1 ==> n.None?
    ensures v.JBool? || v.JNull? || v.JObj? ==> n.None?
  {
    match v
    case JNum(x) => Some(x)
    case JStr(s) => FloatValue(s)
    case JArr(items) => if |items| == 1 then InputNumber(items[0]) else None
    case _ => None
  }

  /** The text input shows nothing: React writes `String(v)`, which is empty
      for "", `null`, `[]` and a one-item list of such a value. */
  predicate BlankText(v: Json) {
    match v
    case JStr(s) => s == ""
    case JNull => true
    case JArr(items) => |items| == 0 || (|items| == 1 && BlankText(items[0]))
    case _ => false
  }

  /** A `required` number input with `min="1"` and the default step of 1
      from that minimum accepts exactly a whole number of at least 1. */
  predicate ValidCount(v: Json) {
    var n := InputNumber(v);
    n.Some? && n.value >= 1.0 && n.value == n.value.Floor as real
  }

  /** The browser submits the form only when the `required` name is not
      empty and both numeric inputs are valid. */
  predicate Submittable(f: Form) {
    !BlankText(f.name) && ValidCount(f.threshold) && ValidCount(f.windowMinutes)
  }

  /** "SAVE CONFIGURATION": the browser checks the form, and `handleSubmit`
      runs (and `onSave` receives the payload) only when every check holds. */
  function Submit(f: Form): (p: Option<Payload>)
    ensures p.Some? <==> Submittable(f)
    ensures p.Some? ==> p.value == SubmitPayload(f)
  {
    if Submittable(f) then Some(SubmitPayload(f)) else None
  }

  /** The payload the form evidently means to send: the whole number each
      validated input holds, as `Number(value)` reads it. */
  function SubmitIntended(f: Form): (p: Option<Payload>)
    ensures p.Some? <==> Submittable(f)
    ensures p.Some? ==> p.value.name == f.name && p.value.category == f.category
    ensures p.Some? ==> p.value.severity == f.severity && p.value.enabled == f.enabled
    ensures p.Some? ==>
      && p.value.threshold.Some? && p.value.threshold.value >= 1
      && p.value.threshold.value as real == InputNumber(f.threshold).value
    ensures p.Some? ==>
      && p.value.windowMinutes.Some? && p.value.windowMinutes.value >= 1
      && p.value.windowMinutes.value as real == InputNumber(f.windowMinutes).value
  {
    if Submittable(f) then
      Some(Payload(f.name, f.category, Some(InputNumber(f.threshold).value.Floor),
                   Some(InputNumber(f.windowMinutes).value.Floor), f.severity, f.enabled))
    else None
  }

  class Editor {
    var form: Form

    /** Mounting: the default form, then the effect loads a given rule. */
    constructor (rule: Option<Dict>)
      ensures rule.None? ==> form == DefaultForm
      ensures rule.Some? ==> form == FromRule(rule.value)
    {
      form := DefaultForm;
      if rule.Some? {
        form := FromRule(rule.value);
      }
    }

    /** The effect re-runs when the `rule` prop changes; a null rule leaves
        the form as it is. */
    method RuleChanged(rule: Option<Dict>)
      modifies this
      ensures rule.None? ==> form == old(form)
      ensures rule.Some? ==> form == FromRule(rule.value)
    {
      if rule.Some? {
        form := FromRule(rule.value);
      }
    }

    /** `handleChange`. */
    method HandleChange(e: Change)
      modifies this
      ensures form == Applied(old(form), e)
    {
      form := Applied(form, e);
    }

    /** A criticality button. */
    method PickSeverity(s: Severity)
      modifies this
      ensures form == old(form).(severity := JStr(SeverityText(s)))
    {
      form := form.(severity := JStr(SeverityText(s)));
    }
  }

  /** A zero threshold or window in a stored rule is falsy and loads as the
      default, while `enabled: false` survives. */
  lemma FalsyFieldsLoadDefaults(rule: Dict)
    requires "threshold" in rule && rule["threshold"] == JNum(0.0)
    requires "window_minutes" !in rule
    requires "enabled" in rule && rule["enabled"] == JBool(false)
    ensures FromRule(rule).threshold == JNum(5.0) && FromRule(rule).windowMinutes == JNum(15.0)
    ensures FromRule(rule).enabled == JBool(false)
  {
  }

  /** A non-empty run of decimal digits is a valid number holding its value. */
  lemma UnsignedValueOfDigits(d: string)
    requires d != [] && forall i :: 0 <= i < |d| ==> JsText.IsDigitIn(d[i], 10)
    ensures UnsignedValue(d) == Some(JsText.DigitsValue(d, 10) as real)
  {
    JsText.DigitPrefixOfDigits(d, 10);
    assert d[|d|..] == [];
    assert d + [] == d;
  }

  /** The printed form of an integer is a valid number holding it. */
  lemma FloatValueOfInt(k: int)
    ensures FloatValue(JsText.IntToString(k)) == Some(k as real)
  {
    var m: nat := if k < 0 then -k else k;
    var digits := JsText.NatToString(m);
    JsText.NatToStringValue(m);
    UnsignedValueOfDigits(digits);
    assert UnsignedValue(digits) == Some(m as real);
    if k < 0 {
      var s := JsText.IntToString(k);
      assert s == "-" + digits;
      assert s[1..] == digits;
      assert FloatValue(s) == Negated(UnsignedValue(digits));
    } else {
      assert JsText.IntToString(k) == digits;
      assert JsText.IsDigitIn(digits[0], 10);
      assert FloatValue(digits) == UnsignedValue(digits);
    }
  }

  /** The untouched form is not submitted, because its name is empty; once
      a name is typed it submits category Database, threshold 5, window 15,
      severity HIGH, enabled. */
  lemma DefaultPayload(name: string)
    requires name != ""
    ensures SubmitPayload(DefaultForm) == Payload(JStr(""), JStr("Database"), Some(5), Some(15), JStr("HIGH"), JBool(true))
    ensures Submit(DefaultForm).None?
    ensures Submit(Applied(DefaultForm, Typed(NameInput, name)))
      == Some(Payload(JStr(name), JStr("Database"), Some(5), Some(15), JStr("HIGH"), JBool(true)))
  {
    assert (5.0).Floor == 5 && (15.0).Floor == 15;
  }

  /** A whole number typed into either numeric input of an otherwise valid
      form is submitted iff it is at least 1, and then as that number. */
  lemma TypedNumberSubmitted(f: Form, field: TextField, k: int)
    requires field == ThresholdInput || field == WindowInput
    ensures field == ThresholdInput ==> SubmitPayload(Applied(f, Typed(field, JsText.IntToString(k)))).threshold == Some(k)
    ensures field == WindowInput ==> SubmitPayload(Applied(f, Typed(field, JsText.IntToString(k)))).windowMinutes == Some(k)
    ensures Submittable(f) ==> (Submit(Applied(f, Typed(field, JsText.IntToString(k)))).Some? <==> k >= 1)
  {
    JsText.ParseIntOfIntToString(k);
    TypedCountValid(k);
  }

  /** A number input holding an integer's printed text passes validation iff
      the integer is at least 1. */
  lemma TypedCountValid(k: int)
    ensures ValidCount(JStr(JsText.IntToString(k))) <==> k >= 1
  {
    FloatValueOfInt(k);
    assert InputNumber(JStr(JsText.IntToString(k))) == Some(k as real);
    assert (k as real).Floor == k;
  }

  /** A stored whole-number threshold other than 0 and below 10^21 in size
      (larger ones print in exponent notation) passes the form's check iff
      it is at least 1, and comes back unchanged when the rule is loaded and
      submitted without edits. */
  lemma StoredThresholdRoundTrips(rule: Dict, k: int)
    requires k != 0 && "threshold" in rule && rule["threshold"] == JNum(k as real)
    requires -JsText.ExponentFrom < k as real < JsText.ExponentFrom
    ensures SubmitPayload(FromRule(rule)).threshold == Some(k)
    ensures ValidCount(FromRule(rule).threshold) <==> k >= 1
    ensures Submit(FromRule(rule)).Some? ==> Submit(FromRule(rule)).value.threshold == Some(k) && k >= 1
  {
    assert FromRule(rule).threshold == JNum(k as real);
    assert JsText.TruncToward0(k as real) == k;
    assert JsText.ParseIntOfNumber(k as real) == k;
    assert (k as real).Floor == k;
  }

  /** Text typed into a numeric input whose first character after the white
      space and an optional sign is not a digit reads as `NaN`; when it is
      not a valid number either, the browser empties the input and the form
      is not submitted. */
  lemma NonNumericThresholdIsNaN(f: Form, text: string)
    requires var u := JsText.Unsigned(JsText.TrimStart(text)); u == [] || !JsText.IsDigitIn(u[0], 10)
    ensures SubmitPayload(Applied(f, Typed(ThresholdInput, text))).threshold.None?
    ensures FloatValue(text).None? ==> Submit(Applied(f, Typed(ThresholdInput, text))).None?
  {
    JsText.ParseIntNaN(text);
  }

  /** ".5e1" is a valid number holding 5 that `parseInt` reads as NaN. */
  lemma PointFiveEOne()
    ensures FloatValue(".5e1") == Some(5.0)
    ensures JsText.ParseInt(".5e1").None?
  {
    PointFiveEOneValue();
    assert ".5e1"[0] == '.';
    assert FloatValue(".5e1") == UnsignedValue(".5e1");
    JsText.TrimStartNoSpace(".5e1");
    assert JsText.Unsigned(".5e1") == ".5e1";
    JsText.ParseIntNaN(".5e1");
  }

  /** The unsigned text ".5e1" holds 5. */
  lemma PointFiveEOneValue()
    ensures UnsignedValue(".5e1") == Some(5.0)
  {
    assert [] + "." + "5" + "e1" == ".5e1";
    UnsignedValueOfFraction([], "5", "e1");
    MantissasOfFive();
    ScaledByE1(0.5);
  }

  /** ".5" and "0.5" both spell one half. */
  lemma MantissasOfFive()
    ensures Mantissa([], "5") == 0.5 && Mantissa("0", "5") == 0.5
  {
    assert [] + "5" == "5" && "5"[..0] == [];
    assert JsText.DigitsValue("5", 10) == 5;
    assert "0" + "5" == "05" && "05"[..1] == "0" && "0"[..0] == [];
    assert JsText.DigitsValue("05", 10) == 5;
    assert Pow10(1) == 10.0;
  }

  /** Digits, a point, digits and a tail that starts with no digit: the
      mantissa those digits spell, scaled by the tail. */
  lemma UnsignedValueOfFraction(whole: string, frac: string, tail: string)
    requires forall i :: 0 <= i < |whole| ==> JsText.IsDigitIn(whole[i], 10)
    requires frac != [] && forall i :: 0 <= i < |frac| ==> JsText.IsDigitIn(frac[i], 10)
    requires tail == [] || !JsText.IsDigitIn(tail[0], 10)
    ensures UnsignedValue(whole + "." + frac + tail) == Scaled(Mantissa(whole, frac), tail)
  {
    var rest := "." + frac + tail;
    var t := whole + "." + frac + tail;
    assert t == whole + rest;
    assert !JsText.IsDigitIn(rest[0], 10);
    JsText.DigitPrefixStops(whole, rest, 10);
    assert t[|whole|..] == rest;
    assert rest[1..] == frac + tail;
    FracPrefix(frac, tail);
    assert rest[1 + |frac|..] == tail;
  }

  /** The digit run of digits followed by a tail that starts with no digit. */
  lemma FracPrefix(frac: string, tail: string)
    requires forall i :: 0 <= i < |frac| ==> JsText.IsDigitIn(frac[i], 10)
    requires tail == [] || !JsText.IsDigitIn(tail[0], 10)
    ensures JsText.DigitPrefix(frac + tail, 10) == frac
  {
    if tail == [] {
      assert frac + tail == frac;
      JsText.DigitPrefixOfDigits(frac, 10);
    } else {
      JsText.DigitPrefixStops(frac, tail, 10);
    }
  }

  /** Digits and a tail that starts with neither a digit nor a point: the
      digits' value, scaled by the tail. */
  lemma UnsignedValueOfWhole(whole: string, tail: string)
    requires whole != [] && forall i :: 0 <= i < |whole| ==> JsText.IsDigitIn(whole[i], 10)
    requires tail == [] || (!JsText.IsDigitIn(tail[0], 10) && tail[0] != '.')
    ensures UnsignedValue(whole + tail) == Scaled(Mantissa(whole, []), tail)
  {
    if tail == [] {
      assert whole + tail == whole;
      JsText.DigitPrefixOfDigits(whole, 10);
    } else {
      JsText.DigitPrefixStops(whole, tail, 10);
    }
    assert (whole + tail)[|whole|..] == tail;
  }

  /** An exponent "e1" multiplies by ten. */
  lemma ScaledByE1(m: real)
    ensures Scaled(m, "e1") == Some(m * 10.0)
  {
    assert "e1"[0] == 'e' && "e1"[1..] == "1";
    assert JsText.DigitPrefix("1", 10) == "1";
    assert "1"[..0] == [];
    assert JsText.DigitsValue("1", 10) == 1;
    assert Exponent("1") == Some(1);
    assert Pow10(1) == 10.0;
    assert Scaled(m, "e1") == Some(m * Pow10(1));
    assert m * Pow10(1) == m * 10.0;
  }

  /** "0.5e1" is a valid number holding 5 that `parseInt` reads as 0. */
  lemma ZeroPointFiveEOne()
    ensures FloatValue("0.5e1") == Some(5.0)
    ensures JsText.ParseInt("0.5e1") == Some(0)
  {
    ZeroPointFiveEOneValue();
    assert "0.5e1"[0] == '0';
    assert FloatValue("0.5e1") == UnsignedValue("0.5e1");
    JsText.TrimStartNoSpace("0.5e1");
    assert JsText.DigitPrefix("0.5e1", 10) == "0";
    assert JsText.DigitsValue("0", 10) == 0;
    assert JsText.ParseMagnitude("0.5e1") == Some(0);
  }

  /** The unsigned text "0.5e1" holds 5. */
  lemma ZeroPointFiveEOneValue()
    ensures UnsignedValue("0.5e1") == Some(5.0)
  {
    assert "0" + "." + "5" + "e1" == "0.5e1";
    UnsignedValueOfFraction("0", "5", "e1");
    MantissasOfFive();
    ScaledByE1(0.5);
  }

  /** "1e3" is a valid number holding 1000 that `parseInt` reads as 1. */
  lemma OneEThree()
    ensures FloatValue("1e3") == Some(1000.0)
    ensures JsText.ParseInt("1e3") == Some(1)
  {
    OneEThreeValue();
    assert "1e3"[0] == '1';
    assert FloatValue("1e3") == UnsignedValue("1e3");
    JsText.TrimStartNoSpace("1e3");
    assert JsText.DigitPrefix("1e3", 10) == "1";
    assert "1"[..0] == [];
    assert JsText.DigitsValue("1", 10) == 1;
    assert JsText.ParseMagnitude("1e3") == Some(1);
  }

  /** The unsigned text "1e3" holds 1000. */
  lemma OneEThreeValue()
    ensures UnsignedValue("1e3") == Some(1000.0)
  {
    assert "1" + "e3" == "1e3";
    UnsignedValueOfWhole("1", "e3");
    assert "e3"[1..] == "3";
    assert JsText.DigitPrefix("3", 10) == "3";
    assert "3"[..0] == [];
    assert JsText.DigitsValue("3", 10) == 3;
    assert Exponent("3") == Some(3);
    assert "1" + [] == "1" && "1"[..0] == [];
    assert JsText.DigitsValue("1", 10) == 1;
    assert Pow10(3) == 1000.0;
  }

  /** Threshold text holding a whole number of at least 1, typed into an
      otherwise valid form, is submitted: as written with `parseInt`'s
      reading of the text, as intended with the number it holds. */
  lemma ThresholdTextSubmitted(f: Form, text: string, n: int)
    requires !BlankText(f.name) && ValidCount(f.windowMinutes)
    requires FloatValue(text) == Some(n as real) && n >= 1
    ensures Submit(Applied(f, Typed(ThresholdInput, text))).Some?
    ensures Submit(Applied(f, Typed(ThresholdInput, text))).value.threshold == JsText.ParseInt(text)
    ensures SubmitIntended(Applied(f, Typed(ThresholdInput, text))).Some?
    ensures SubmitIntended(Applied(f, Typed(ThresholdInput, text))).value.threshold == Some(n)
  {
    assert (n as real).Floor == n;
    assert ValidCount(JStr(text));
  }

  /** Validation lets through valid numbers that `parseInt` misreads: ".5e1"
      holds 5 but is sent as NaN, "0.5e1" holds 5 but is sent as 0, and
      "1e3" holds 1000 but is sent as 1. */
  lemma ExponentTextsMisread(f: Form)
    requires !BlankText(f.name) && ValidCount(f.windowMinutes)
    ensures Submit(Applied(f, Typed(ThresholdInput, ".5e1"))).Some?
    ensures Submit(Applied(f, Typed(ThresholdInput, ".5e1"))).value.threshold.None?
    ensures Submit(Applied(f, Typed(ThresholdInput, "0.5e1"))).Some?
    ensures Submit(Applied(f, Typed(ThresholdInput, "0.5e1"))).value.threshold == Some(0)
    ensures Submit(Applied(f, Typed(ThresholdInput, "1e3"))).Some?
    ensures Submit(Applied(f, Typed(ThresholdInput, "1e3"))).value.threshold == Some(1)
  {
    PointFiveEOne();
    ThresholdTextSubmitted(f, ".5e1", 5);
    ZeroPointFiveEOne();
    ThresholdTextSubmitted(f, "0.5e1", 5);
    OneEThree();
    ThresholdTextSubmitted(f, "1e3", 1000);
  }

  /** With the inputs read as numbers, the three texts above are sent as 5,
      5 and 1000. */
  lemma IntendedReadsExponentTexts(f: Form)
    requires !BlankText(f.name) && ValidCount(f.windowMinutes)
    ensures SubmitIntended(Applied(f, Typed(ThresholdInput, ".5e1"))).Some?
    ensures SubmitIntended(Applied(f, Typed(ThresholdInput, ".5e1"))).value.threshold == Some(5)
    ensures SubmitIntended(Applied(f, Typed(ThresholdInput, "0.5e1"))).Some?
    ensures SubmitIntended(Applied(f, Typed(ThresholdInput, "0.5e1"))).value.threshold == Some(5)
    ensures SubmitIntended(Applied(f, Typed(ThresholdInput, "1e3"))).Some?
    ensures SubmitIntended(Applied(f, Typed(ThresholdInput, "1e3"))).value.threshold == Some(1000)
  {
    PointFiveEOne();
    ThresholdTextSubmitted(f, ".5e1", 5);
    ZeroPointFiveEOne();
    ThresholdTextSubmitted(f, "0.5e1", 5);
    OneEThree();
    ThresholdTextSubmitted(f, "1e3", 1000);
  }

  /** Editing one field and then loading another rule discards the edit. */
  method EditThenSwitchRule(first: Dict, second: Dict, typed: string) returns (form: Form)
    ensures form == FromRule(second)
  {
    var e := new Editor(Some(first));
    e.HandleChange(Typed(NameInput, typed));
    e.RuleChanged(Some(second));
    form := e.form;
  }

  /** A severity button always leaves one of the four levels in the form. */
  method SeverityAlwaysALevel(rule: Option<Dict>, s: Severity) returns (severity: Json)
    ensures severity.JStr? && severity.s in {"LOW", "MEDIUM", "HIGH", "CRITICAL"}
  {
    var e := new Editor(rule);
    e.PickSeverity(s);
    severity := e.form.severity;
  }
}
