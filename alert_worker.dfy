/** The background alert worker. It polls the enabled alert rules and the
    latest incidents, and asks the email service to send one alert per
    (incident, matching rule) pair. The email service catches its own SMTP
    failures, so a request to it never raises; the model records each
    request in `outbox`. Query outcomes and the `GMAIL_USER` setting are
    inputs; the ten-second sleep is not modelled. */
module AlertWorker {
  import opened Wrappers
  import opened JsonValue
  import opened PyText
  import opened SeqFilter
  import PySlice

  /** Each pass reads the 20 newest incidents. */
  const IncidentLimit: nat := 20

  /** One `send_alert_email(recipient, rule['name'], {...})` request. */
  datatype Email = Email(recipient: string, ruleName: Json, traceId: Json, category: string,
                         priority: Json, redactedText: Json)

  /** `incident.get('analysis', {}).get('category', 'unknown')`. */
  function CategoryOf(incident: Dict): (r: Result<Json, PyError>)
    ensures r.Err? <==> PyGetDict(incident, "analysis").Err?
    ensures r.Ok? && !(("analysis" in incident) && "category" in incident["analysis"].fields) ==> r.value == JStr("unknown")
  {
    match PyGetDict(incident, "analysis")
    case Err(e) => Err(e)
    case Ok(analysis) => Ok(PyGet(analysis, "category", JStr("unknown")))
  }

  /** A rule matches when its category equals the incident's, ignoring case. */
  predicate SameCategory(ruleCategory: string, category: string) {
    LowerAll(ruleCategory) == LowerAll(category)
  }

  /** One turn of the rule loop: the requests it sends, or the exception it
      raises (`.lower()` of a category that is not a string, or a matching
      rule without a name). Threshold and window are never read. */
  function RuleOutcome(rule: Dict, incident: Doc, category: Json, recipient: Option<string>): (r: Result<seq<Email>, PyError>)
    ensures r.Ok? ==> |r.value| <= 1
    ensures r.Err? <==>
      (!PyGet(rule, "category", JNull).JStr? || !category.JStr? ||
       (SameCategory(PyGet(rule, "category", JNull).s, category.s) && "name" !in rule))
    ensures r.Ok? ==>
      (|r.value| == 1 <==> SameCategory(rule["category"].s, category.s) && recipient.Some? && recipient.value != "")
    ensures r.Ok? && |r.value| == 1 ==> r.value[0].ruleName == rule["name"] && r.value[0].category == category.s
  {
    var ruleCategory := PyGet(rule, "category", JNull);
    if !ruleCategory.JStr? || !category.JStr? then Err(AttributeError)
    else if !SameCategory(ruleCategory.s, category.s) then Ok([])
    else if "name" !in rule then Err(KeyError("name"))
    else if recipient.None? || recipient.value == "" then Ok([])
    else
      Ok([Email(recipient.value, rule["name"], PyGet(incident.data, "trace_id", JNull), category.s,
                PyGet(incident.data, "priority", JNull), PyGet(incident.data, "redacted_text", JNull))])
  }

  /** Threshold and time window play no part in matching. */
  lemma ThresholdIgnored(rule: Dict, incident: Doc, category: Json, recipient: Option<string>, threshold: Json, window: Json)
    ensures RuleOutcome(rule["threshold" := threshold]["windowMinutes" := window], incident, category, recipient)
         == RuleOutcome(rule, incident, category, recipient)
  {
    var r' := rule["threshold" := threshold]["windowMinutes" := window];
    assert PyGet(r', "category", JNull) == PyGet(rule, "category", JNull);
    assert ("name" in r') == ("name" in rule);
  }

  /** The rule loop for one incident, as a fold: the requests sent before it
      ended and the exception that ended it, if any. */
  function MatchRules(rules: seq<Dict>, incident: Doc, category: Json, recipient: Option<string>): (r: (seq<Email>, Option<PyError>))
    ensures |r.0| <= |rules|
    ensures recipient.None? ==> r.0 == []
  {
    if rules == [] then ([], None)
    else
      var before := MatchRules(rules[..|rules| - 1], incident, category, recipient);
      if before.1.Some? then before
      else
        match RuleOutcome(rules[|rules| - 1], incident, category, recipient)
        case Err(e) => (before.0, Some(e))
        case Ok(sent) => (before.0 + sent, None)
  }

  /** `rule.get('category').lower() == category.lower()` holds. */
  predicate RuleMatches(rule: Dict, category: string) {
    PyGet(rule, "category", JNull).JStr? && SameCategory(rule["category"].s, category)
  }

  /** Matching ignores the case of the incident's category: lower-casing it
      first changes nothing. */
  lemma RuleMatchIgnoresCase(rule: Dict, category: string)
    ensures RuleMatches(rule, category) <==> RuleMatches(rule, LowerAll(category))
  {
    LowerAllIdempotent(category);
  }

  function MatchesCategory(category: string): Dict -> bool {
    rule => RuleMatches(rule, category)
  }

  /** A rule the loop gets past: its category is text, and it has a name
      when it matches. */
  predicate RuleRuns(rule: Dict, category: string) {
    PyGet(rule, "category", JNull).JStr? && (RuleMatches(rule, category) ==> "name" in rule)
  }

  /** The request sent for a matching rule. */
  function AlertFor(rule: Dict, incident: Doc, category: string, recipient: string): Email {
    Email(recipient, PyGet(rule, "name", JNull), PyGet(incident.data, "trace_id", JNull), category,
          PyGet(incident.data, "priority", JNull), PyGet(incident.data, "redacted_text", JNull))
  }

  /** One request per rule, in rule order. */
  function Alerts(rules: seq<Dict>, incident: Doc, category: string, recipient: string): (r: seq<Email>)
    ensures |r| == |rules|
    ensures forall i :: 0 <= i < |rules| ==> r[i].ruleName == PyGet(rules[i], "name", JNull)
  {
    if rules == [] then []
    else Alerts(rules[..|rules| - 1], incident, category, recipient) + [AlertFor(rules[|rules| - 1], incident, category, recipient)]
  }

  /** The rule loop ends without an exception iff every rule can be read. */
  lemma {:induction false} RuleLoopRuns(rules: seq<Dict>, incident: Doc, category: string, recipient: Option<string>)
    ensures MatchRules(rules, incident, JStr(category), recipient).1.None? <==>
      forall i :: 0 <= i < |rules| ==> RuleRuns(rules[i], category)
  {
    if rules != [] {
      var init, last := rules[..|rules| - 1], rules[|rules| - 1];
      RuleLoopRuns(init, incident, category, recipient);
      assert forall i :: 0 <= i < |init| ==> rules[i] == init[i];
      assert RuleOutcome(last, incident, JStr(category), recipient).Ok? <==> RuleRuns(last, category);
    }
  }

  /** A rule loop that runs to the end with a recipient sends one request
      per matching rule, in rule order. */
  lemma {:induction false} RuleLoopSends(rules: seq<Dict>, incident: Doc, category: string, recipient: string)
    requires recipient != ""
    requires MatchRules(rules, incident, JStr(category), Some(recipient)).1.None?
    ensures MatchRules(rules, incident, JStr(category), Some(recipient)).0
      == Alerts(Filter(rules, MatchesCategory(category)), incident, category, recipient)
  {
    if rules != [] {
      var init, last := rules[..|rules| - 1], rules[|rules| - 1];
      assert rules == init + [last];
      RuleLoopSends(init, incident, category, recipient);
      FilterSnoc(init, last, MatchesCategory(category));
      var kept := Filter(init, MatchesCategory(category));
      assert MatchesCategory(category)(last) == RuleMatches(last, category);
      var before := MatchRules(init, incident, JStr(category), Some(recipient));
      var outcome := RuleOutcome(last, incident, JStr(category), Some(recipient));
      assert outcome.Ok? && MatchRules(rules, incident, JStr(category), Some(recipient)).0 == before.0 + outcome.value;
      if RuleMatches(last, category) {
        assert (kept + [last])[..|kept|] == kept;
        assert outcome.value == [AlertFor(last, incident, category, recipient)];
      } else {
        assert outcome.value == [];
        assert Filter(rules, MatchesCategory(category)) == kept;
        assert before.0 + [] == before.0;
      }
    }
  }

  /** With a recipient configured, the rule loop for an incident runs to the
      end iff every rule can be read, and then sends exactly one request per
      rule whose category matches the incident's, in rule order: several
      rules can fire for one incident, and none that does not match. */
  lemma OneRequestPerMatch(rules: seq<Dict>, incident: Doc, category: string, recipient: string)
    requires recipient != ""
    ensures MatchRules(rules, incident, JStr(category), Some(recipient)).1.None? <==>
      forall i :: 0 <= i < |rules| ==> RuleRuns(rules[i], category)
    ensures MatchRules(rules, incident, JStr(category), Some(recipient)).1.None? ==>
      MatchRules(rules, incident, JStr(category), Some(recipient)).0
        == Alerts(Filter(rules, MatchesCategory(category)), incident, category, recipient)
    ensures MatchRules(rules, incident, JStr(category), Some(recipient)).1.None? ==>
      |MatchRules(rules, incident, JStr(category), Some(recipient)).0| == |Filter(rules, MatchesCategory(category))|
  {
    RuleLoopRuns(rules, incident, category, Some(recipient));
    if MatchRules(rules, incident, JStr(category), Some(recipient)).1.None? {
      RuleLoopSends(rules, incident, category, recipient);
    }
  }

  /** What one incident does: the requests sent, and the exception raised. */
  function IncidentOutcome(rules: seq<Dict>, incident: Doc, recipient: Option<string>): (seq<Email>, Option<PyError>) {
    match CategoryOf(incident.data)
    case Err(e) => ([], Some(e))
    case Ok(category) => MatchRules(rules, incident, category, recipient)
  }

  /** An `analysis` that is not a dict raises before any rule is read, no
      recipient means no request, and there is at most one request per
      rule. */
  lemma IncidentOutcomeBounds(rules: seq<Dict>, incident: Doc, recipient: Option<string>)
    ensures PyGetDict(incident.data, "analysis").Err? ==>
      IncidentOutcome(rules, incident, recipient) == ([], Some(AttributeError))
    ensures recipient.None? ==> IncidentOutcome(rules, incident, recipient).0 == []
    ensures |IncidentOutcome(rules, incident, recipient).0| <= |rules|
  {
  }

  /** With a recipient set and a text category, an incident is handled
      without an exception iff every rule can be read, and then sends one
      request per rule whose category matches, in rule order. */
  lemma IncidentSends(rules: seq<Dict>, incident: Doc, category: string, recipient: string)
    requires recipient != "" && CategoryOf(incident.data) == Ok(JStr(category))
    ensures IncidentOutcome(rules, incident, Some(recipient)).1.None? <==>
      forall i :: 0 <= i < |rules| ==> RuleRuns(rules[i], category)
    ensures IncidentOutcome(rules, incident, Some(recipient)).1.None? ==>
      IncidentOutcome(rules, incident, Some(recipient)).0
        == Alerts(Filter(rules, MatchesCategory(category)), incident, category, recipient)
  {
    OneRequestPerMatch(rules, incident, category, recipient);
  }

  /** The outcome of a pass over some incidents: the processed ids, the
      requests sent, and whether an exception ended the pass. */
  datatype Pass = Pass(processed: set<string>, emails: seq<Email>, failed: bool)

  /** One turn of the incident loop: a processed id is skipped; otherwise
      the incident is matched, and marked unless matching raised. */
  function PassStep(before: Pass, rules: seq<Dict>, d: Doc, recipient: Option<string>): (p: Pass)
    ensures before.processed <= p.processed
    ensures before.failed ==> p == before
  {
    if before.failed || d.id in before.processed then before
    else
      var (sent, raised) := IncidentOutcome(rules, d, recipient);
      if raised.Some? then Pass(before.processed, before.emails + sent, true)
      else Pass(before.processed + {d.id}, before.emails + sent, false)
  }

  /** The incident loop of `_check_and_trigger_alerts`, as a fold starting
      from the processed set `seen`. */
  function PassOver(seen: set<string>, rules: seq<Dict>, docs: seq<Doc>, recipient: Option<string>): (p: Pass)
    ensures seen <= p.processed
  {
    if docs == [] then Pass(seen, [], false)
    else PassStep(PassOver(seen, rules, docs[..|docs| - 1], recipient), rules, docs[|docs| - 1], recipient)
  }

  /** A pass that completes marks every incident it read. */
  lemma {:induction false} CompletedPassMarksAll(seen: set<string>, rules: seq<Dict>, docs: seq<Doc>, recipient: Option<string>)
    requires !PassOver(seen, rules, docs, recipient).failed
    ensures forall i :: 0 <= i < |docs| ==> docs[i].id in PassOver(seen, rules, docs, recipient).processed
  {
    if docs != [] {
      var init := docs[..|docs| - 1];
      CompletedPassMarksAll(seen, rules, init, recipient);
      forall i | 0 <= i < |docs| - 1 ensures docs[i].id in PassOver(seen, rules, docs, recipient).processed {
        assert docs[i] == init[i];
      }
    }
  }

  /** Incidents already processed are skipped: a pass over them sends
      nothing and marks nothing new. */
  lemma {:induction false} ProcessedAreSkipped(seen: set<string>, rules: seq<Dict>, docs: seq<Doc>, recipient: Option<string>)
    requires forall i :: 0 <= i < |docs| ==> docs[i].id in seen
    ensures PassOver(seen, rules, docs, recipient) == Pass(seen, [], false)
  {
    if docs != [] {
      ProcessedAreSkipped(seen, rules, docs[..|docs| - 1], recipient);
    }
  }

  /** Each incident is alerted on at most once: after a completed pass, the
      same incidents send nothing on the next. */
  lemma NoRepeatAfterCompletedPass(seen: set<string>, rules: seq<Dict>, docs: seq<Doc>, recipient: Option<string>)
    requires !PassOver(seen, rules, docs, recipient).failed
    ensures var again := PassOver(PassOver(seen, rules, docs, recipient).processed, rules, docs, recipient);
      again.emails == [] && again.processed == PassOver(seen, rules, docs, recipient).processed
  {
    CompletedPassMarksAll(seen, rules, docs, recipient);
    ProcessedAreSkipped(PassOver(seen, rules, docs, recipient).processed, rules, docs, recipient);
  }

  /** An exception while matching leaves that incident unprocessed, so the
      next pass matches it again and repeats the requests it had sent. */
  lemma FailedIncidentRetried(seen: set<string>, rules: seq<Dict>, d: Doc, recipient: Option<string>)
    requires d.id !in seen && IncidentOutcome(rules, d, recipient).1.Some?
    ensures var first := PassOver(seen, rules, [d], recipient);
      first == Pass(seen, IncidentOutcome(rules, d, recipient).0, true) &&
      PassOver(first.processed, rules, [d], recipient) == first
  {
    assert [d][..0] == [];
  }

  class Worker {
    const db: bool
    var running: bool
    /** Background loops created by `start`. */
    var loops: nat
    var processed: set<string>
    var outbox: seq<Email>

    constructor (db: bool)
      ensures this.db == db && !running && loops == 0 && processed == {} && outbox == []
    {
      this.db := db;
      running := false;
      loops := 0;
      processed := {};
      outbox := [];
    }

    /** `start`: a second start while running creates no second loop. */
    method Start()
      modifies this
      ensures running
      ensures loops == old(loops) + (if old(running) then 0 else 1)
      ensures processed == old(processed) && outbox == old(outbox)
    {
      if running {
        return;
      }
      running := true;
      loops := loops + 1;
    }

    /** `stop`: the loop ends at its next check of `running`. */
    method Stop()
      modifies this
      ensures !running && loops == old(loops)
      ensures processed == old(processed) && outbox == old(outbox)
    {
      running := false;
    }

    /** The rule loop for one incident. */
    method MatchIncident(rules: seq<Dict>, incident: Doc, category: Json, recipient: Option<string>)
      returns (raised: Option<PyError>)
      modifies this
      ensures outbox == old(outbox) + MatchRules(rules, incident, category, recipient).0
      ensures raised == MatchRules(rules, incident, category, recipient).1
      ensures processed == old(processed) && running == old(running) && loops == old(loops)
    {
      var j := 0;
      raised := None;
      ghost var sent: seq<Email> := [];
      while j < |rules|
        invariant 0 <= j <= |rules|
        invariant outbox == old(outbox) + sent
        invariant MatchRules(rules[..j], incident, category, recipient) == (sent, None)
        invariant processed == old(processed) && running == old(running) && loops == old(loops)
      {
        assert rules[..j + 1][..j] == rules[..j];
        var outcome := RuleOutcome(rules[j], incident, category, recipient);
        if outcome.Err? {
          raised := Some(outcome.error);
          assert MatchRules(rules[..j + 1], incident, category, recipient) == (sent, raised);
          MatchRulesErrorPersists(rules, incident, category, recipient, j + 1);
          return;
        }
        outbox := outbox + outcome.value;
        sent := sent + outcome.value;
        j := j + 1;
      }
      assert rules[..|rules|] == rules;
    }

    /** One turn of the incident loop; `added` is what it sent. */
    method ProcessIncident(rules: seq<Dict>, d: Doc, recipient: Option<string>, ghost sent: seq<Email>)
      returns (raised: bool, ghost added: seq<Email>)
      modifies this
      ensures running == old(running) && loops == old(loops)
      ensures outbox == old(outbox) + added
      ensures PassStep(Pass(old(processed), sent, false), rules, d, recipient) == Pass(processed, sent + added, raised)
    {
      added := [];
      if d.id in processed {
        assert sent + added == sent;
        return false, added;
      }
      var category := CategoryOf(d.data);
      if category.Err? {
        assert sent + added == sent;
        return true, added;
      }
      var err := MatchIncident(rules, d, category.value, recipient);
      added := MatchRules(rules, d, category.value, recipient).0;
      if err.Some? {
        return true, added;
      }
      processed := processed + {d.id};
      raised := false;
    }

    /** The incident loop, proved to compute `PassOver`. */
    method RunPass(rules: seq<Dict>, docs: seq<Doc>, recipient: Option<string>) returns (raised: bool)
      modifies this
      ensures running == old(running) && loops == old(loops)
      ensures var p := PassOver(old(processed), rules, docs, recipient);
        processed == p.processed && outbox == old(outbox) + p.emails && raised == p.failed
    {
      var i := 0;
      ghost var sent: seq<Email> := [];
      while i < |docs|
        invariant 0 <= i <= |docs|
        invariant outbox == old(outbox) + sent
        invariant PassOver(old(processed), rules, docs[..i], recipient) == Pass(processed, sent, false)
        invariant running == old(running) && loops == old(loops)
      {
        assert docs[..i + 1][..i] == docs[..i];
        ghost var added;
        raised, added := ProcessIncident(rules, docs[i], recipient, sent);
        sent := sent + added;
        i := i + 1;
        if raised {
          PassErrorPersists(old(processed), rules, docs, recipient, i);
          return;
        }
      }
      assert docs[..|docs|] == docs;
      raised := false;
    }

    /** `_check_and_trigger_alerts`. `rules` and `incidents` are the outcomes
        of the two queries (enabled rules; incidents newest first); `raised`
        says whether an exception reached the loop's `except`. */
    method CheckAndTrigger(rules: Result<seq<Dict>, string>, incidents: Result<seq<Doc>, string>, recipient: Option<string>)
      returns (raised: bool)
      modifies this
      ensures running == old(running) && loops == old(loops)
      ensures !db || (rules.Ok? && rules.value == []) ==> processed == old(processed) && outbox == old(outbox) && !raised
      ensures db && (rules.Err? || (rules.Ok? && rules.value != [] && incidents.Err?)) ==>
        processed == old(processed) && outbox == old(outbox) && raised
      ensures db && rules.Ok? && rules.value != [] && incidents.Ok? ==>
        var p := PassOver(old(processed), rules.value, PySlice.Take(incidents.value, IncidentLimit), recipient);
        processed == p.processed && outbox == old(outbox) + p.emails && raised == p.failed
    {
      if !db {
        return false;
      }
      if rules.Err? {
        return true;
      }
      if rules.value == [] {
        return false;
      }
      if incidents.Err? {
        return true;
      }
      raised := RunPass(rules.value, PySlice.Take(incidents.value, IncidentLimit), recipient);
    }

    /** One turn of `_run_loop`: while `running` it runs a pass, whose
        exception is caught; otherwise the loop has ended. */
    method LoopTurn(rules: Result<seq<Dict>, string>, incidents: Result<seq<Doc>, string>, recipient: Option<string>)
      returns (continues: bool)
      modifies this
      ensures continues == old(running) && running == old(running) && loops == old(loops)
      ensures !old(running) ==> processed == old(processed) && outbox == old(outbox)
      ensures old(running) && (!db || (rules.Ok? && rules.value == [])) ==>
        processed == old(processed) && outbox == old(outbox)
      ensures old(running) && db && (rules.Err? || (rules.Ok? && rules.value != [] && incidents.Err?)) ==>
        processed == old(processed) && outbox == old(outbox)
      ensures old(running) && db && rules.Ok? && rules.value != [] && incidents.Ok? ==>
        var p := PassOver(old(processed), rules.value, PySlice.Take(incidents.value, IncidentLimit), recipient);
        processed == p.processed && outbox == old(outbox) + p.emails
    {
      if !running {
        return false;
      }
      var raised := CheckAndTrigger(rules, incidents, recipient);
      continues := true;
    }
  }

  lemma {:induction false} MatchRulesErrorPersists(rules: seq<Dict>, incident: Doc, category: Json, recipient: Option<string>, n: nat)
    requires 0 < n <= |rules| && MatchRules(rules[..n], incident, category, recipient).1.Some?
    ensures MatchRules(rules, incident, category, recipient) == MatchRules(rules[..n], incident, category, recipient)
    decreases |rules| - n
  {
    if n < |rules| {
      var init := rules[..|rules| - 1];
      assert init[..n] == rules[..n];
      MatchRulesErrorPersists(init, incident, category, recipient, n);
    } else {
      assert rules[..n] == rules;
    }
  }

  lemma {:induction false} PassErrorPersists(seen: set<string>, rules: seq<Dict>, docs: seq<Doc>, recipient: Option<string>, n: nat)
    requires 0 < n <= |docs| && PassOver(seen, rules, docs[..n], recipient).failed
    ensures PassOver(seen, rules, docs, recipient) == PassOver(seen, rules, docs[..n], recipient)
    decreases |docs| - n
  {
    if n < |docs| {
      var init := docs[..|docs| - 1];
      assert init[..n] == docs[..n];
      PassErrorPersists(seen, rules, init, recipient, n);
    } else {
      assert docs[..n] == docs;
    }
  }

  /** Starting twice creates one loop. */
  method StartTwice(db: bool) returns (loops: nat, running: bool)
    ensures loops == 1 && running
  {
    var w := new Worker(db);
    w.Start();
    w.Start();
    loops, running := w.loops, w.running;
  }

  /** After stop, the loop's next turn ends it without a pass. */
  method StopEndsLoop(db: bool, rules: Result<seq<Dict>, string>, incidents: Result<seq<Doc>, string>, recipient: Option<string>)
    returns (continues: bool, sent: seq<Email>)
    ensures !continues && sent == []
  {
    var w := new Worker(db);
    w.Start();
    w.Stop();
    continues := w.LoopTurn(rules, incidents, recipient);
    sent := w.outbox;
  }
}
