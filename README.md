# Self-Healing Cloud — a Dafny model of its decision logic

Self-Healing Cloud is an SRE assistant. A collector reads structured log lines
from Google Cloud Logging and groups them by trace. An agent sends each trace to
Gemini for a root-cause analysis, escalates long traces, normalises the
confidence it gets back and stores an incident in Firestore. A FastAPI backend
serves groups, incidents, analytics, analysis runs and chat, and a background
worker e-mails alert-rule matches. A React frontend lists and filters the
incidents, runs analyses, edits alert rules and shows single incidents.

This project models the logic between those I/O calls and proves what it
promises. Every Firestore query result, Gemini reply, decoded token, HTTP
response, `Date.now()` value and timer firing is an input value or an explicit
event. The model follows the Python and JavaScript code, edge cases included:

- Python `round` is round-half-to-even, and JavaScript `Math.round` rounds a half up.
- Python and JavaScript truthiness are modelled separately.
- A Python `bool` counts as a number.
- Comparing a non-number with a float raises `TypeError`.
- `str.replace` removes every occurrence.
- An `HTTPException` raised inside `try: ... except Exception` becomes a 500 whose detail is `"<code>: <detail>"`.

One module per source file:

- Pure files are datatypes, functions and lemmas.
- Server loops are methods proved against a specification function, with a loop invariant such as `acc == F(s[..i])`.
- React components and hooks are classes. Each `useState` value is a field, each handler or settled request is a method stating the whole new state, and each pending timer or in-flight request is a counter or queue. An in-flight request also holds what its handler captured when it was clicked, so a handler settling late acts on that state, not on the current one.
- Multi-step behaviour is stated by scenario methods that build a fresh component and drive it.

Shared modules:

- `Wrappers`: `Option` and `Result`.
- `JsonValue`: JSON values, truthiness, `dict.get` and Python comparisons.
- `Rounding`: both rounding rules.
- `PySlice`: Python slices and offset pages.
- `SeqFilter`: order-preserving filtering.
- `StableSort`: Python's stable `sort(key=...)`.
- `OrderedDict`: insertion-ordered dicts and counters.
- `StringOrder`: code-point order.
- `JsText`: `parseInt`, `trim` and `String(n)`.
- `PyText`: `upper`, `lower` and `capitalize`.
- `HttpErrors`: the 500 rewrapping.

Where the system's documented design and its code disagree, the model follows
the code:

- No fetch discards a stale response.
- A failed rule toggle refetches instead of restoring a snapshot.
- Rule deletion is not optimistic, and a successful delete writes back the list captured at the click, undoing a toggle made meanwhile.
- An analysis's background refresh asks for the category selected when it started, not the one selected when it ends.
- Every filter or page change on the incident list is debounced, not only the search text.
- On the dashboard an empty `results` array counts as a successful analysis.
- Only the disabled button guards against a second analysis start.
- Confidences are not clamped to [0, 100] anywhere.

## Model

| member | source | states |
|---|---|---|
| Rounding.JsRound | frontend/src/components/visuals/ConfidenceRing.jsx:5 | `Math.round`: the integer within half of x, a half going up |
| Rounding.PyRound | backend/core/agent.py:96-97 | Python `round` on a float: the nearest integer, a tie going to the even neighbour |
| Rounding.RoundingsAgreeOffHalves | backend/routes/analytics.py:135-136 | away from half-way points `Math.round` and Python `round` give the same integer |
| Rounding.RoundingsAtHalves | backend/routes/analytics.py:135-136 | at a half-way point JavaScript goes up while Python goes to the even neighbour |
| Rounding.JsRoundMonotone | frontend/src/components/visuals/ConfidenceRing.jsx:5 | `Math.round` never reverses the order of two values |
| Rounding.PyRoundMonotone | backend/routes/groups.py:85 | Python `round` never reverses the order of two values |
| ConfidenceRing.NormalizedScore | frontend/src/components/visuals/ConfidenceRing.jsx:5 | a score in (0, 1] is shown as the nearest whole percentage of 100·score; any other score is shown rounded as it is |
| ConfidenceRing.ColorTier | frontend/src/components/visuals/ConfidenceRing.jsx:11-13 | green iff the raw score is at least 80, blue iff it is in [50, 80), red iff below 50 |
| ConfidenceRing.DefaultShowsZero | frontend/src/components/visuals/ConfidenceRing.jsx:3-5 | a ring given no score shows 0 % |
| ConfidenceRing.NormalizedInRange | frontend/src/components/visuals/ConfidenceRing.jsx:4-5 | every score in [0, 100] is displayed within [0, 100] |
| ConfidenceRing.FractionIsRed | frontend/src/components/visuals/ConfidenceRing.jsx:5-13 | a fractional score is always red, even when it displays 95 % |
| ConfidenceRing.WholeScoreShown | frontend/src/components/visuals/ConfidenceRing.jsx:5 | a whole score is shown as itself, except 1, which shows 100 |
| ConfidenceRing.RenormalizeIsStable | frontend/src/components/visuals/ConfidenceRing.jsx:5 | normalising the displayed percentage again changes nothing unless it is 1 |
| ConfidenceRing.MonotoneOnFractions | frontend/src/components/visuals/ConfidenceRing.jsx:5 | a larger fraction never shows a smaller percentage |
| ConfidenceRing.MonotoneAboveOne | frontend/src/components/visuals/ConfidenceRing.jsx:5 | a larger score above 1 never shows a smaller percentage |
| ConfidenceRing.NotMonotoneAcrossOne | frontend/src/components/visuals/ConfidenceRing.jsx:5 | the display is not monotone across 1: 1.0 shows 100 but 1.5 shows 2 |
| IncidentCanvasCard.Prop | frontend/src/components/cards/IncidentCanvasCard.jsx:9-18 | a destructured prop is the given value when the key is present and the default otherwise |
| IncidentCanvasCard.Destructure | frontend/src/components/cards/IncidentCanvasCard.jsx:9-18 | each of count, root_cause, status, services and route is kept when present, `null` included, and becomes 1, {}, 'OPEN', ['Unknown Service'] or '/api/unknown' when absent |
| IncidentCanvasCard.RawConfidence | frontend/src/components/cards/IncidentCanvasCard.jsx:20 | `root_cause.confidence` throws iff root_cause is `null`; it is the stored value for an object carrying the key and undefined for any other value |
| IncidentCanvasCard.Confidence | frontend/src/components/cards/IncidentCanvasCard.jsx:20 | a missing or zero number is 0; any number at most 1, negatives included, is scaled by 100 and rounded; a larger number is only rounded |
| IncidentCanvasCard.CardConfidence | frontend/src/components/cards/IncidentCanvasCard.jsx:20 | a falsy value gives 0; a truthy value is NaN iff `Number` finds no number in it, and otherwise follows the percentage rule on that number |
| IncidentCanvasCard.NumericConfidence | frontend/src/components/cards/IncidentCanvasCard.jsx:20 | a number is read through the percentage rule unchanged |
| IncidentCanvasCard.CoercedConfidence | frontend/src/components/cards/IncidentCanvasCard.jsx:20 | the text "0.85" is shown as 85 % and `true` as 100 % |
| IncidentCanvasCard.RollbackGate | frontend/src/components/cards/IncidentCanvasCard.jsx:20-21 | rollback is offered iff a fractional confidence is at least 0.695, or a percentage at least 69.5 |
| IncidentCanvasCard.NotANumberNoRollback | frontend/src/components/cards/IncidentCanvasCard.jsx:20-21 | a truthy confidence that is no number gives NaN, and NaN never enables the rollback |
| IncidentCanvasCard.PrimaryService | frontend/src/components/cards/IncidentCanvasCard.jsx:33 | `services[0]` throws iff services is `null`; it is the first item of a list (undefined for an empty one) and the first character of a text |
| IncidentCanvasCard.CauseText | frontend/src/components/cards/IncidentCanvasCard.jsx:46 | it throws iff root_cause is `null`; otherwise the cause when it is truthy and "Analysis pending..." when not |
| IncidentCanvasCard.LineOf | frontend/src/components/cards/IncidentCanvasCard.jsx:104-107 | a log line throws iff the log is `null`; otherwise severity INFO when none is truthy, and `msg` when `message` is falsy |
| IncidentCanvasCard.Lines | frontend/src/components/cards/IncidentCanvasCard.jsx:101-113 | the map throws iff some log is `null`; otherwise one line per log, each that log's own line |
| IncidentCanvasCard.Shown | frontend/src/components/cards/IncidentCanvasCard.jsx:101 | `slice(0, 3)`: the first three logs, or all when fewer |
| IncidentCanvasCard.PreviewSource | frontend/src/components/cards/IncidentCanvasCard.jsx:101 | a falsy logs gives no logs, a list gives its items, and any other truthy value throws |
| IncidentCanvasCard.Preview | frontend/src/components/cards/IncidentCanvasCard.jsx:99-107 | when the card is expanded, it throws iff the logs are truthy and not a list, or one of the first three is `null`; otherwise one line for each of the first three logs, in order |
| IncidentCanvasCard.EmptyPreviewIffNoLines | frontend/src/components/cards/IncidentCanvasCard.jsx:99-116 | when the card is expanded, the "No sample logs" note is shown iff the preview has no line |
| IncidentCanvasCard.RingDisplayAsWritten | frontend/src/components/cards/IncidentCanvasCard.jsx:20-61 | the ring receives the card's percentage and normalises it again, so a percentage of 1 is drawn as 100 |
| IncidentCanvasCard.OnePercentDrawnAsFull | frontend/src/components/cards/IncidentCanvasCard.jsx:20-61 | confidence 0.01 is 1 % on the card and drawn as a full ring |
| IncidentCanvasCard.RingDisplay | frontend/src/components/cards/IncidentCanvasCard.jsx:20-61 | corrected display: the card's own percentage, within [0, 100] for inputs in that range and the rounded 100·c for a fraction c |
| ConfidenceRule.Percent | backend/core/agent.py:94-97 | a non-number or a number above 1 is kept; a number at most 1 becomes a whole percentage, within [0, 100] for a fraction in [0, 1] |
| ConfidenceRule.FractionToPercent | backend/routes/analytics.py:134-136 | a fraction in [0, 1] becomes a percentage in [0, 100] |
| ConfidenceRule.PercentStableFromTwo | backend/core/agent.py:94-97 | applying the rule to a stored percentage of 2 or more changes nothing |
| ConfidenceRule.OnePercentShownAsFull | backend/routes/analytics.py:134-136 | 0.01 is stored as 1, and reading it back through the same rule gives 100 |
| Rounding.JsRoundOfInt | frontend/src/components/visuals/ConfidenceRing.jsx:5 | `Math.round` leaves a whole number unchanged |
| Rounding.PyRoundOfInt | backend/core/agent.py:96-97 | Python `round` leaves a whole number unchanged |
| ConfidenceAgreement.GroupShown | backend/routes/groups.py:85 | the group detail route accepts every numeric confidence |
| ConfidenceAgreement.FractionsAgreeOffHalves | frontend/src/components/visuals/ConfidenceRing.jsx:5 | on (0, 1], away from half points, the ring, the card, the HTML dashboard, the group route and the stored-incident rule all show the same percentage |
| ConfidenceAgreement.HalvesSplit | backend/routes/groups.py:85 | at 0.125 the frontend copies and the HTML dashboard show 13 while the group route and the stored-incident rule show 12 |
| ConfidenceAgreement.WholePercentsAgree | frontend/src/components/cards/IncidentCanvasCard.jsx:20 | a whole percentage from 2 to 100 is shown unchanged by the ring, the card, the group route and the stored-incident rule, while the HTML dashboard multiplies it by 100 |
| ConfidenceAgreement.NegativesSplit | frontend/src/components/visuals/ConfidenceRing.jsx:5 | -0.5 is shown as 0 by the ring but as -50 by the card and the backend |
| ConfidenceAgreement.AboveOneSplit | backend/core/agent.py:95-97 | 85.5 is rounded to 86 by the frontend but passed through as 85.5 by the backend |
| ConfidenceAgreement.TiersSplit | api.py:261-264 | 0.95 is red on the ring, which reads the raw score, and green on the HTML dashboard, which reads the percentage |
| JsonValue.PyGet | backend/routes/groups.py:78-89 | `dict.get` gives the stored value when the key is present and the default otherwise |
| JsonValue.PyGetDict | backend/routes/groups.py:71-85 | a missing key reads as `{}`; a present value that is not a dict makes the next `.get` fail |
| JsonValue.PyNumber | backend/core/agent.py:96 | `isinstance(v, (int, float))` holds exactly for numbers and booleans |
| JsonValue.PyGreater | backend/api.py:75 | `v > x` fails iff v is not a number, and otherwise compares the numbers |
| JsonValue.PyAtMost | backend/routes/groups.py:85 | `v <= x` fails iff v is not a number, and otherwise compares the numbers |
| JsonValue.JsProp | frontend/src/components/cards/IncidentCanvasCard.jsx:20 | on a value that is neither `null` nor undefined, a property read is defined iff the value is an object holding the key |
| JsonValue.JsRead | frontend/src/components/cards/IncidentCanvasCard.jsx:20 | `o.k` throws iff o is `null` or undefined; it is the stored value for an object holding k and undefined otherwise |
| JsonValue.JsFirst | frontend/src/components/cards/IncidentCanvasCard.jsx:33 | `o[0]` throws iff o is `null` or undefined; it is a list's first item, a text's first character, and undefined on a number or boolean |
| JsonValue.JsToNumber | frontend/src/components/cards/IncidentCanvasCard.jsx:20 | `Number(v)`: null is 0, a boolean 0 or 1, a number itself, an object NaN, an empty list 0 and a list of two or more items NaN |
| JsonValue.JsOr | frontend/src/components/cards/IncidentCanvasCard.jsx:46 | `a || b` is a when a is truthy and b otherwise |
| JsonValue.PyFalsyValues | backend/routes/analytics.py:53 | a Python value is falsy iff it is None, False, 0, "", [] or {} |
| JsonValue.JsFalsyValues | frontend/src/components/cards/IncidentCanvasCard.jsx:46 | a JavaScript value is falsy iff it is undefined, null, false, 0 or "" |
| JsonValue.EmptyContainersSplit | frontend/src/components/cards/IncidentCanvasCard.jsx:46 | an empty list or object is truthy in JavaScript and falsy in Python |
| JsonValue.Hashable | backend/routes/analytics.py:53 | a value can be a set member or dict key iff it is None, a boolean, a number or a text |
| HttpErrors.Rewrapped | backend/routes/groups.py:69-92 | an HTTP error raised inside `try` becomes a 500 whose detail is its status, ": " and its detail |
| HttpErrors.NotFoundBecomes500 | backend/routes/groups.py:69-92 | a 404 raised inside `try` reaches the client as a 500 with detail "404: ..." |
| HttpErrors.UnavailableBecomes500 | backend/routes/analysis.py:42-52 | a 503 raised inside `try` reaches the client as a 500 with detail "503: ..." |
| JsonValue.PyLess | api.py:371 | `v < x` fails iff v is not a number, and otherwise compares the numbers |
| PySlice.Bound | backend/routes/groups.py:55-57 | a slice bound counts from the end when negative and is clamped to the list |
| PySlice.Slice | backend/routes/groups.py:55-57 | `s[i:j]` is the stretch between the normalised bounds, empty when they cross |
| PySlice.Take | backend/routes/groups.py:39 | the first n documents, or all when there are fewer |
| PySlice.Page | backend/routes/groups.py:55-57 | `s[(page-1)*limit : page*limit]` never holds more items than the list, nor more than a non-negative `limit` |
| PySlice.MulNonNegative | backend/routes/groups.py:55-57 | the offset of page p ≥ 1 is never negative |
| PySlice.PageZeroIsEmpty | backend/routes/incidents.py:62-64 | page 0 is always empty |
| PySlice.PageWindow | backend/routes/incidents.py:62-64 | page p ≥ 1 is the window [(p-1)·limit, p·limit) cut at the end of the list |
| PySlice.PagesArePrefix | backend/routes/groups.py:55-57 | pages 1..k together are exactly the first k·limit items: no item is on two pages or skipped |
| PySlice.NegativeLimitDropsLast | backend/routes/groups.py:55-57 | limit -1 is not rejected: page 1 is everything but the last item |
| StableSort.WithKey | log_collector.py:183-184 | the items with one key, in list order, are never more than the list |
| StableSort.InsertPermutes | log_collector.py:183-184 | inserting adds exactly the one item |
| StableSort.InsertSorted | log_collector.py:183-184 | inserting into a sorted list keeps it sorted |
| StableSort.SortPermutesAndOrders | log_collector.py:183-184 | `sorted` returns the same items, ordered by key |
| StableSort.WithKeyInsert | log_collector.py:183-184 | inserting an item keeps the relative order of the items sharing a key |
| StableSort.SortIsStable | log_collector.py:183-184 | items with equal keys keep their input order |
| StringOrder.LeTotal | log_collector.py:184 | any two timestamps are comparable |
| StringOrder.LeAntisymmetric | log_collector.py:184 | two texts each at most the other are equal |
| StringOrder.LeTransitive | log_collector.py:184 | text order is transitive |
| StringOrder.LeIsTotalOrder | log_collector.py:184 | Python's text comparison is a total order |
| PyText.LowerAll | backend/workers/alert_worker.py:65 | `lower()` maps each character to its lower case and keeps the length |
| PyText.LowerAllIdempotent | backend/workers/alert_worker.py:65 | lowering twice equals lowering once, so the category test ignores case |
| PyText.CaseMapping | backend/workers/alert_worker.py:65 | `upper()` leaves no lower-case letter and `lower()` no upper-case one; both keep letters letters and leave other characters alone; each undoes the other up to case |
| PyText.Capitalize | backend/routes/analytics.py:154 | `capitalize()` upper-cases the first character and lower-cases the rest |
| PyText.CapitalizeIdempotent | backend/routes/analytics.py:154 | capitalising twice equals capitalising once |
| PyText.CapitalizeIs | backend/routes/analytics.py:154 | a text with that character pattern is the capitalised form |
| JsText.TrimStart | frontend/src/components/forms/RuleEditor.jsx:38-39 | leading white space is removed and nothing else |
| JsText.DigitPrefix | frontend/src/components/forms/RuleEditor.jsx:38-39 | the longest leading run of digits of the radix |
| JsText.ParseInt | frontend/src/components/forms/RuleEditor.jsx:38-39 | `parseInt` gives a number only when the text has a digit |
| JsText.ParseSigned | frontend/src/components/forms/RuleEditor.jsx:38-39 | after the white space a leading `-` or `+` is read as the sign, and a number comes out only when a digit follows |
| JsText.ParseMagnitude | frontend/src/components/forms/RuleEditor.jsx:38-39 | `0x` or `0X` selects base 16, and a number comes out only when the text holds a digit |
| JsText.TrimStartNoSpace | frontend/src/components/forms/RuleEditor.jsx:38-39 | text that does not start with white space is kept whole |
| JsText.ParseIntAfterSpace | frontend/src/components/forms/RuleEditor.jsx:38-39 | `parseInt` skips a leading white-space character |
| JsText.ParseIntOfDecimal | frontend/src/components/forms/RuleEditor.jsx:38-39 | decimal digits with no leading zero read back as their value, and after a `-` as its negation |
| JsText.NatToString | frontend/src/components/cards/AutomationPolicyCard.jsx:22 | `String(n)` is non-empty decimal digits with no leading zero |
| JsText.NatToStringValue | frontend/src/components/cards/AutomationPolicyCard.jsx:22 | the digits of `String(n)` have the value n |
| JsText.DigitPrefixOfDigits | frontend/src/components/forms/RuleEditor.jsx:38-39 | a text made only of digits is its own digit run |
| JsText.ParseIntOfIntToString | frontend/src/pages/DashboardPage.jsx:181 | `parseInt(String(n))` is n for every integer |
| JsText.IntToStringDigits | frontend/src/components/cards/AutomationPolicyCard.jsx:22 | `String(n)` is non-empty decimal digits with the value n, preceded by `-` for a negative n |
| JsText.DigitPrefixStops | frontend/src/components/forms/RuleEditor.jsx:38-39 | the digit run stops at the first non-digit |
| JsText.ParseIntOfLeadingNumber | api.py:203-204 | a text starting with `String(n)` and a space reads back as n |
| JsText.TruncToward0 | frontend/src/components/forms/RuleEditor.jsx:38-39 | the integer part of a number: the greatest integer at most x for x ≥ 0 and the least integer at least x below 0 |
| JsText.ParseIntOfNumber | frontend/src/components/forms/RuleEditor.jsx:38-39 | `parseInt(String(x))`: the integer part for a number printed in plain decimal, and the signed first significant digit from 10^21 up or below 10^-6 in size |
| JsText.LeadingDigitAbove | frontend/src/components/forms/RuleEditor.jsx:38-39 | the first significant digit of a number at least 1 is one of 1..9 |
| JsText.LeadingDigitBelow | frontend/src/components/forms/RuleEditor.jsx:38-39 | the first significant digit of a number in (0, 1) is one of 1..9 |
| JsText.LeadingDigit | frontend/src/components/forms/RuleEditor.jsx:38-39 | the first significant digit of a positive number is one of 1..9 |
| JsText.ScaleMonotone | frontend/src/components/forms/RuleEditor.jsx:38-39 | multiplying by 10^k keeps a number at least 1 at least itself and keeps the order of two such numbers |
| JsText.ScaleAdd | frontend/src/components/forms/RuleEditor.jsx:38-39 | scaling by 10^(a+b) is scaling by 10^a and then by 10^b |
| JsText.LeadingDigitScaled | frontend/src/components/forms/RuleEditor.jsx:38-39 | multiplying by a power of ten keeps the first significant digit |
| JsText.ExponentFormsParse | frontend/src/components/forms/RuleEditor.jsx:38-39 | a number d·10^k with k ≥ 21 parses as the whole part of d: 5e21 gives 5, and 1e-7 gives 1 |
| JsText.ParseIntNaN | frontend/src/components/forms/RuleEditor.jsx:38-39 | `parseInt` is NaN iff, after white space and sign, no decimal digit comes first or a `0x` prefix has no hexadecimal digit after it |
| JsText.DigitValue | frontend/src/components/forms/RuleEditor.jsx:38-39 | a character's digit value is below 16, and -1 for a character that is no digit |
| JsText.DigitChar | frontend/src/components/cards/AutomationPolicyCard.jsx:22 | the character printed for a decimal digit has that digit's value |
| JsText.LastChars | frontend/src/components/cards/AutomationPolicyCard.jsx:22 | `slice(-k)` gives the last k characters, or the whole text when shorter |
| JsText.Repeat | frontend/src/components/cards/AutomationPolicyCard.jsx:22 | n copies of the pad character |
| JsText.PadStart | frontend/src/components/cards/AutomationPolicyCard.jsx:22 | `padStart(k, c)` keeps the text as the suffix and fills the front with c up to length k |
| SeqFilter.Filter | backend/routes/groups.py:42-53 | a filter never lengthens the list |
| SeqFilter.FilterMembers | backend/routes/groups.py:42-53 | an item survives iff it was listed and passes the test |
| SeqFilter.FilterAppend | backend/routes/groups.py:42-53 | filtering a concatenation filters each part, so survivors keep their order |
| SeqFilter.FilterSnoc | backend/routes/groups.py:42-53 | one more input item adds that item or nothing, which is what each loop step does |
| SeqFilter.FilterIdempotent | backend/routes/incidents.py:42-60 | filtering twice equals filtering once |
| SeqFilter.FilterKeepsAll | backend/routes/groups.py:42-53 | when every item passes, nothing is dropped |
| SeqFilter.FilterAgree | backend/routes/groups.py:42-53 | two tests that agree on every item keep the same items |
| OrderedDict.Keys | backend/routes/analytics.py:150 | a dict's keys in insertion order |
| OrderedDict.Values | backend/routes/analytics.py:147 | a dict's values in insertion order |
| OrderedDict.Find | backend/routes/analytics.py:126 | the position of the only entry with the key, or -1 when absent |
| OrderedDict.Put | log_collector.py:174-180 | `d[k] = v`: an existing key keeps its place, a new key goes last, other entries are untouched |
| OrderedDict.Bump | backend/routes/analytics.py:126-130 | `d[k] = d.get(k, 0) + n` raises that key's value by n and adds the key at most once |
| OrderedDict.TotalUpdate | backend/routes/analytics.py:126 | replacing one entry changes the sum of values by the difference |
| OrderedDict.TotalAfterBump | backend/routes/analytics.py:126-130 | each bump raises the sum of values by exactly n |
| OrderedDict.FindUnique | backend/routes/analytics.py:126 | with distinct keys the entry holding the key is the one found |
| OrderedDict.GetStored | backend/routes/analytics.py:126 | `d.get(k, default)` is the value stored under k when an entry holds it, and the default when none does |
| OrderedDict.TotalBoundsEach | backend/routes/analytics.py:130 | with non-negative values the sum is non-negative and at least each value |
| OrderedDict.TotalAfterPut | backend/routes/analytics.py:126-130 | setting a key changes the sum by the new value less the old one, read as 0 for a new key |
| OrderedDict.PutPresent | log_collector.py:174-180 | setting a present key rewrites its entry in place |
| OrderedDict.PutAbsent | log_collector.py:174-180 | setting an absent key appends its entry at the end |
| OrderedDict.PutOther | log_collector.py:174-180 | setting one key leaves every other key's value alone |
| OrderedDict.PutSame | log_collector.py:174-180 | reading back the key just set gives its new value |
| OrderedDict.BumpOther | backend/routes/analytics.py:126-130 | bumping one key leaves every other key's value alone |
| OrderedDict.PutKeepsOthers | log_collector.py:174-180 | setting one key leaves the value of every other key alone |
| OrderedDict.BumpKeepsOthers | backend/routes/analytics.py:126-130 | bumping one key leaves the value of every other key alone |
| GroupsRoute.FilterGroups | backend/routes/groups.py:41-52 | the loop keeps exactly the documents passing the status and category filters, in query order |
| GroupsRoute.ListGroups | backend/routes/groups.py:17-60 | no database is a 503; a failing query gives []; otherwise the requested page of the filtered first 200 documents |
| GroupsRoute.AllFilterKeepsEverything | backend/routes/groups.py:46-50 | a filter that is absent, empty or 'ALL' drops nothing |
| GroupsRoute.ListedIffKept | backend/routes/groups.py:39-52 | a group is listed iff it is among the first 200 and passes both filters |
| GroupsRoute.StatusFilterIsExact | backend/routes/groups.py:46-47 | a status filter returns only groups whose status is exactly that value |
| GroupsRoute.DetailConfidence | backend/routes/groups.py:85 | a missing confidence is 0; a number at most 1 is scaled by 100 and rounded half-to-even; a larger number passes through; a non-number makes the comparison fail |
| GroupsRoute.DetailView | backend/routes/groups.py:74-90 | the view has exactly the eleven keys, status OPEN, severity from priority (default P2), count from occurrence_count (default 1) and name from the cause (default "Unknown Anomaly") |
| GroupsRoute.GroupDetail | backend/routes/groups.py:62-92 | no database is a 503; a failing query is a 500; an unknown group is a 500 carrying the 404 text; a found group succeeds iff its analysis is a dict and its confidence a number, and then the reply is the detail view of that incident with its analysis and normalised confidence; every error is a 500 or 503 |
| GroupsRoute.UnknownGroupIs500 | backend/routes/groups.py:68-92 | an unknown group id reaches the client as 500 "404: Group not found" |
| GroupsRoute.DetailDefaults | backend/routes/groups.py:78-85 | a document with no priority, count or analysis shows severity P2, count 1 and confidence 0 |
| GroupsRoute.StringConfidenceIs500 | backend/routes/groups.py:85-92 | a text confidence makes the comparison raise, which surfaces as a 500 |
| GroupsRoute.Playbook | backend/routes/groups.py:94-103 | every group gets the same three playbook steps |
| IncidentsRoute.Summary | backend/routes/incidents.py:50-59 | a listed incident has exactly the eight keys, its document id, the timestamp under both names and status defaulting to OPEN |
| IncidentsRoute.Summaries | backend/routes/incidents.py:50-59 | one summary per document, in order |
| IncidentsRoute.CollectIncidents | backend/routes/incidents.py:39-59 | the loop collects the summaries of exactly the documents passing the group and category filters, in order |
| IncidentsRoute.ListIncidents | backend/routes/incidents.py:17-66 | no database is a 503; a failing query gives []; otherwise the requested page of the filtered summaries of the first 300 documents |
| IncidentsRoute.GroupFilterIsExact | backend/routes/incidents.py:44-45 | filtering by a group returns only incidents of that trace |
| IncidentsRoute.KeptIncidentListed | backend/routes/incidents.py:40-59 | every incident passing the filters appears in the full listing |
| IncidentsRoute.DetailView | backend/routes/incidents.py:78-87 | the detail has exactly the eight keys, status OPEN, analysis defaulting to {} and logs to [] |
| IncidentsRoute.IncidentDetail | backend/routes/incidents.py:68-89 | no database is a 503; a failing read is a 500; a missing document is a 500 carrying the 404 text; otherwise the detail view |
| IncidentsRoute.StoredStatusIgnored | backend/routes/incidents.py:57-86 | a RESOLVED incident is listed as RESOLVED but its detail says OPEN |
| LogCollector.LevelAt | log_collector.py:45 | the level alternative matching at a position, tried in the pattern's order, or none when no level and marker start there |
| LogCollector.LineEnd | log_collector.py:45 | the end of the current line, since `.` does not match a newline |
| LogCollector.LineEndOfLine | log_collector.py:45 | with no newline ahead, the line runs to the end of the text |
| LogCollector.LastBrace | log_collector.py:45 | the last `}` in range, where the greedy `.+\}` stops |
| LogCollector.MatchAt | log_collector.py:45 | a match at a position is a level, the marker and a braced text on one line |
| LogCollector.Search | log_collector.py:45 | the scan from a position finds a match whose start is at or after it, or none |
| LogCollector.Matches | log_collector.py:45 | the match attempt at every start position of the text, one per position including the end |
| LogCollector.FirstMatchLeftmost | log_collector.py:45 | the first found attempt is found at some position with nothing found before it, and nothing is found iff every attempt fails |
| LogCollector.SearchIsFirstMatch | log_collector.py:45 | the scan gives the first successful attempt from its start position |
| LogCollector.SearchLeftmost | log_collector.py:45 | `re.search`: a match found is the one at the leftmost position where the pattern matches, and none is found iff the pattern matches at no position |
| LogCollector.Parse | log_collector.py:31-72 | no record for a non-text payload, a payload without the pattern, text that is not a JSON object or a falsy trace_id; a record has exactly the nine keys, its trace id, and the level of the text prefix as severity |
| LogCollector.PrefixedPayloadMatches | log_collector.py:45-51 | a one-line payload `LEVEL:cloud-rca:{body}` matches at its start with that level and the whole braced text |
| LogCollector.SeverityFromPrefix | log_collector.py:36-69 | the parsed severity is the level of the text prefix whatever the platform's severity is |
| LogCollector.Parsed | log_collector.py:175-179 | the kept parses are never more than the entries |
| LogCollector.ParsedPrefix | log_collector.py:175-179 | the parses of a prefix of the entries are a prefix of all parses |
| LogCollector.Append | log_collector.py:180 | appending to a trace's list keeps one list per trace id |
| LogCollector.Grouped | log_collector.py:171-180 | the grouping fails, with TypeError, iff some trace id cannot be a dict key; otherwise each trace id has one list |
| LogCollector.SumLengthsUpdate | log_collector.py:180 | replacing one trace's list changes the total length by the difference |
| LogCollector.SumLengths | log_collector.py:126 | `sum(len(logs) ...)` is at least the length of every trace's list |
| LogCollector.AppendAddsOne | log_collector.py:180 | each append makes the lists one entry longer in all |
| LogCollector.GroupsAreExact | log_collector.py:171-180 | the list of a trace id is exactly the parsed entries carrying that id, in arrival order |
| LogCollector.GroupSizesAddUp | log_collector.py:171-180 | the lists' lengths add up to the number of parsed entries |
| LogCollector.SortLogs | log_collector.py:183-184 | the sort fails with TypeError iff there are two or more logs and one lacks a text timestamp; otherwise it is a permutation sorted by timestamp |
| LogCollector.SortKeepsArrivalOrder | log_collector.py:183-184 | logs with the same timestamp keep their arrival order |
| LogCollector.SortAll | log_collector.py:183-184 | every trace's list is sorted, under the same trace ids in the same order, unless some sort fails |
| LogCollector.ParsedStep | log_collector.py:175-179 | one more entry adds its parse when it is kept and nothing otherwise |
| LogCollector.GroupedSnoc | log_collector.py:180 | grouping one more entry is one append to the previous grouping |
| LogCollector.UnhashableTraceFails | log_collector.py:178-180 | a single trace id that cannot be a key makes the whole grouping fail |
| LogCollector.GroupEntries | log_collector.py:171-180 | the loop's result is the grouping of the kept parses, with the number of entries seen and of entries parsed |
| LogCollector.SortGroups | log_collector.py:183-184 | the loop sorts every list in place, as `SortAll` states |
| LogCollector.FetchLogs | log_collector.py:171-195 | the fetch returns the grouped and sorted traces, or the first error, and counts the entries seen and parsed |
| LogCollector.CountPositive | log_collector.py:105-115 | a severity count is positive iff some log has that severity |
| LogCollector.LevelCountsAddUp | log_collector.py:105-110 | the four counts plus the logs of no level add up to the log count |
| LogCollector.SeverityCountsCoverLogs | log_collector.py:105-113 | the four counts never exceed the log count and equal it iff every log has one of the four levels |
| LogCollector.ParsedSeverityIsLevel | log_collector.py:45-69 | every parsed log has one of the four levels |
| LogCollector.LevelCounts | log_collector.py:105-110 | the counts are kept under exactly ERROR, WARNING, INFO and CRITICAL |
| LogCollector.Metadata | log_collector.py:103-119 | a log without severity raises KeyError('severity') first, then one without timestamp KeyError('timestamp'); otherwise the six keys, the log count, the counts, and the first and last timestamps (None for no logs) |
| LogCollector.SeverityOf | log_collector.py:106-109 | `log["severity"]` is the stored severity whenever the log has one |
| LogCollector.HasErrorsIffSevere | log_collector.py:115 | `has_errors` is true iff some log is ERROR or CRITICAL |
| LogCollector.ParsedLogsHaveMetadata | log_collector.py:62-119 | the metadata of parsed logs never raises |
| LogCollector.MetadataAll | log_collector.py:101-119 | the saved traces are under the same trace ids in the same order |
| LogCollector.MetadataOfEachTrace | log_collector.py:103-119 | each saved trace holds that trace's own metadata |
| LogCollector.MetadataFails | log_collector.py:103-119 | one trace whose metadata raises makes the save raise |
| LogCollector.MetadataErrorPersists | log_collector.py:103-119 | the first error stops the loop, so later traces do not change it |
| LogCollector.DataPath | log_collector.py:98 | `os.path.join`: an absolute name replaces the data directory, any other is put inside it |
| LogCollector.SaveLogs | log_collector.py:75-128 | the save fails iff some trace's metadata fails, with that error; otherwise it records the path, the project and service, the number of traces, the total of logs and each trace's metadata |
| LogCollector.SumLengthsPointwise | log_collector.py:126 | lists of equal lengths have equal totals |
| LogCollector.FetchedTotals | log_collector.py:183-193 | the saved total_logs of a fetch is its number of parsed entries and total_traces its number of trace ids |
| LogCollector.EnsureJson | log_collector.py:95-96 | the name ends in `.json`: unchanged when it already did, suffixed otherwise |
| LogCollector.EnsureJsonIdempotent | log_collector.py:95-96 | applying the suffix rule a second time changes nothing |
| LogCollector.FileName | log_collector.py:90-96 | no name gives `logs_<stamp>.json`; a given name gets the suffix rule |
| LogCollector.ListSaved | log_collector.py:223-241 | no directory gives []; otherwise a file is listed iff it is in the directory and ends in `.json` |
| LogCollector.SavedFileListed | log_collector.py:223-229 | a file the collector saved is listed |
| BackendApi.Analyze | backend/api.py:23-33 | the pipeline's reply is returned as it is, and any exception it raises becomes a 500 |
| BackendApi.Caught | backend/api.py:43-56 | an HTTP error raised inside the `try` becomes a 500 whose detail is the prefix followed by its status and detail |
| BackendApi.First | backend/api.py:40-56 | a failing query is a 500 with the prefix; an empty result is a caught 404, hence a 500; otherwise the first document |
| BackendApi.Projected | backend/api.py:46-56 | an exception raised while building the answer becomes a 500 carrying the prefix |
| BackendApi.RootCause | backend/api.py:35-56 | the answer exists iff the query succeeds, finds a document and its analysis is a dict; it holds the trace id with the analysis's cause, category and confidence; every error is a 500 |
| BackendApi.UnknownTraceIs500 | backend/api.py:43-56 | an unknown trace id is answered with 500 "Database Error: 404: Incident not found in database." |
| BackendApi.HealingStatus | backend/api.py:75 | "Eligible" iff the confidence is a number above 0.8, "Review Required" for another number or a missing one; a non-number raises TypeError |
| BackendApi.Suggestions | backend/api.py:58-78 | the answer exists iff the query finds a document whose analysis is a dict with a comparable confidence; it holds the suggestion, priority (default P2) and healing status; every error is a 500 |
| BackendApi.EligibleIffAutoResolved | backend/api.py:75 | an incident stored by the backend agent is Eligible exactly when that agent marked it AUTO-RESOLVED |
| BackendApi.PercentRecordsLookEligible | backend/api.py:75 | a 50 % confidence stored as the percentage 50 reads as Eligible, while the backend agent leaves 0.5 for review |
| BackendApi.Impact | backend/api.py:80-99 | the answer exists iff the query finds a document; the breach flag defaults to false and the count to 1; every error is a 500 |
| BackendApi.ImpactDefaults | backend/api.py:91-97 | a document with neither flag nor count shows no breach and one occurrence |
| BearerUser.RemoveAll | backend/routes/analysis.py:33 | `replace(w, '')` never lengthens the text |
| BearerUser.NoOccurrenceKept | backend/routes/analysis.py:33 | a text without the scheme is left as it is |
| BearerUser.LeadingOccurrenceDropped | backend/routes/analysis.py:33 | a leading scheme is dropped and the rest is processed the same way |
| BearerUser.InnerSchemeRemoved | backend/routes/chat.py:30 | every occurrence of "Bearer " is removed, not only the prefix: "Bearer xBearer y" gives the token "xy" |
| BearerUser.UserId | backend/routes/analysis.py:29-38 | the default user unless the header starts with "Bearer " and its token decodes to an object with a user_id, which is then the user; every decoding failure leaves the default |
| BearerUser.BearerTokenDecoded | backend/routes/chat.py:27-32 | for `Bearer <t>` the user is the user_id that t decodes to |
| BearerUser.OtherSchemesIgnored | backend/routes/chat.py:28 | a lower-case "bearer" or another scheme is never decoded |
| AnalysisRoute.Start | backend/routes/analysis.py:25-52 | a missing pipeline is a 500 carrying the 503 text; the pipeline runs for the header's user and its result passes through; any exception is a 500 |
| AnalysisRoute.UnavailableIs500 | backend/routes/analysis.py:41-52 | a missing pipeline is answered with 500 "503: Analysis service not available" |
| AnalysisRoute.Status | backend/routes/analysis.py:54-57 | every task reports completed with progress 100 |
| ChatRoute.Chat | backend/routes/chat.py:21-41 | a missing chatbot is a 503 before the header is read; the reply for the header's user passes through; any exception is a 500 |
| ChatRoute.UnavailableAnswersDiffer | backend/routes/chat.py:24-25 | a missing service gives 503 on the chat route but 500 on the analysis route |
| BackendAgent.Messages | backend/agent.py:45 | one message per log, in order |
| BackendAgent.Counter | backend/agent.py:43-46 | `Counter` fails with TypeError iff some message cannot be a key; otherwise each message is counted as often as it occurs, and the counts add up to the number of messages |
| BackendAgent.CounterStep | backend/agent.py:46 | counting one more message keeps every count equal to its number of occurrences |
| BackendAgent.PatternCountsSumToLogCount | backend/agent.py:94-95 | the pattern counts of a trace add up to its number of logs |
| BackendAgent.Coerce | backend/agent.py:102-105 | a number converts as it is, text that `float()` reads converts to that value, and anything else becomes 0.0 |
| BackendAgent.Status | backend/agent.py:136 | AUTO-RESOLVED iff the confidence exceeds 0.8, PENDING_REVIEW otherwise |
| BackendAgent.Record | backend/agent.py:122-137 | the stored incident has exactly its keys, the trace id, the log count, the status from the confidence, priority defaulting to P2, correlation to N/A, security_alert to false, and an analysis of cause, category, action and the coerced confidence |
| BackendAgent.ProcessTrace | backend/agent.py:89-144 | a failing pattern count raises; a falsy reply gives None; a truthy reply that is not a dict raises; a dict reply is escalated when long, recorded iff there is a database, and returned |
| BackendAgent.StatusFollowsConfidence | backend/agent.py:102-136 | a recorded trace is AUTO-RESOLVED exactly when its coerced confidence exceeds 0.8; an unreadable confidence counts as 0.0 and leaves it for review |
| BackendAgent.LongTraceEscalated | backend/agent.py:108-128 | a trace of more than five logs is stored with priority "P0 (Auto-Escalated)" |
| BackendAgent.RunAnalysis | backend/agent.py:147-176 | a missing mock file gives no results and "No logs found"; otherwise at most one result, reported iff the trace was analysed |
| BackendAgent.Report | backend/agent.py:160-176 | one result, naming the trace and its log count, when there is an analysis, none otherwise |
| CoreAgent.Escalate | backend/core/agent.py:87 | more than five logs set priority "P0 (Auto-Escalated)" on a dict reply and raise TypeError on any other; five or fewer change nothing |
| CoreAgent.Normalise | backend/core/agent.py:95-98 | only the confidence changes, to the percentage rule applied to it (missing reads as 0) |
| CoreAgent.Context | backend/core/agent.py:91 | the stored context is the first 20 logs, in order |
| CoreAgent.Record | backend/core/agent.py:92-112 | the stored incident has exactly its keys, the trace id, time, status OPEN, the log count, the first log's service (default 'unknown'), the context logs, priority defaulting to P2, correlation to N/A and the normalised analysis |
| CoreAgent.ProcessTrace | backend/core/agent.py:83-115 | it raises iff a truthy reply that is not a dict meets a trace of more than five logs; there is an analysis iff the reply is truthy; it is recorded iff there is a database and the reply is a dict |
| CoreAgent.LongTraceEscalated | backend/core/agent.py:87-107 | a trace of more than five logs is handed back, and stored, with priority "P0 (Auto-Escalated)" |
| CoreAgent.NoDbKeepsRaw | backend/core/agent.py:86-114 | without a database a short trace's analysis is the reply itself, confidence not normalised |
| CoreAgent.StoredConfidenceIsPercent | backend/core/agent.py:95-98 | with a database a fractional confidence is stored as a whole percentage in [0, 100] and a missing one as 0 |
| CoreAgent.ZeroStaysZero | backend/core/agent.py:95-98 | a confidence of 0 stays 0 |
| CoreAgent.CredentialError | backend/core/agent.py:127-142 | the call goes on iff credentials were found with a non-empty token |
| CoreAgent.Selected | backend/core/agent.py:151 | `list(traces.items())[:max_traces]` is a prefix of the traces: all of them for None, the first `max_traces` (or all when fewer) for a non-negative bound, and all but the last `-max_traces` for a negative one |
| CoreAgent.Outcomes | backend/core/agent.py:150-153 | one outcome per selected trace, each that trace's own processing |
| CoreAgent.Gather | backend/core/agent.py:155 | every outcome, in order, or an exception raised by one of them |
| CoreAgent.Stored | backend/core/agent.py:100-155 | at most one record per processed trace, and a record is written iff some trace's processing produced it |
| CoreAgent.StoredAppend | backend/core/agent.py:150-155 | the records of two runs of outcomes are the first run's followed by the second's |
| CoreAgent.NothingToStore | backend/core/agent.py:100-114 | outcomes that produce no record write nothing |
| CoreAgent.NoDatabaseStoresNothing | backend/core/agent.py:100-114 | without a database no record is written, whatever the replies |
| CoreAgent.ResultOf | backend/core/agent.py:161-172 | a result has exactly its ten keys, the trace id, its log count, and each other key copied from its analysis key, `None` when the analysis lacks it |
| CoreAgent.ReportedAsStored | backend/core/agent.py:87-172 | with a database the reported confidence is the stored one, and a trace of more than five logs is reported with priority "P0 (Auto-Escalated)" |
| CoreAgent.ResultsOf | backend/core/agent.py:158-172 | one result per trace, in order |
| CoreAgent.Results | backend/core/agent.py:158-172 | never more results than analysed traces |
| CoreAgent.FormatResults | backend/core/agent.py:158-172 | the loop builds exactly the results of `Results` |
| CoreAgent.RunAnalysis | backend/core/agent.py:118-178 | no database, a credential error or any exception gives no results with an error text; no traces gives {"results": []}; otherwise the results of the analysed traces and the records written |
| CoreAgent.ResultsNameAnalysedTraces | backend/core/agent.py:159-172 | the i-th result names the i-th trace that has an analysis |
| CoreAgent.AnalysedTraceReported | backend/core/agent.py:159-172 | every trace with an analysis is reported |
| AlertWorker.CategoryOf | backend/workers/alert_worker.py:62 | the category, 'unknown' when the analysis or its category is missing; an analysis that is not a dict makes `.get` raise |
| AlertWorker.RuleMatchIgnoresCase | backend/workers/alert_worker.py:65 | whether a rule matches does not change when the incident's category is lower-cased first |
| AlertWorker.RuleOutcome | backend/workers/alert_worker.py:64-81 | a rule whose category equals the incident's, ignoring case, sends one alert named after the rule when a recipient is set; a category that is not text, or a matching rule without a name, raises |
| AlertWorker.ThresholdIgnored | backend/workers/alert_worker.py:64-65 | a rule's threshold and time window play no part in matching |
| AlertWorker.MatchRules | backend/workers/alert_worker.py:64-81 | at most one alert per rule, and none without a recipient |
| AlertWorker.Alerts | backend/workers/alert_worker.py:66-81 | one request per rule, in rule order, each named after its rule |
| AlertWorker.RuleLoopRuns | backend/workers/alert_worker.py:64-81 | the rule loop ends without an exception iff every rule has a text category and, when it matches, a name |
| AlertWorker.RuleLoopSends | backend/workers/alert_worker.py:64-81 | a rule loop that ends with a recipient set sends the requests of exactly the matching rules, in order |
| AlertWorker.OneRequestPerMatch | backend/workers/alert_worker.py:64-81 | with a recipient set, the loop ends without an exception iff every rule can be read, and then sends exactly one request per rule matching the category, in rule order, none for the others |
| AlertWorker.IncidentOutcomeBounds | backend/workers/alert_worker.py:62-81 | an analysis that is not a dict raises before any rule is read; no recipient sends nothing; never more requests than rules |
| AlertWorker.IncidentSends | backend/workers/alert_worker.py:62-81 | with a recipient and a text category, an incident is handled without an exception iff every rule can be read, and then sends one request per matching rule, in rule order |
| AlertWorker.PassStep | backend/workers/alert_worker.py:54-83 | the processed set only grows, and nothing happens after an exception |
| AlertWorker.PassOver | backend/workers/alert_worker.py:54-83 | a pass only adds to the processed set |
| AlertWorker.CompletedPassMarksAll | backend/workers/alert_worker.py:83 | a pass that completes marks every incident it read |
| AlertWorker.ProcessedAreSkipped | backend/workers/alert_worker.py:58-59 | incidents already processed send nothing and mark nothing new |
| AlertWorker.NoRepeatAfterCompletedPass | backend/workers/alert_worker.py:58-83 | after a completed pass the same incidents send nothing on the next |
| AlertWorker.FailedIncidentRetried | backend/workers/alert_worker.py:64-83 | an exception while matching leaves the incident unmarked, so the next pass sends its alerts again |
| AlertWorker.Worker.constructor | backend/workers/alert_worker.py:14-18 | a new worker is stopped, has no loop, nothing processed and nothing sent |
| AlertWorker.Worker.Start | backend/workers/alert_worker.py:20-26 | the worker runs, and a loop is created only when it was not already running |
| AlertWorker.Worker.Stop | backend/workers/alert_worker.py:28-30 | the worker stops and nothing else changes |
| AlertWorker.Worker.MatchIncident | backend/workers/alert_worker.py:64-81 | the alerts of `MatchRules` are sent and its exception reported |
| AlertWorker.Worker.ProcessIncident | backend/workers/alert_worker.py:54-83 | one turn of the incident loop does what `PassStep` states |
| AlertWorker.Worker.RunPass | backend/workers/alert_worker.py:54-83 | the incident loop reaches the processed set and alerts of `PassOver` |
| AlertWorker.Worker.CheckAndTrigger | backend/workers/alert_worker.py:40-83 | no database or no enabled rule does nothing; a failing query raises; otherwise the pass over the latest incidents |
| AlertWorker.Worker.LoopTurn | backend/workers/alert_worker.py:32-38 | the loop goes on while running and catches the pass's exception; a running worker's turn leaves processed ids and outbox as they were when there is no database, no enabled rule or a failing query, and otherwise marks and mails exactly as the pass over the latest incidents does; a stopped worker does nothing |
| AlertWorker.MatchRulesErrorPersists | backend/workers/alert_worker.py:64-81 | an exception ends the rule loop, so later rules change nothing |
| AlertWorker.PassErrorPersists | backend/workers/alert_worker.py:54-83 | an exception ends the pass, so later incidents change nothing |
| AlertWorker.StartTwice | backend/workers/alert_worker.py:20-25 | starting twice creates one loop |
| AlertWorker.StopEndsLoop | backend/workers/alert_worker.py:28-33 | after stop the loop's next turn ends it without sending anything |
| Analytics.HealthScore | backend/routes/analytics.py:57-58 | at least 0 and at least 100 − 2·active − 10·critical; at most 100, reached iff nothing is open; 0 iff the penalties reach 100 |
| Analytics.HealthNonIncreasing | backend/routes/analytics.py:58 | more open or critical incidents never raise the score |
| Analytics.CriticalWeighsFive | backend/routes/analytics.py:58 | one critical incident weighs as much as five open ones |
| Analytics.ConfidenceOf | backend/routes/analytics.py:51 | reading the confidence fails iff the analysis is not a dict |
| Analytics.ScanStep | backend/routes/analytics.py:49-53 | one document raises iff its analysis is not a dict, its confidence is not a number or its truthy service name cannot go in a set; otherwise it appends at most one confidence, which is positive, and the services become the old ones plus its truthy service name |
| Analytics.Scan | backend/routes/analytics.py:47-53 | never more confidences or services than documents, and every kept confidence is positive |
| Analytics.PositiveConfidence | backend/routes/analytics.py:51-52 | a document contributes its confidence only when it is a number above 0 |
| Analytics.PositiveConfidences | backend/routes/analytics.py:49-52 | never more confidences than documents |
| Analytics.ScannedConfidences | backend/routes/analytics.py:49-55 | when the loop completes, the averaged confidences are exactly the positive numeric confidences, in document order |
| Analytics.AddOne | backend/routes/analytics.py:53 | adding one service name grows the set by at most one |
| Analytics.ScanErrorPersists | backend/routes/analytics.py:47-53 | once the loop raises, later documents change nothing |
| Analytics.ScanFailsIff | backend/routes/analytics.py:47-77 | the summary falls back iff one of the documents makes the loop raise |
| Analytics.ScannedServices | backend/routes/analytics.py:53-66 | a name is among the services iff some document names it and it is truthy, so impactedServices counts exactly the distinct truthy service names |
| Analytics.ScanRecent | backend/routes/analytics.py:47-53 | the loop computes `Scan` |
| Analytics.SumBounds | backend/routes/analytics.py:55 | a sum of values within [lo, hi] lies within n·lo and n·hi |
| Analytics.Average | backend/routes/analytics.py:55 | no confidences give 0; otherwise the result is within one half of the mean of the confidences |
| Analytics.MeanWithin | backend/routes/analytics.py:55 | a total between n·lo and n·hi has its mean between lo and hi |
| Analytics.AverageWithin | backend/routes/analytics.py:55 | the average confidence lies between the rounded least and greatest confidence |
| Analytics.AveragePercent | backend/routes/analytics.py:55 | when every confidence is a percentage, so is the average |
| Analytics.SummaryOf | backend/routes/analytics.py:23-77 | no database is a 503; a failing query or loop gives the fallback summary; otherwise the counts, health score, average confidence and number of services |
| Analytics.WindowOf | backend/routes/analytics.py:85-94 | "24h" groups by hour; "30d" spans 720 hours; anything else is seven days by day |
| Analytics.CountOf | backend/routes/analytics.py:108-109 | the timestamped documents are never more than the documents |
| Analytics.TallyStep | backend/routes/analytics.py:106-144 | the tallies stay well formed; a document without a truthy timestamp changes nothing; a counted one adds one to the status total and one risk point |
| Analytics.TallyStepOutcome | backend/routes/analytics.py:106-144 | a turn raises iff the incident has a truthy timestamp and its timestamp does not parse (ValueError), its occurrence count is not a number, its service or status cannot be a dict key, or its analysis is not a dict; a counted incident that passes is recorded under its bucket label with its occurrences, service, status and risk point |
| Analytics.Record | backend/routes/analytics.py:119-144 | one counted incident adds its occurrences to its bucket's errors and one to its anomalies, its occurrences to its service's total, one to its status's count and to the status total, and appends its risk point |
| Analytics.AddToBucket | backend/routes/analytics.py:119-122 | the bucket labelled `key` gains n errors and one anomaly, created empty when new; every other bucket is unchanged |
| Analytics.RecordKeepsOtherBuckets | backend/routes/analytics.py:119-122 | recording leaves every other bucket as it was |
| Analytics.RecordKeepsOtherServices | backend/routes/analytics.py:125-126 | recording leaves every other service's total as it was |
| Analytics.RecordKeepsOtherStatuses | backend/routes/analytics.py:128-130 | recording leaves every other status's count as it was |
| Analytics.KeysPrefixKept | backend/routes/analytics.py:103-130 | adding a key keeps the first three status keys in place |
| Analytics.Aggregate | backend/routes/analytics.py:106-144 | the tallies stay well formed through the loop: distinct keys and the three default statuses first |
| Analytics.AggregateErrorPersists | backend/routes/analytics.py:106-144 | once the loop raises, later documents change nothing |
| Analytics.TallyCounts | backend/routes/analytics.py:106-144 | every timestamped incident is counted once in the status distribution and gives one risk point |
| Analytics.AggregateLast | backend/routes/analytics.py:106-144 | a loop that succeeds also succeeded on all but the last incident, and its last turn is one `TallyStep` |
| Analytics.StepBucket | backend/routes/analytics.py:119-122 | one turn adds the incident's occurrences and one anomaly to the bucket of its label and nothing to any other |
| Analytics.TrendErrors | backend/routes/analytics.py:119-121 | a bucket's errors are the summed occurrences of the incidents labelled with it |
| Analytics.TrendAnomalies | backend/routes/analytics.py:119-122 | a bucket's anomalies are the number of incidents labelled with it |
| Analytics.TrendBuckets | backend/routes/analytics.py:119-122 | every bucket holds the summed occurrences and the number of its incidents; a label no incident has reads as empty |
| Analytics.StepService | backend/routes/analytics.py:125-126 | one turn adds a counted incident's occurrences to its own service and nothing to any other |
| Analytics.ServiceTotals | backend/routes/analytics.py:125-126 | every service's total is the summed occurrences of its counted incidents |
| Analytics.StepStatus | backend/routes/analytics.py:128-130 | one turn adds one to a counted incident's own status and nothing to any other |
| Analytics.StatusCounts | backend/routes/analytics.py:128-130 | every status's count is the number of counted incidents with it |
| Analytics.EmptyStatusCounts | backend/routes/analytics.py:103 | before the loop every status counts zero |
| Analytics.RiskMatrixContents | backend/routes/analytics.py:132-144 | the risk matrix is the risk points of the counted incidents, in query order |
| Analytics.AggregateNext | backend/routes/analytics.py:106-144 | one more turn of a loop that has not raised is one `TallyStep` |
| Analytics.AggregateDocs | backend/routes/analytics.py:106-144 | the loop computes `Aggregate` |
| Analytics.Points | backend/routes/analytics.py:147 | one trend point per bucket, with its date and counts |
| Analytics.SortedTrends | backend/routes/analytics.py:147 | the trend points are a permutation of the buckets, ordered by date |
| Analytics.SortByDate | backend/routes/analytics.py:147 | sorting by date is a permutation that orders the dates |
| Analytics.AtLeastIsTotalOrder | backend/routes/analytics.py:151 | comparing totals in reverse is a total order |
| Analytics.TopCategories | backend/routes/analytics.py:150-151 | at most five services, largest totals first, each taken from the categories, and every service left out totals no more than the fifth |
| Analytics.StatusNames | backend/routes/analytics.py:154 | one capitalised name per status with its count; a status that is not text raises |
| Analytics.Report | backend/routes/analytics.py:146-164 | a failed loop, or a status that is not text, gives the fallback without riskMatrix; otherwise the first 30 risk points, the trend points sorted by date, the top five categories and the capitalised statuses, headed by Open, Resolved and Investigating |
| Analytics.ReportedTrends | backend/routes/analytics.py:106-164 | the reply's risk matrix is the first 30 risk points of the counted incidents, each trend point carries the summed occurrences and number of its incidents, and each top category the summed occurrences of its service |
| Analytics.ReportedPoints | backend/routes/analytics.py:119-147 | each sorted trend point carries the summed occurrences and the number of the incidents of its date |
| Analytics.ReportedCategories | backend/routes/analytics.py:125-151 | each top category carries the summed occurrences of its service |
| Analytics.ReportedStatuses | backend/routes/analytics.py:128-154 | each status in the reply carries its capitalised name and the number of incidents with it |
| Analytics.DefaultStatusNames | backend/routes/analytics.py:103-154 | the three default statuses capitalise to Open, Resolved and Investigating |
| Analytics.DefaultsLeadDistribution | backend/routes/analytics.py:103-154 | OPEN, RESOLVED and INVESTIGATING always head the status distribution |
| Analytics.TrendsOf | backend/routes/analytics.py:79-164 | no database is a 503; a failing query gives the fallback; otherwise the report of the loop over the documents in the window |
| RootAgent.Greatest | agent.py:124 | `sorted(files)[-1]` is a listed name that no other name follows in code-point order |
| RootAgent.GetLogs | agent.py:91-131 | "fetch" fetches; "load" loads the named file, or the greatest saved name, and gives None when nothing is saved; any other mode gives None |
| RootAgent.TotalLogsAtLeastTraces | agent.py:110-112 | when every trace holds a log, total_logs is at least total_traces |
| RootAgent.TotalLogsOfPrefix | agent.py:286-287 | the logs of the first traces are part of the total |
| RootAgent.TotalLogs | agent.py:112 | `sum(len(logs) ...)` is at least the number of logs of every trace |
| RootAgent.Selected | agent.py:286-287 | a positive `max_traces` keeps that many first traces; None or 0 keeps all |
| RootAgent.LogSummary | agent.py:301-309 | a log's summary fails with KeyError for a missing timestamp, severity, service or message; otherwise it copies those four and reads root_cause and suggestion with a default of None |
| RootAgent.LogSummaries | agent.py:301-309 | one summary per log, in order, unless some log lacks a required field |
| RootAgent.SummaryErrorPersists | agent.py:301-309 | the first missing field ends the loop, so later logs change nothing |
| RootAgent.Summarise | agent.py:301-309 | the loop computes `LogSummaries` |
| RootAgent.Record | agent.py:318-332 | the incident is written iff its confidence is a number; it holds the trace id, the analysis, the log count, the first log's service ('unknown' for none), the first and last timestamps and status AUTO-RESOLVED or PENDING_REVIEW by the 0.8 threshold |
| RootAgent.ResultEntry | agent.py:334-341 | a result has exactly its six keys; cause, category and action default to "Unknown", "Unknown" and "No action"; a numeric confidence is kept and any other becomes 0.0 |
| RootAgent.Step | agent.py:291-343 | after an exception nothing changes; a log lacking a field raises; an unanswered trace adds nothing; an answered one adds its result and at most one record, and none without a database |
| RootAgent.Run | agent.py:290-343 | never more results or records than traces |
| RootAgent.RunStops | agent.py:290-343 | an exception ends the loop, so later traces change nothing |
| RootAgent.RunAnalysis | agent.py:260-353 | no traces gives a success with "No logs available" and nothing written; otherwise the loop over the selected traces, reported with the counts of traces and results |
| RootAgent.Turn | agent.py:291-343 | one turn of the loop computes `Step` |
| RootAgent.ResultsAreAnsweredTraces | agent.py:312-341 | the results name exactly the traces Gemini answered for, in order |
| RootAgent.NoDbWritesNothing | agent.py:318 | without a database nothing is written |
| RootApi.ServerFilter | api.py:367-372 | the filter raises TypeError iff some result's confidence cannot be compared; otherwise it keeps exactly the results outside the two excluded categories with a confidence below 1 |
| RootApi.KeptResultsAreErrors | api.py:368-372 | every kept result has a category other than Informational and Healthy/Operational and a confidence below 1 |
| RootApi.ServerFilterIdempotent | api.py:368-372 | filtering the filtered list again changes nothing |
| RootApi.AgentResultsNeverRaise | api.py:368-372 | the agent's results always carry a numeric confidence, so the filter never raises on them |
| RootApi.Analyze | api.py:350-381 | a non-empty result list is filtered and its count and message rewritten; an empty one is passed on unchanged; any exception is a 500 |
| RootApi.JsNumber | api.py:216-220 | a numeric confidence compares as itself and a missing one as NaN |
| RootApi.ClientRepeatsServer | api.py:216-220 | on numeric confidences the page's filter repeats the server's, so it drops nothing the server kept |
| RootApi.KeepsAgree | api.py:216-220 | on a result with a numeric confidence the page's test and the server's test agree |
| RootApi.MissingConfidenceSplitsFilters | api.py:216-220 | without a confidence the server keeps a result, reading 0, and the page drops it, reading `undefined < 1.0` as false |
| RootApi.TierOf | api.py:262-264 | green iff the percentage is at least 80, yellow iff it is in [60, 80), red otherwise |
| RootApi.Percent | api.py:261 | `Math.round(confidence * 100)` is within one half of 100·confidence, and a confidence in [0, 1] gives a percentage in [0, 100] |
| RootApi.TierMonotone | api.py:261-264 | a higher confidence is never drawn in a lower tier |
| RootApi.TierBoundary | api.py:261-264 | 0.795 rounds to 80 and is green, 0.7949 is yellow |
| RootApi.CountLabel | api.py:240-258 | no title, and the empty state, iff there are no results |
| RootApi.CountLabelReadsBack | api.py:258 | the title names the number of cards |
| RootApi.CountLabelPlural | api.py:258 | one card is titled "1 Error Found", more use the plural |
| IncidentsPage.WithField | frontend/src/pages/IncidentsPage.jsx:66-69 | the named filter takes the new value and every other filter keeps its value |
| IncidentsPage.BuildParams | frontend/src/pages/IncidentsPage.jsx:33-40 | page and limit 10 always; search iff non-empty; severity, status and category iff not 'ALL'; each sent with its filter's value |
| IncidentsPage.InitialParams | frontend/src/pages/IncidentsPage.jsx:14-40 | the first request asks for page 1 of everything |
| IncidentsPage.HasMoreIffFullPages | frontend/src/pages/IncidentsPage.jsx:46 | over a paged list, `hasMore` holds iff the list reaches the end of the page, and after a last page that is exactly full the next page is empty |
| IncidentsPage.Page.constructor | frontend/src/pages/IncidentsPage.jsx:12-61 | mounting starts empty and loading on page 1 with the default filters, and arms the first timer |
| IncidentsPage.Page.ChangeFilter | frontend/src/pages/IncidentsPage.jsx:60-71 | one filter changes, the page returns to 1 and a new timer replaces the pending one |
| IncidentsPage.Page.Previous | frontend/src/pages/IncidentsPage.jsx:175-176 | one page back, disabled on page 1 |
| IncidentsPage.Page.Next | frontend/src/pages/IncidentsPage.jsx:185-186 | one page on, disabled when the last reply was short |
| IncidentsPage.Page.DebounceFired | frontend/src/pages/IncidentsPage.jsx:29-58 | the timer fires: loading starts and the pending request goes out |
| IncidentsPage.Page.Succeeded | frontend/src/pages/IncidentsPage.jsx:42-52 | a reply replaces the list, sets hasMore iff it holds a full page, and ends loading, whichever request it answers |
| IncidentsPage.Page.Failed | frontend/src/pages/IncidentsPage.jsx:48-52 | a failure empties the list, keeps hasMore and ends loading |
| IncidentsPage.SearchBurst | frontend/src/pages/IncidentsPage.jsx:56-71 | a burst of keystrokes sends one request, for page 1 and the final text |
| IncidentsPage.PagingRoundTrip | frontend/src/pages/IncidentsPage.jsx:175-186 | two pages forward and one back sends page 2 with unchanged filters |
| AlertRulesPage.Flipped | frontend/src/pages/AlertRulesPage.jsx:50-54 | the copy negates `enabled`, keeps the id and every other field |
| AlertRulesPage.FlipEnabled | frontend/src/pages/AlertRulesPage.jsx:49-51 | same length; each rule with the id is flipped and every other rule is unchanged |
| AlertRulesPage.Ids | frontend/src/pages/AlertRulesPage.jsx:49-51 | the ids of the rules, in order |
| AlertRulesPage.FlipKeepsIdsAndOrder | frontend/src/pages/AlertRulesPage.jsx:49-51 | the toggle keeps length, order and ids and changes only `enabled` of the matching rules |
| AlertRulesPage.FlipTwiceRestores | frontend/src/pages/AlertRulesPage.jsx:49-51 | toggling twice restores a list whose matching rules hold booleans |
| AlertRulesPage.RemoveId | frontend/src/pages/AlertRulesPage.jsx:78 | exactly the rules with another id remain |
| AlertRulesPage.RemoveIdKeepsOrder | frontend/src/pages/AlertRulesPage.jsx:78 | removal distributes over concatenation, so survivors keep their order |
| AlertRulesPage.RemoveIdIdempotent | frontend/src/pages/AlertRulesPage.jsx:78 | removing twice equals removing once |
| AlertRulesPage.ToggleToast | frontend/src/pages/AlertRulesPage.jsx:55 | the info toast names the rule and says "paused" for an enabled rule, "activated" otherwise |
| AlertRulesPage.NameText | frontend/src/pages/AlertRulesPage.jsx:55 | a rule's name in a template is its text, "undefined" when the rule has none and "null" for `null` |
| AlertRulesPage.Page.constructor | frontend/src/pages/AlertRulesPage.jsx:13-35 | mounting starts with no rules, loading, the editor closed, and one fetch |
| AlertRulesPage.Page.RulesArrived | frontend/src/pages/AlertRulesPage.jsx:20-31 | a fetch sets the rules, [] on failure, and ends loading |
| AlertRulesPage.Page.OpenCreate | frontend/src/pages/AlertRulesPage.jsx:37-40 | the editor opens with no rule selected |
| AlertRulesPage.Page.OpenEdit | frontend/src/pages/AlertRulesPage.jsx:42-45 | the editor opens on the given rule |
| AlertRulesPage.Page.CloseEditor | frontend/src/pages/AlertRulesPage.jsx:161-172 | the editor closes and nothing else changes |
| AlertRulesPage.Page.ToggleStarted | frontend/src/pages/AlertRulesPage.jsx:47-54 | the flip is applied locally first, then the update is sent with the rule's own `enabled` negated |
| AlertRulesPage.Page.ToggleSettled | frontend/src/pages/AlertRulesPage.jsx:54-60 | success only adds the toast; failure restores nothing, starts a refetch and reports the error |
| AlertRulesPage.Page.DeleteStarted | frontend/src/pages/AlertRulesPage.jsx:75-77 | the delete request is sent, with the rule list captured at the click |
| AlertRulesPage.Page.DeleteSettled | frontend/src/pages/AlertRulesPage.jsx:75-84 | a successful delete sets the rules to the click-time list without that id, dropping changes made since; a failure keeps the rules; each outcome adds its toast |
| AlertRulesPage.Page.SaveStarted | frontend/src/pages/AlertRulesPage.jsx:86-173 | while a save is in flight the disabled button sends nothing and changes nothing; otherwise saving starts with an update of the edited rule, or a create when none is edited |
| AlertRulesPage.Page.SaveSettled | frontend/src/pages/AlertRulesPage.jsx:88-104 | success awaits the refetch, closes the editor and reports; failure only reports; saving ends either way |
| AlertRulesPage.ToggleFailureOutcome | frontend/src/pages/AlertRulesPage.jsx:47-60 | a failed toggle ends with whatever the refetch returns, [] if that fails too, and an error toast |
| AlertRulesPage.DeleteFailureOutcome | frontend/src/pages/AlertRulesPage.jsx:75-84 | a failed delete leaves the list as it was and reports the error |
| AlertRulesPage.SaveFailureKeepsEditor | frontend/src/pages/AlertRulesPage.jsx:86-104 | a failed save keeps the editor open and ends saving |
| AlertRulesPage.DoubleSaveSendsOnce | frontend/src/pages/AlertRulesPage.jsx:86-173 | a second save while the first is in flight sends nothing, and the first settles as a create |
| AlertRulesPage.DeleteUndoesToggle | frontend/src/pages/AlertRulesPage.jsx:47-84 | a delete that succeeds after another rule was toggled restores that rule's old `enabled` on screen, though the server received the flip |
| DashboardPage.GroupsParamsFor | frontend/src/pages/DashboardPage.jsx:43-47 | the groups request asks for 10 active groups, with the category iff it is not 'All' |
| DashboardPage.CoerceCapacity | frontend/src/pages/DashboardPage.jsx:196 | `parseInt(value) \|\| 0`: the parsed number, or 0 when there is none |
| DashboardPage.CapacityWithoutDigits | frontend/src/pages/DashboardPage.jsx:196 | input with no digit, "" or "abc", becomes 0 |
| DashboardPage.CapacityOfNumber | frontend/src/pages/DashboardPage.jsx:196 | a whole number typed in is kept as it is |
| DashboardPage.CapacityOfDecimal | frontend/src/pages/DashboardPage.jsx:196 | " 12.9" becomes 12 |
| DashboardPage.DecimalReadsIntegerPart | frontend/src/pages/DashboardPage.jsx:196 | `parseInt("12.9")` reads 12, stopping at the point |
| DashboardPage.FailureStatus | frontend/src/pages/DashboardPage.jsx:98-104 | "Analysis Failed: " followed by the server's detail when it is non-empty, else the error message; a reply without results gives "No results returned from analysis" |
| DashboardPage.ResultsOf | frontend/src/pages/DashboardPage.jsx:86 | `res.data.results` is defined iff the reply is an object holding `results`, and is then that value |
| DashboardPage.Page.constructor | frontend/src/pages/DashboardPage.jsx:14-74 | mounting starts with the default metrics, no groups, category 'All', the spinner, the default config and one refresh |
| DashboardPage.Page.SetCategory | frontend/src/pages/DashboardPage.jsx:72-124 | a new category starts a refresh with the spinner; the same value changes nothing |
| DashboardPage.Page.RefreshSettled | frontend/src/pages/DashboardPage.jsx:37-68 | each fulfilled half replaces its own state and a rejected half leaves it; only a refresh that set the spinner clears it |
| DashboardPage.Page.SetTimeRange | frontend/src/pages/DashboardPage.jsx:181 | the lookback becomes `parseInt` of the selected value |
| DashboardPage.Page.SetMaxTraces | frontend/src/pages/DashboardPage.jsx:196 | the trace capacity becomes the coerced input |
| DashboardPage.Page.StartAnalysis | frontend/src/pages/DashboardPage.jsx:77-84 | the session starts busy with "Initiating Deep Scan..." and sends the current config, remembering the click-time category; nothing in the handler refuses a second start |
| DashboardPage.Page.AnalysisSettled | frontend/src/pages/DashboardPage.jsx:84-106 | truthy results, an empty list included, are stored with a silent refresh for the click-time category and a 2 s timer; anything else ends the session with the failure text and a 5 s timer |
| DashboardPage.Page.TimerFired | frontend/src/pages/DashboardPage.jsx:94-105 | a timer clears the status, and the 2 s one also ends the session, whichever run armed it |
| DashboardPage.EmptyResultsSucceed | frontend/src/pages/DashboardPage.jsx:86-89 | an empty results list is a success: stored, "Insights Generated." and busy until its timer |
| DashboardPage.StaleTimerBlanksNextRun | frontend/src/pages/DashboardPage.jsx:105 | a failed run's 5 s timer blanks the status of a later run still waiting |
| DashboardPage.FailureShowsDetail | frontend/src/pages/DashboardPage.jsx:104 | a failed run shows the server's detail in preference to the message and ends the session |
| DashboardPage.RefreshUsesClickCategory | frontend/src/pages/DashboardPage.jsx:37-92 | a category switched during an analysis does not reach its refresh, which asks for the click-time category instead |
| ErrorGroupsHook.ErrorText | frontend/src/hooks/useErrorGroups.js:20 | the message when non-empty, the fallback text otherwise |
| ErrorGroupsHook.Hook.constructor | frontend/src/hooks/useErrorGroups.js:5-9 | no groups, group or playbook, not loading, no error |
| ErrorGroupsHook.Hook.FetchStarted | frontend/src/hooks/useErrorGroups.js:12-35 | a fetch starts loading and clears the error |
| ErrorGroupsHook.Hook.GroupsSettled | frontend/src/hooks/useErrorGroups.js:14-30 | success stores and returns the groups; failure records the error, returns nothing, and shows the two mock groups in development or keeps the old ones otherwise |
| ErrorGroupsHook.Hook.DetailSettled | frontend/src/hooks/useErrorGroups.js:33-46 | success stores and returns the group; failure records the error and keeps the old group |
| ErrorGroupsHook.Hook.PlaybookSettled | frontend/src/hooks/useErrorGroups.js:48-59 | success stores and returns the playbook; failure returns nothing and sets the mock playbook only in development; loading and error never change |
| ErrorGroupsHook.GroupsFailureInDev | frontend/src/hooks/useErrorGroups.js:19-27 | a failed fetch in development shows exactly the two mock groups and the error text, defaulted when the message is empty |
| ErrorGroupsHook.GroupsFailureInProduction | frontend/src/hooks/useErrorGroups.js:19-22 | outside development a failure keeps the groups already shown |
| ErrorGroupsHook.RetryClearsError | frontend/src/hooks/useErrorGroups.js:12-13 | a later fetch clears the previous error before its request goes out |
| IncidentsHook.ErrorText | frontend/src/hooks/useIncidents.js:19-47 | the message when non-empty, the fallback text otherwise |
| IncidentsHook.MockIncidents | frontend/src/hooks/useIncidents.js:23-29 | five mock incidents, the i-th built from i |
| IncidentsHook.MockDetail | frontend/src/hooks/useIncidents.js:50-57 | the mock detail carries the requested id and status INVESTIGATING |
| IncidentsHook.MockIdsDistinct | frontend/src/hooks/useIncidents.js:24 | the five mock incidents differ from one another |
| IncidentsHook.Hook.constructor | frontend/src/hooks/useIncidents.js:5-8 | no incidents or incident, not loading, no error |
| IncidentsHook.Hook.FetchStarted | frontend/src/hooks/useIncidents.js:11-41 | a fetch starts loading and clears the error |
| IncidentsHook.Hook.IncidentsSettled | frontend/src/hooks/useIncidents.js:10-37 | success stores and returns the data; failure records the error, then stores and returns five mocks in development or rethrows otherwise |
| IncidentsHook.Hook.DetailSettled | frontend/src/hooks/useIncidents.js:39-65 | the same rule for one incident, with a mock carrying the requested id |
| IncidentsHook.ListFailureRethrows | frontend/src/hooks/useIncidents.js:18-33 | outside development a failed list fetch rejects with the same error after recording it and clearing the spinner |
| IncidentsHook.DetailFailureInDev | frontend/src/hooks/useIncidents.js:46-59 | in development a failed detail fetch resolves with a mock carrying the requested id |
| ChatWidget.AgentReply | frontend/src/components/chat/AIChatWidget.jsx:49-53 | a settled request yields one agent message stamped one after the clock: the server's reply, or the fixed apology on failure |
| ChatWidget.Widget.constructor | frontend/src/components/chat/AIChatWidget.jsx:7-12 | the panel starts closed with only the greeting, an empty input and no typing indicator |
| ChatWidget.Widget.Toggle | frontend/src/components/chat/AIChatWidget.jsx:23-65 | Cmd/Ctrl+K and the floating button flip the panel |
| ChatWidget.Widget.Close | frontend/src/components/chat/AIChatWidget.jsx:83 | the close button always closes the panel |
| ChatWidget.Widget.Type | frontend/src/components/chat/AIChatWidget.jsx:123 | the input holds exactly what was typed |
| ChatWidget.Widget.Send | frontend/src/components/chat/AIChatWidget.jsx:38-48 | whitespace-only input sends nothing and changes nothing; otherwise the untrimmed text is appended as a user message and sent, the input clears and the indicator starts |
| ChatWidget.Widget.ReplyArrived | frontend/src/components/chat/AIChatWidget.jsx:47-58 | each settled request appends exactly one agent message, adds the error toast only on failure, and stops the indicator |
| ChatWidget.Exchange | frontend/src/components/chat/AIChatWidget.jsx:38-58 | one round trip leaves greeting, the user's text and the reply or apology, with a toast exactly when it failed |
| ChatWidget.BlankSendIgnored | frontend/src/components/chat/AIChatWidget.jsx:40 | sending whitespace leaves only the greeting and sends nothing |
| ChatWidget.OverlappingSends | frontend/src/components/chat/AIChatWidget.jsx:43-50 | two sends before either reply keep both user messages in order, followed by both agent messages |
| RuleEditor.FieldOr | frontend/src/components/forms/RuleEditor.jsx:16-20 | `rule.k \|\| fallback`: the stored value when present and truthy, the fallback otherwise |
| RuleEditor.FromRule | frontend/src/components/forms/RuleEditor.jsx:13-23 | an edited rule loads with falsy fields replaced by their defaults, except `enabled`, which defaults to true only when absent |
| RuleEditor.Applied | frontend/src/components/forms/RuleEditor.jsx:26-32 | an input event replaces only its own field, with the typed text, or the checkbox state for `enabled` |
| RuleEditor.SeverityText | frontend/src/components/forms/RuleEditor.jsx:109 | every criticality button names one of LOW, MEDIUM, HIGH, CRITICAL |
| RuleEditor.ParseIntValue | frontend/src/components/forms/RuleEditor.jsx:38-39 | `parseInt` of a form value: text as written, a number through `String(n)` including its exponent forms, a list through its first item (NaN when empty), and NaN for booleans, `null` and objects |
| RuleEditor.SubmitPayload | frontend/src/components/forms/RuleEditor.jsx:34-41 | the payload `handleSubmit` builds: the form as it is except that threshold and window go through `parseInt` |
| RuleEditor.Pow10 | frontend/src/components/forms/RuleEditor.jsx:83-98 | a power of ten is at least 1 |
| RuleEditor.FloatValue | frontend/src/components/forms/RuleEditor.jsx:83-98 | a number input's text read as an HTML valid floating-point number: a leading `-` negates the rest, any other text is read unsigned |
| RuleEditor.Scaled | frontend/src/components/forms/RuleEditor.jsx:83-98 | a mantissa with nothing after it is its own value |
| RuleEditor.InputNumber | frontend/src/components/forms/RuleEditor.jsx:83-98 | the number a number input holds: a number itself, a text's valid float value, a one-item list's item, and nothing for other values |
| RuleEditor.Submit | frontend/src/components/forms/RuleEditor.jsx:47-148 | the browser submits the form iff the name is non-blank and threshold and window each hold a whole number of at least 1, and then sends `handleSubmit`'s payload |
| RuleEditor.SubmitIntended | frontend/src/components/forms/RuleEditor.jsx:34-98 | with the inputs read as numbers, the form is submitted under the same check, every threshold and window sent is a whole number of at least 1 equal to what its input holds, and the other fields are sent as they are |
| RuleEditor.UnsignedValueOfDigits | frontend/src/components/forms/RuleEditor.jsx:83-98 | a non-empty digit run is a valid number holding its value |
| RuleEditor.FloatValueOfInt | frontend/src/components/forms/RuleEditor.jsx:83-98 | an integer's printed text is a valid number holding that integer |
| RuleEditor.UnsignedValueOfFraction | frontend/src/components/forms/RuleEditor.jsx:83-98 | digits, a point, one or more digits and a tail starting with no digit hold the mantissa those digits spell, scaled by the tail |
| RuleEditor.UnsignedValueOfWhole | frontend/src/components/forms/RuleEditor.jsx:83-98 | one or more digits and a tail starting with neither a digit nor a point hold the digits' value, scaled by the tail |
| RuleEditor.TypedCountValid | frontend/src/components/forms/RuleEditor.jsx:83-98 | a number input holding an integer's printed text passes the whole-and-at-least-1 check iff the integer is at least 1 |
| RuleEditor.Editor.constructor | frontend/src/components/forms/RuleEditor.jsx:4-24 | the form starts at the defaults, or at the loaded rule when one is given |
| RuleEditor.Editor.RuleChanged | frontend/src/components/forms/RuleEditor.jsx:13-24 | a new rule reloads the whole form; a null rule leaves it as it is |
| RuleEditor.Editor.HandleChange | frontend/src/components/forms/RuleEditor.jsx:26-32 | the form becomes the event applied to it |
| RuleEditor.Editor.PickSeverity | frontend/src/components/forms/RuleEditor.jsx:113 | a criticality button sets only the severity |
| RuleEditor.FalsyFieldsLoadDefaults | frontend/src/components/forms/RuleEditor.jsx:18-21 | a stored threshold of 0 loads as 5, a missing window as 15, while `enabled: false` survives |
| RuleEditor.DefaultPayload | frontend/src/components/forms/RuleEditor.jsx:4-53 | the untouched form is blocked by the required empty name; once a name is typed it submits that name with category Database, threshold 5, window 15, severity HIGH, enabled |
| RuleEditor.TypedNumberSubmitted | frontend/src/components/forms/RuleEditor.jsx:26-98 | a whole number typed into a numeric input of an otherwise valid form is submitted iff it is at least 1, and then as that number |
| RuleEditor.StoredThresholdRoundTrips | frontend/src/components/forms/RuleEditor.jsx:18-87 | a stored non-zero whole threshold below 10^21 in size passes the input's check iff it is at least 1, and survives load then submit unchanged |
| RuleEditor.NonNumericThresholdIsNaN | frontend/src/components/forms/RuleEditor.jsx:38-87 | typed text whose first character after white space and an optional sign is not a decimal digit parses as NaN, and when it is no valid number the form is not submitted |
| RuleEditor.PointFiveEOne | frontend/src/components/forms/RuleEditor.jsx:38-87 | ".5e1" holds 5 but `parseInt` reads NaN |
| RuleEditor.ZeroPointFiveEOne | frontend/src/components/forms/RuleEditor.jsx:38-87 | "0.5e1" holds 5 but `parseInt` reads 0 |
| RuleEditor.OneEThree | frontend/src/components/forms/RuleEditor.jsx:38-87 | "1e3" holds 1000 but `parseInt` reads 1 |
| RuleEditor.PointFiveEOneValue | frontend/src/components/forms/RuleEditor.jsx:83-98 | the text ".5e1" is a valid number holding 5 |
| RuleEditor.ZeroPointFiveEOneValue | frontend/src/components/forms/RuleEditor.jsx:83-98 | the text "0.5e1" is a valid number holding 5 |
| RuleEditor.OneEThreeValue | frontend/src/components/forms/RuleEditor.jsx:83-98 | the text "1e3" is a valid number holding 1000 |
| RuleEditor.ThresholdTextSubmitted | frontend/src/components/forms/RuleEditor.jsx:34-87 | threshold text holding a whole number of at least 1 is submitted: as written with `parseInt`'s reading, as intended with the number held |
| RuleEditor.ExponentTextsMisread | frontend/src/components/forms/RuleEditor.jsx:34-87 | the browser submits ".5e1", "0.5e1" and "1e3", and the payload carries NaN, 0 and 1 |
| RuleEditor.IntendedReadsExponentTexts | frontend/src/components/forms/RuleEditor.jsx:34-87 | read as numbers, the same texts are sent as 5, 5 and 1000 |
| RuleEditor.EditThenSwitchRule | frontend/src/components/forms/RuleEditor.jsx:13-32 | loading another rule discards an unsaved edit |
| RuleEditor.SeverityAlwaysALevel | frontend/src/components/forms/RuleEditor.jsx:109-113 | after a criticality button the severity is always one of the four levels |
| AutomationPolicyCard.Field | frontend/src/components/cards/AutomationPolicyCard.jsx:6 | a property read is defined exactly when the key is present |
| AutomationPolicyCard.ScopeOf | frontend/src/components/cards/AutomationPolicyCard.jsx:6 | Global exactly for severity CRITICAL, Infrastructure exactly for HIGH, Service otherwise, by strict comparison |
| AutomationPolicyCard.SeverityColourOf | frontend/src/components/cards/AutomationPolicyCard.jsx:73-74 | the severity is red exactly where the scope is Global and orange exactly where it is Infrastructure |
| AutomationPolicyCard.StringOf | frontend/src/components/cards/AutomationPolicyCard.jsx:22 | `String(v)`: a string as it is, a whole number below 10^21 in size in decimal, booleans and `null` by name, an object as `[object Object]`, a list as its joined items; fractions and larger numbers get no text |
| AutomationPolicyCard.JoinTexts | frontend/src/components/cards/AutomationPolicyCard.jsx:22 | a list's text is empty for no items, and exists only when every item has a text |
| AutomationPolicyCard.ItemText | frontend/src/components/cards/AutomationPolicyCard.jsx:22 | a `null` item joins as the empty text, any other item as its `String` |
| AutomationPolicyCard.OneItemListText | frontend/src/components/cards/AutomationPolicyCard.jsx:22 | a one-item list prints as its item, or as nothing for `null` |
| AutomationPolicyCard.Badge | frontend/src/components/cards/AutomationPolicyCard.jsx:22 | a badge exists iff the id (or 0 when falsy) has a text; it is three characters: the text's last three, left-padded with zeros |
| AutomationPolicyCard.FalsyIdBadge | frontend/src/components/cards/AutomationPolicyCard.jsx:22 | a missing or falsy id shows 000 |
| AutomationPolicyCard.LongStringIdBadge | frontend/src/components/cards/AutomationPolicyCard.jsx:22 | a long string id shows its last three characters |
| AutomationPolicyCard.ShortStringIdBadge | frontend/src/components/cards/AutomationPolicyCard.jsx:22 | a short string id is left-padded with zeros to three |
| AutomationPolicyCard.NumericIdBadge | frontend/src/components/cards/AutomationPolicyCard.jsx:22 | numeric id 7 shows 007 |
| AutomationPolicyCard.ListIdBadge | frontend/src/components/cards/AutomationPolicyCard.jsx:22 | list id [7] shows 007 |
| AutomationPolicyCard.CategoryLabel | frontend/src/components/cards/AutomationPolicyCard.jsx:24 | the category when truthy, 'General' otherwise |
| AutomationPolicyCard.StatusLabel | frontend/src/components/cards/AutomationPolicyCard.jsx:30 | MONITORING exactly for a truthy `enabled`, PAUSED otherwise |
| AutomationPolicyCard.ToggleLabel | frontend/src/components/cards/AutomationPolicyCard.jsx:112 | Pause Rule exactly for a truthy `enabled`, Resume Rule otherwise |
| AutomationPolicyCard.LabelsAgree | frontend/src/components/cards/AutomationPolicyCard.jsx:30-112 | the toggle offers to pause exactly the rules shown as monitoring |
| AutomationPolicyCard.ConfirmPrompt | frontend/src/components/cards/AutomationPolicyCard.jsx:9 | the confirmation question quotes the rule's name just before its final `"?` |
| AutomationPolicyCard.DeleteCall | frontend/src/components/cards/AutomationPolicyCard.jsx:8-12 | `onDelete` is called, with the id as it is, exactly when the user confirms |
| SecureLogViewer.Viewer.constructor | frontend/src/components/visuals/SecureLogViewer.jsx:4-6 | the viewer starts locked with no prompt and an empty code |
| SecureLogViewer.Viewer.RequestDecryption | frontend/src/components/visuals/SecureLogViewer.jsx:8-10 | "Request Decryption" opens the prompt and changes nothing else |
| SecureLogViewer.Viewer.TypeCode | frontend/src/components/visuals/SecureLogViewer.jsx:96 | the code holds what was typed |
| SecureLogViewer.Viewer.SubmitCode | frontend/src/components/visuals/SecureLogViewer.jsx:12-19 | an empty code changes nothing; any non-empty code closes the prompt and unlocks |
| SecureLogViewer.Viewer.Cancel | frontend/src/components/visuals/SecureLogViewer.jsx:100 | Cancel closes the prompt and leaves the lock as it was |
| SecureLogViewer.DecryptButtonShown | frontend/src/components/visuals/SecureLogViewer.jsx:69 | the decrypt button is shown exactly while locked |
| SecureLogViewer.LockLabel | frontend/src/components/visuals/SecureLogViewer.jsx:30 | UNLOCKED exactly when decrypted, PROTECTED otherwise |
| SecureLogViewer.Severity | frontend/src/components/visuals/SecureLogViewer.jsx:40 | a line's severity is defined exactly when the key is present |
| SecureLogViewer.ColourOf | frontend/src/components/visuals/SecureLogViewer.jsx:40 | red exactly for ERROR or CRITICAL, yellow exactly for WARNING |
| SecureLogViewer.SeverityLabel | frontend/src/components/visuals/SecureLogViewer.jsx:41 | the severity when truthy, INFO otherwise |
| SecureLogViewer.BodyOf | frontend/src/components/visuals/SecureLogViewer.jsx:44-61 | a line is redacted exactly when it is SECRET and the viewer is locked; otherwise it shows `message`, or `msg` when the message is falsy |
| SecureLogViewer.Bodies | frontend/src/components/visuals/SecureLogViewer.jsx:35-65 | one body per log line, in order |
| SecureLogViewer.UnlockRevealsOnlySecrets | frontend/src/components/visuals/SecureLogViewer.jsx:44 | unlocking changes a line's body exactly when it is SECRET |
| SecureLogViewer.LockedHidesEverySecret | frontend/src/components/visuals/SecureLogViewer.jsx:44-58 | while locked no SECRET line shows its text |
| SecureLogViewer.UnlockThenAnything | frontend/src/components/visuals/SecureLogViewer.jsx:8-69 | after a code is verified no handler can lock the viewer again |
| SecureLogViewer.CancelOrEmptyStaysLocked | frontend/src/components/visuals/SecureLogViewer.jsx:15-100 | cancelling, or verifying an empty code, keeps the viewer locked |
| AuthCallbackPage.FinalUserData | frontend/src/pages/AuthCallbackPage.jsx:37-42 | each user field is the token's value when truthy or its default; a stored project id wins over the token's |
| AuthCallbackPage.EmptyTokenDefaults | frontend/src/pages/AuthCallbackPage.jsx:38-41 | a token with none of the fields yields SRE User, "", default_user, PRJ-DEFAULT |
| AuthCallbackPage.StoredProjectWins | frontend/src/pages/AuthCallbackPage.jsx:41 | a non-empty stored project id is always used |
| AuthCallbackPage.Page.constructor | frontend/src/pages/AuthCallbackPage.jsx:10 | the page starts processing with no effects |
| AuthCallbackPage.Page.Mounted | frontend/src/pages/AuthCallbackPage.jsx:12-73 | a truthy token that decodes logs in and hard-redirects to /dashboard; one that does not decode goes to /auth?error=invalid_token at once; otherwise an error goes to /auth?error=<error> after the timer, and nothing at all to /auth |
| AuthCallbackPage.TokenBeatsError | frontend/src/pages/AuthCallbackPage.jsx:23-58 | a callback with both a decodable token and an error logs in |
| AuthCallbackPage.EmptyTokenFallsThrough | frontend/src/pages/AuthCallbackPage.jsx:23-65 | an empty token is falsy, so the error branch runs |
| AuthCallbackPage.NullTokenIsInvalid | frontend/src/pages/AuthCallbackPage.jsx:27-56 | a token decoding to null throws on the first field read and is treated as invalid |
| GroupDetailPage.Resolved | frontend/src/pages/GroupDetailPage.jsx:49 | the group afterwards has status RESOLVED and, when it was an object, every other field it had, unchanged |
| GroupDetailPage.Page.constructor | frontend/src/pages/GroupDetailPage.jsx:15-18 | the page starts loading with no group, no incidents and no error |
| GroupDetailPage.Page.RouteEntered | frontend/src/pages/GroupDetailPage.jsx:20-44 | a truthy id requests its group with the spinner; a falsy id requests nothing and leaves the spinner as it is |
| GroupDetailPage.Page.DetailSettled | frontend/src/pages/GroupDetailPage.jsx:25-38 | a group reply is stored and its first 20 incidents requested; a failure sets the load error and drops the spinner |
| GroupDetailPage.Page.IncidentsSettled | frontend/src/pages/GroupDetailPage.jsx:30-38 | the incidents are stored, or the load error is set, and the spinner goes either way |
| GroupDetailPage.Page.HandleAction | frontend/src/pages/GroupDetailPage.jsx:46-56 | rollback marks the group resolved with a success toast; fix only adds an info toast; ignore adds a warning and leaves for /incidents; any other action does nothing |
| GroupDetailPage.Page.View | frontend/src/pages/GroupDetailPage.jsx:58-83 | the spinner while loading, then a non-empty error, and the content exactly when neither applies |
| GroupDetailPage.GroupThenIncidentsFail | frontend/src/pages/GroupDetailPage.jsx:25-60 | when the incidents fail after the group arrived the group is kept and the error view shows |
| GroupDetailPage.NoIdSpinsForever | frontend/src/pages/GroupDetailPage.jsx:15-58 | without a route id nothing is requested and the spinner stays |
| GroupDetailPage.RollbackKeepsFields | frontend/src/pages/GroupDetailPage.jsx:47-49 | rollback on a loaded group sets RESOLVED and keeps every other field |
| GroupDetailPage.PanelClickLeavesPage | frontend/src/pages/GroupDetailPage.jsx:52-81 | the panel's one control reports ignore, so the page's only reachable reaction is to go to /incidents |
| ActionControlPanel.Panel.constructor | frontend/src/components/incident/ActionControlPanel.jsx:4 | the panel starts idle with no timers and nothing reported |
| ActionControlPanel.Panel.Disabled | frontend/src/components/incident/ActionControlPanel.jsx:28 | the button is disabled exactly while an action is executing |
| ActionControlPanel.Panel.HandleAction | frontend/src/components/incident/ActionControlPanel.jsx:6-12 | the action becomes the executing state and arms one timer; nothing is reported yet |
| ActionControlPanel.Panel.ClickMarkFalsePositive | frontend/src/components/incident/ActionControlPanel.jsx:26-31 | a click while disabled does nothing; otherwise it starts ignore |
| ActionControlPanel.Panel.TimerFired | frontend/src/components/incident/ActionControlPanel.jsx:8-11 | a timer reports exactly its own action, which is always ignore, once, and frees the panel |
| ActionControlPanel.DoubleClickReportsOnce | frontend/src/components/incident/ActionControlPanel.jsx:6-28 | a second click while busy is swallowed, so one action is reported and the button is usable again |

## Left out

- Firestore, Gemini REST, the GCP Logging client, the OAuth flow and SMTP are foreign I/O. Their results are inputs: an `Ok`/`Err` outcome, an optional document, or a reply dict.
- The credential manager is not part of this model. It is Fernet encryption and Firestore storage.
- `chat_with_ai_async` (backend/core/agent.py:181-229) builds a prompt and calls Gemini over HTTP. Only its result reaches the model, as the chat route's input.
- Base64 and JSON decoding, `json.loads`, Python `float()` on text, and `datetime`/`strftime` bucket keys are library calls. They are parameters of the members that use them.
- Floating-point representation error is not modelled. Confidences are reals, rounded by the two rules above.
- JavaScript's coercion of values in comparisons is modelled only for the card's confidence (`IncidentCanvasCard.CardConfidence`). Elsewhere values are typed JSON.
- JsonValue.JsToNumber: how `Number` reads a text (white space, decimal, hexadecimal and exponent forms, `Infinity`) is the parameter `textNumber`, not a definition.
- DashboardPage.ResultsOf: a `null` response body reads as having no results. In JavaScript `res.data.results` then throws, which reaches the same failure branch but shows the engine's TypeError message instead of "No results returned from analysis".
- AlertRulesPage.NameText: a rule name that is a number or a list prints as an empty text in the toast. JavaScript would print its `String` form, but the editor only ever stores text names.
- GroupDetailPage.Resolved: spreading a text or a list would also copy its index keys into the group. The model does not do this, because the group shown is always an object or `null`.
- Python's merging of the keys `1` and `True` in one dict is not modelled.
- JSON serialisation of non-string dict keys is not modelled.
- `upper`, `lower` and `capitalize` are modelled for ASCII letters only.
- Concurrency and wall-clock time are not modelled: `asyncio.gather`, the worker's sleep loop, and the durations of `setTimeout`. Timers are explicit "fired" events, and gathered results arrive as a list in trace order.
- React rendering and scheduling are not modelled, and neither are the charts, presentational components, routing and page shells.
- `Header.jsx` simulates metrics with `Math.random`. `handleTestPolicy` in AlertRulesPage.jsx:63-73 picks a random outcome behind timers.
- The axios wrapper's interceptors only log.
- The alert-rule CRUD routes only pass data to and from Firestore.
- The operational scripts are not part of this model.
- The health check (api.py:384-387) and the HTML dashboard route (api.py:344-348) of the root API are not modelled. The dashboard's embedded client logic is, through `RootApi`.
- In agent.py, `process_trace` (135-190) and `run_prototype` (194-258) repeat the loop body of `run_analysis_for_api`. `RootAgent.Step`, `RootAgent.Record` and `RootAgent.LogSummaries` model that body once.
- `load_logs_from_json` and `display_logs_formatted` in log_collector.py only read a file and print.
- `fetch_logs` with `save_to_file` (log_collector.py:192-193) is `LogCollector.FetchLogs` followed by `LogCollector.SaveLogs`. The model states the two separately.
- LogCollector.SaveLogs requires distinct trace ids in its dict argument. This is the invariant every Python dict has, which the sequence of pairs representing it must be told.
- AutomationPolicyCard.StringOf: a fractional id, and a numeric id of 10^21 or more in size, get no text. Their `String` form uses the double's shortest round-trip digits (and an exponent from 10^21 up), and floating point is not modelled.
- AutomationPolicyCard.Badge: no badge for the ids `StringOf` gives no text. In JavaScript an id of 10^21 or more shows the last three characters of its exponent, such as `+21`.
- RuleEditor.Submit: the browser's other form checks do not apply here. The category is a select whose value is always one of its options, and the enabled checkbox is not required.
- RuleEditor.FloatValue: the text of a number input is what the user typed. A text that is no valid floating-point number is sanitised to the empty value, which the `required` attribute rejects, so the model reads it as holding no number.
- AlertRulesPage.Page.SaveSettled: the save's write and the `await fetchRules()` after it (AlertRulesPage.jsx:89-96) settle as one event. Events that could come between the two, such as a toggle, a delete or another fetch settling, are not interleaved there, and the refetch's own `loading` flag is not shown rising.
- GroupDetailPage.Page.RouteEntered: the page keeps one stage for the fetch it awaits, and no fetch is cancelled (GroupDetailPage.jsx:20-44). When the route changes while a fetch is in flight, the model drops the earlier fetch. In JavaScript its late reply would still be applied, showing the earlier group under the new id.
- Console logging, `print` and toasts' display durations are not modelled. Toasts are recorded as a list of (text, kind) pairs.

## Findings

| source | as written | input that shows it | evidently intended | confidence | as-written member | corrected member |
|---|---|---|---|---|---|---|
| frontend/src/components/cards/IncidentCanvasCard.jsx:20-61 | the card turns `root_cause.confidence` into a percentage and passes that percentage as the ring's `score`, which the ring normalises again | `root_cause.confidence` 0.01: the card computes 1, and the ring draws 1 × 100 = 100 | the ring shows the card's own percentage, 1 | not executed | IncidentCanvasCard.RingDisplayAsWritten | IncidentCanvasCard.RingDisplay |
| frontend/src/components/forms/RuleEditor.jsx:34-41 | `handleSubmit` sends `parseInt` of each numeric input's text, which the browser has only checked to be a valid number that is whole and at least 1 | threshold "1e3" (the number 1000) is sent as 1; "0.5e1" (the number 5) as 0; ".5e1" (5) as NaN | send the whole number the input holds, which is always at least 1 | not executed | RuleEditor.ExponentTextsMisread | RuleEditor.SubmitIntended |
