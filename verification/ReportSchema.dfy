// The triage report contract: brain/schema_validator.py, and the dictionary form
// in which approval_flow.py stores a report until it is approved.

module ReportSchema {
  import opened Prelude

  /** Parsed JSON. */
  datatype Json =
    | JNull
    | JBool(b: bool)
    | JNum(n: real)
    | JStr(s: string)
    | JArr(items: seq<Json>)
    | JObj(fields: map<string, Json>)

  datatype Hypothesis = Hypothesis(cause: string, confidence: real, evidence: seq<string>)

  datatype SuggestedAction = SuggestedAction(action: string, risk: string, runbookRef: Option<string>)

  datatype TriageReport = TriageReport(
    incidentId: string,
    hypotheses: seq<Hypothesis>,
    suggestedActions: seq<SuggestedAction>,
    missingContext: seq<string>,
    promptVersion: string,
    validated: bool)

  const READ_ONLY := "read-only"
  const MUTATING := "mutating"
  const MAX_HYPOTHESES := 5

  type Doc = map<string, Json>

  // ---------------------------------------------------------------- lexical classes

  /** The characters that str.strip() removes. */
  predicate IsSpace(c: char) {
    var n := c as int;
    || 0x09 <= n <= 0x0D || 0x1C <= n <= 0x20 || n == 0x85 || n == 0xA0 || n == 0x1680
    || 0x2000 <= n <= 0x200A || n == 0x2028 || n == 0x2029 || n == 0x202F || n == 0x205F || n == 0x3000
  }

  /** bool(s.strip()) */
  predicate NonBlank(s: string) {
    exists i | 0 <= i < |s| :: !IsSpace(s[i])
  }

  predicate Digits(s: string) {
    s != "" && forall i | 0 <= i < |s| :: '0' <= s[i] <= '9'
  }

  predicate ThreeNumbers(s: string) {
    exists i, j | 0 <= i < j < |s| ::
      s[i] == '.' && s[j] == '.' && Digits(s[..i]) && Digits(s[i + 1..j]) && Digits(s[j + 1..])
  }

  /** re.match with `$`, which also accepts one newline at the end. */
  predicate SemverMatch(s: string) {
    ThreeNumbers(s) || (s != "" && s[|s| - 1] == '\n' && ThreeNumbers(s[..|s| - 1]))
  }

  // ---------------------------------------------------------------- the contract

  /** dict.get(key) with None for a missing key. */
  function Field(d: Doc, key: string): Json {
    if key in d then d[key] else JNull
  }

  function EvidenceField(d: Doc): Json {
    if "evidence" in d then d["evidence"] else JArr([])
  }

  predicate TextOk(j: Json) {
    j.JStr? && NonBlank(j.s)
  }

  predicate ConfidenceOk(j: Json) {
    j.JNum? && 0.0 <= j.n <= 1.0
  }

  predicate StringsOk(j: Json) {
    j.JArr? && forall i | 0 <= i < |j.items| :: j.items[i].JStr?
  }

  predicate RiskOk(j: Json) {
    j == JStr(READ_ONLY) || j == JStr(MUTATING)
  }

  /** `risk in RISK_LEVELS` raises TypeError for an unhashable value. */
  predicate Unhashable(j: Json) {
    j.JArr? || j.JObj?
  }

  predicate RefOk(j: Json) {
    j.JNull? || j.JStr?
  }

  predicate HypothesisOk(h: Json) {
    h.JObj? && TextOk(Field(h.fields, "cause")) && ConfidenceOk(Field(h.fields, "confidence"))
    && StringsOk(EvidenceField(h.fields))
  }

  predicate ActionOk(a: Json) {
    a.JObj? && TextOk(Field(a.fields, "action")) && RiskOk(Field(a.fields, "risk"))
    && RefOk(Field(a.fields, "runbook_ref"))
  }

  predicate HypothesesShapeOk(j: Json) {
    j.JArr? && 1 <= |j.items| <= MAX_HYPOTHESES
  }

  predicate PromptVersionOk(j: Json) {
    j.JStr? && SemverMatch(j.s)
  }

  /** Every field meets the contract. */
  predicate Meets(doc: Doc, expected: Option<string>) {
    && TextOk(Field(doc, "incident_id"))
    && (expected.Some? ==> Field(doc, "incident_id").s == expected.value)
    && HypothesesShapeOk(Field(doc, "hypotheses"))
    && (forall i | 0 <= i < |Field(doc, "hypotheses").items| :: HypothesisOk(Field(doc, "hypotheses").items[i]))
    && Field(doc, "suggested_actions").JArr?
    && (forall i | 0 <= i < |Field(doc, "suggested_actions").items| :: ActionOk(Field(doc, "suggested_actions").items[i]))
    && StringsOk(Field(doc, "missing_context"))
    && PromptVersionOk(Field(doc, "prompt_version"))
  }

  /** Some suggested action is an object whose risk cannot be looked up in a set. */
  predicate RaisesTypeError(doc: Doc) {
    && Field(doc, "suggested_actions").JArr?
    && exists i | 0 <= i < |Field(doc, "suggested_actions").items| ::
         RaisesAt(Field(doc, "suggested_actions").items[i])
  }

  predicate RaisesAt(a: Json) {
    a.JObj? && Unhashable(Field(a.fields, "risk"))
  }

  // ---------------------------------------------------------------- reading a good document

  function Strings(items: seq<Json>): (r: seq<string>)
    requires forall i | 0 <= i < |items| :: items[i].JStr?
  {
    seq(|items|, i requires 0 <= i < |items| => items[i].s)
  }

  function ReadHypothesis(h: Json): Hypothesis
    requires HypothesisOk(h)
  {
    Hypothesis(h.fields["cause"].s, h.fields["confidence"].n, Strings(EvidenceField(h.fields).items))
  }

  function ReadAction(a: Json): SuggestedAction
    requires ActionOk(a)
  {
    var ref := Field(a.fields, "runbook_ref");
    SuggestedAction(a.fields["action"].s, a.fields["risk"].s, if ref.JStr? then Some(ref.s) else None)
  }

  function ReadHypotheses(items: seq<Json>): seq<Hypothesis>
    requires forall i | 0 <= i < |items| :: HypothesisOk(items[i])
  {
    seq(|items|, i requires 0 <= i < |items| => ReadHypothesis(items[i]))
  }

  function ReadActions(items: seq<Json>): seq<SuggestedAction>
    requires forall i | 0 <= i < |items| :: ActionOk(items[i])
  {
    seq(|items|, i requires 0 <= i < |items| => ReadAction(items[i]))
  }

  function Read(doc: Doc): TriageReport
    requires Meets(doc, None)
  {
    TriageReport(
      doc["incident_id"].s,
      ReadHypotheses(doc["hypotheses"].items),
      ReadActions(doc["suggested_actions"].items),
      Strings(doc["missing_context"].items),
      doc["prompt_version"].s,
      true)
  }

  // ---------------------------------------------------------------- complaints

  datatype Complaint =
    | IncidentIdBlank
    | HypothesesShape
    | HypothesisNotObject(i: nat)
    | CauseBlank(i: nat)
    | ConfidenceRange(i: nat)
    | EvidenceShape(i: nat)
    | ActionsShape
    | ActionNotObject(i: nat)
    | ActionBlank(i: nat)
    | RiskUnknown(i: nat)
    | RunbookRefShape(i: nat)
    | MissingContextShape
    | MissingContextItems
    | PromptVersionShape
    | IncidentIdMismatch

  function If(c: bool, e: Complaint): seq<Complaint> {
    if c then [e] else []
  }

  function HypothesisErrors(h: Json, i: nat): seq<Complaint> {
    if !h.JObj? then [HypothesisNotObject(i)]
    else If(!TextOk(Field(h.fields, "cause")), CauseBlank(i))
         + If(!ConfidenceOk(Field(h.fields, "confidence")), ConfidenceRange(i))
         + If(!StringsOk(EvidenceField(h.fields)), EvidenceShape(i))
  }

  function ActionErrors(a: Json, i: nat): seq<Complaint> {
    if !a.JObj? then [ActionNotObject(i)]
    else If(!TextOk(Field(a.fields, "action")), ActionBlank(i))
         + If(!RiskOk(Field(a.fields, "risk")), RiskUnknown(i))
         + If(!RefOk(Field(a.fields, "runbook_ref")), RunbookRefShape(i))
  }

  function HypothesisErrorsUpTo(items: seq<Json>, n: nat): seq<Complaint>
    requires n <= |items|
  {
    if n == 0 then [] else HypothesisErrorsUpTo(items, n - 1) + HypothesisErrors(items[n - 1], n - 1)
  }

  function ActionErrorsUpTo(items: seq<Json>, n: nat): seq<Complaint>
    requires n <= |items|
  {
    if n == 0 then [] else ActionErrorsUpTo(items, n - 1) + ActionErrors(items[n - 1], n - 1)
  }

  function ListErrors(j: Json): seq<Complaint> {
    if !HypothesesShapeOk(j) then [HypothesesShape]
    else HypothesisErrorsUpTo(j.items, |j.items|)
  }

  function ActionListErrors(j: Json): seq<Complaint> {
    if !j.JArr? then [ActionsShape] else ActionErrorsUpTo(j.items, |j.items|)
  }

  function MissingErrors(j: Json): seq<Complaint> {
    if !j.JArr? then [MissingContextShape] else If(!StringsOk(j), MissingContextItems)
  }

  /** Every complaint, in the order the checks are made. */
  function Complaints(doc: Doc, expected: Option<string>): seq<Complaint> {
    var id := Field(doc, "incident_id");
    If(!TextOk(id), IncidentIdBlank)
    + ListErrors(Field(doc, "hypotheses"))
    + ActionListErrors(Field(doc, "suggested_actions"))
    + MissingErrors(Field(doc, "missing_context"))
    + If(!PromptVersionOk(Field(doc, "prompt_version")), PromptVersionShape)
    + If(expected.Some? && id.JStr? && id.s != expected.value, IncidentIdMismatch)
  }

  lemma NoErrorsInOne(j: Json, i: nat)
    ensures HypothesisErrors(j, i) == [] <==> HypothesisOk(j)
    ensures ActionErrors(j, i) == [] <==> ActionOk(j)
  {
  }

  lemma {:induction false} NoHypothesisErrors(items: seq<Json>, n: nat)
    requires n <= |items|
    ensures HypothesisErrorsUpTo(items, n) == [] <==> forall i | 0 <= i < n :: HypothesisOk(items[i])
  {
    hide HypothesisErrors, HypothesisOk;
    if n > 0 {
      NoHypothesisErrors(items, n - 1);
      NoErrorsInOne(items[n - 1], n - 1);
    }
  }

  lemma {:induction false} NoActionErrors(items: seq<Json>, n: nat)
    requires n <= |items|
    ensures ActionErrorsUpTo(items, n) == [] <==> forall i | 0 <= i < n :: ActionOk(items[i])
  {
    hide ActionErrors, ActionOk;
    if n > 0 {
      NoActionErrors(items, n - 1);
      NoErrorsInOne(items[n - 1], n - 1);
    }
  }

  /** Nothing is complained of exactly when every field meets the contract. */
  lemma NoComplaintsIffMeets(doc: Doc, expected: Option<string>)
    ensures Complaints(doc, expected) == [] <==> Meets(doc, expected)
  {
    var hs, xs := Field(doc, "hypotheses"), Field(doc, "suggested_actions");
    if HypothesesShapeOk(hs) { NoHypothesisErrors(hs.items, |hs.items|); }
    if xs.JArr? { NoActionErrors(xs.items, |xs.items|); }
  }

  // ---------------------------------------------------------------- validate_report

  datatype Verdict =
    | Accepted(report: TriageReport)
    | Invalid(complaints: seq<Complaint>)   // ValueError
    | TypeErrorRaised

  /** What validation promises: acceptance is exactly the contract. */
  function Validate(doc: Doc, expected: Option<string>): Verdict {
    if RaisesTypeError(doc) then TypeErrorRaised
    else if Meets(doc, expected) then Accepted(Read(doc))
    else Invalid(Complaints(doc, expected))
  }

  method CheckHypothesis(h: Json, i: nat) returns (found: seq<Hypothesis>, errors: seq<Complaint>)
    ensures errors == HypothesisErrors(h, i)
    ensures errors == [] <==> HypothesisOk(h)
    ensures errors == [] ==> found == [ReadHypothesis(h)]
    ensures errors != [] ==> found == []
  {
    found, errors := [], [];
    if !h.JObj? {
      errors := [HypothesisNotObject(i)];
      return;
    }
    var causeOk := TextOk(Field(h.fields, "cause"));
    var confOk := ConfidenceOk(Field(h.fields, "confidence"));
    var evidenceOk := StringsOk(EvidenceField(h.fields));
    errors := If(!causeOk, CauseBlank(i)) + If(!confOk, ConfidenceRange(i)) + If(!evidenceOk, EvidenceShape(i));
    if causeOk && confOk && evidenceOk {
      found := [ReadHypothesis(h)];
    }
  }

  lemma OneMoreHypothesis(items: seq<Json>, n: nat)
    requires n < |items| && forall k | 0 <= k <= n :: HypothesisOk(items[k])
    ensures ReadHypotheses(items[..n + 1]) == ReadHypotheses(items[..n]) + [ReadHypothesis(items[n])]
  {
  }

  method ReadHypothesisList(j: Json) returns (found: seq<Hypothesis>, errors: seq<Complaint>)
    ensures errors == ListErrors(j)
    ensures errors == [] ==> HypothesesShapeOk(j)
    ensures errors == [] ==> forall i | 0 <= i < |j.items| :: HypothesisOk(j.items[i])
    ensures errors == [] ==> found == ReadHypotheses(j.items)
  {
    hide HypothesisOk, HypothesisErrors, ReadHypothesis;
    found, errors := [], [];
    if !HypothesesShapeOk(j) {
      errors := [HypothesesShape];
      return;
    }
    for i := 0 to |j.items|
      invariant errors == HypothesisErrorsUpTo(j.items, i)
      invariant errors == [] ==> forall k | 0 <= k < i :: HypothesisOk(j.items[k])
      invariant errors == [] ==> found == ReadHypotheses(j.items[..i])
    {
      var f, e := CheckHypothesis(j.items[i], i);
      if errors + e == [] {
        OneMoreHypothesis(j.items, i);
      }
      found, errors := found + f, errors + e;
    }
    assert j.items[..|j.items|] == j.items;
  }

  lemma OneMoreAction(items: seq<Json>, n: nat)
    requires n < |items| && forall k | 0 <= k <= n :: ActionOk(items[k])
    ensures ReadActions(items[..n + 1]) == ReadActions(items[..n]) + [ReadAction(items[n])]
  {
  }

  method CheckAction(a: Json, i: nat) returns (found: seq<SuggestedAction>, errors: seq<Complaint>, typeError: bool)
    ensures typeError <==> RaisesAt(a)
    ensures !typeError ==> errors == ActionErrors(a, i)
    ensures !typeError ==> (errors == [] <==> ActionOk(a))
    ensures !typeError && errors == [] ==> found == [ReadAction(a)]
    ensures !typeError && errors != [] ==> found == []
  {
    found, errors, typeError := [], [], false;
    if !a.JObj? {
      errors := [ActionNotObject(i)];
      return;
    }
    var actionOk := TextOk(Field(a.fields, "action"));
    if Unhashable(Field(a.fields, "risk")) {
      typeError := true;
      return;
    }
    var riskOk := RiskOk(Field(a.fields, "risk"));
    var refOk := RefOk(Field(a.fields, "runbook_ref"));
    errors := If(!actionOk, ActionBlank(i)) + If(!riskOk, RiskUnknown(i)) + If(!refOk, RunbookRefShape(i));
    if actionOk && riskOk && refOk {
      found := [ReadAction(a)];
    }
  }

  method ReadActionList(j: Json) returns (found: seq<SuggestedAction>, errors: seq<Complaint>, typeError: bool)
    ensures typeError <==> j.JArr? && exists i | 0 <= i < |j.items| :: RaisesAt(j.items[i])
    ensures !typeError ==> errors == ActionListErrors(j)
    ensures !typeError && errors == [] ==> j.JArr? && forall i | 0 <= i < |j.items| :: ActionOk(j.items[i])
    ensures !typeError && errors == [] ==> found == ReadActions(j.items)
  {
    hide ActionOk, ActionErrors, RaisesAt, ReadAction;
    found, errors, typeError := [], [], false;
    if !j.JArr? {
      errors := [ActionsShape];
      return;
    }
    for i := 0 to |j.items|
      invariant forall k | 0 <= k < i :: !RaisesAt(j.items[k])
      invariant errors == ActionErrorsUpTo(j.items, i)
      invariant errors == [] ==> forall k | 0 <= k < i :: ActionOk(j.items[k])
      invariant errors == [] ==> found == ReadActions(j.items[..i])
    {
      var f, e, raised := CheckAction(j.items[i], i);
      if raised {
        typeError := true;
        return;
      }
      if errors + e == [] {
        OneMoreAction(j.items, i);
      }
      found, errors := found + f, errors + e;
    }
    assert j.items[..|j.items|] == j.items;
  }

  method ReadMissing(j: Json) returns (found: seq<string>, errors: seq<Complaint>)
    ensures errors == MissingErrors(j)
    ensures errors == [] ==> StringsOk(j) && found == Strings(j.items)
  {
    found, errors := [], [];
    if !j.JArr? {
      errors := [MissingContextShape];
    } else if !StringsOk(j) {
      errors := [MissingContextItems];
    } else {
      found := Strings(j.items);
    }
  }

  /** validate_report, as it is written: it collects complaints field by field. */
  method ValidateReport(doc: Doc, expected: Option<string>) returns (v: Verdict)
    ensures v == Validate(doc, expected)
  {
    var id, version := Field(doc, "incident_id"), Field(doc, "prompt_version");
    var errors := If(!TextOk(id), IncidentIdBlank);
    var hypotheses, e1 := ReadHypothesisList(Field(doc, "hypotheses"));
    errors := errors + e1;
    var actions, e2, typeError := ReadActionList(Field(doc, "suggested_actions"));
    if typeError {
      return TypeErrorRaised;
    }
    errors := errors + e2;
    var missing, e3 := ReadMissing(Field(doc, "missing_context"));
    errors := errors + e3;
    errors := errors + If(!PromptVersionOk(version), PromptVersionShape);
    errors := errors + If(expected.Some? && id.JStr? && id.s != expected.value, IncidentIdMismatch);
    NoComplaintsIffMeets(doc, expected);
    assert errors == Complaints(doc, expected);
    if errors != [] {
      return Invalid(errors);
    }
    return Accepted(TriageReport(id.s, hypotheses, actions, missing, version.s, true));
  }

  // ---------------------------------------------------------------- storing a report

  function StringsToJson(ss: seq<string>): Json {
    JArr(seq(|ss|, i requires 0 <= i < |ss| => JStr(ss[i])))
  }

  function HypothesisToJson(h: Hypothesis): Json {
    JObj(map["cause" := JStr(h.cause), "confidence" := JNum(h.confidence), "evidence" := StringsToJson(h.evidence)])
  }

  function ActionToJson(a: SuggestedAction): Json {
    JObj(map["action" := JStr(a.action), "risk" := JStr(a.risk),
             "runbook_ref" := if a.runbookRef.Some? then JStr(a.runbookRef.value) else JNull])
  }

  /** _report_to_dict */
  function ReportToDict(r: TriageReport): Doc {
    map["incident_id" := JStr(r.incidentId),
        "hypotheses" := JArr(seq(|r.hypotheses|, i requires 0 <= i < |r.hypotheses| => HypothesisToJson(r.hypotheses[i]))),
        "suggested_actions" :=
          JArr(seq(|r.suggestedActions|, i requires 0 <= i < |r.suggestedActions| => ActionToJson(r.suggestedActions[i]))),
        "missing_context" := StringsToJson(r.missingContext),
        "prompt_version" := JStr(r.promptVersion)]
  }

  /** The report could have come out of validation. */
  predicate WellFormed(r: TriageReport) {
    && NonBlank(r.incidentId)
    && 1 <= |r.hypotheses| <= 5
    && (forall i | 0 <= i < |r.hypotheses| ::
          NonBlank(r.hypotheses[i].cause) && 0.0 <= r.hypotheses[i].confidence <= 1.0)
    && (forall i | 0 <= i < |r.suggestedActions| ::
          NonBlank(r.suggestedActions[i].action) && r.suggestedActions[i].risk in {"read-only", "mutating"})
    && SemverMatch(r.promptVersion)
  }

  lemma GoodDocumentsNeverRaise(doc: Doc, expected: Option<string>)
    ensures Meets(doc, expected) ==> !RaisesTypeError(doc)
  {
    if RaisesTypeError(doc) {
      var xs := Field(doc, "suggested_actions").items;
      var i :| 0 <= i < |xs| && RaisesAt(xs[i]);
      assert !ActionOk(xs[i]);
    }
  }

  /** h is the hypothesis in j; evidence that j leaves out is none. */
  predicate SaysHypothesis(j: Json, h: Hypothesis) {
    && j.JObj? && {"cause", "confidence"} <= j.fields.Keys
    && j.fields["cause"] == JStr(h.cause) && j.fields["confidence"] == JNum(h.confidence)
    && if "evidence" in j.fields then j.fields["evidence"] == StringsToJson(h.evidence) else h.evidence == []
  }

  /** a is the action in j. */
  predicate SaysAction(j: Json, a: SuggestedAction) {
    && j.JObj? && {"action", "risk"} <= j.fields.Keys
    && j.fields["action"] == JStr(a.action) && j.fields["risk"] == JStr(a.risk)
    && if "runbook_ref" in j.fields && j.fields["runbook_ref"] != JNull
       then a.runbookRef.Some? && j.fields["runbook_ref"] == JStr(a.runbookRef.value)
       else a.runbookRef == None
  }

  /** The report has the document's id, version, hypotheses and actions: the same items, all of them, in the same order. */
  ghost predicate Says(doc: Doc, r: TriageReport) {
    && {"incident_id", "hypotheses", "suggested_actions", "prompt_version"} <= doc.Keys
    && doc["incident_id"] == JStr(r.incidentId) && doc["prompt_version"] == JStr(r.promptVersion)
    && doc["hypotheses"].JArr? && |doc["hypotheses"].items| == |r.hypotheses|
    && (forall i | 0 <= i < |r.hypotheses| :: SaysHypothesis(doc["hypotheses"].items[i], r.hypotheses[i]))
    && doc["suggested_actions"].JArr? && |doc["suggested_actions"].items| == |r.suggestedActions|
    && (forall i | 0 <= i < |r.suggestedActions| :: SaysAction(doc["suggested_actions"].items[i], r.suggestedActions[i]))
  }

  /** ... and its missing context. */
  ghost predicate Mirrors(r: TriageReport, doc: Doc) {
    Says(doc, r) && "missing_context" in doc && doc["missing_context"] == StringsToJson(r.missingContext)
  }

  lemma ReadSays(j: Json)
    ensures HypothesisOk(j) ==> SaysHypothesis(j, ReadHypothesis(j))
    ensures ActionOk(j) ==> SaysAction(j, ReadAction(j))
  {
    if HypothesisOk(j) {
      var items := EvidenceField(j.fields).items;
      assert StringsToJson(Strings(items)).items == items;
    }
  }

  lemma ReadMirrors(doc: Doc)
    requires Meets(doc, None)
    ensures WellFormed(Read(doc)) && Mirrors(Read(doc), doc)
  {
    hide NonBlank, SemverMatch, SaysHypothesis, SaysAction, ReadHypothesis, ReadAction;
    var r := Read(doc);
    var hs, xs, ms := doc["hypotheses"].items, doc["suggested_actions"].items, doc["missing_context"];
    forall i | 0 <= i < |hs|
      ensures SaysHypothesis(hs[i], r.hypotheses[i])
      ensures NonBlank(r.hypotheses[i].cause) && 0.0 <= r.hypotheses[i].confidence <= 1.0
    {
      ReadSays(hs[i]);
      GoodItem(hs[i]);
    }
    forall i | 0 <= i < |xs|
      ensures SaysAction(xs[i], r.suggestedActions[i])
      ensures NonBlank(r.suggestedActions[i].action) && r.suggestedActions[i].risk in {"read-only", "mutating"}
    {
      ReadSays(xs[i]);
      GoodItem(xs[i]);
    }
    StringsReadBack(ms);
  }

  lemma GoodItem(j: Json)
    ensures HypothesisOk(j) ==> var h := ReadHypothesis(j); NonBlank(h.cause) && 0.0 <= h.confidence <= 1.0
    ensures ActionOk(j) ==> var a := ReadAction(j); NonBlank(a.action) && a.risk in {"read-only", "mutating"}
  {
  }

  lemma StringsReadBack(j: Json)
    requires StringsOk(j)
    ensures StringsToJson(Strings(j.items)) == j
  {
    assert StringsToJson(Strings(j.items)).items == j.items;
  }

  /** Accepted exactly when the contract is met, and then with nothing dropped, changed or reordered. */
  lemma AcceptedIffContract(doc: Doc, expected: Option<string>)
    ensures Validate(doc, expected).Accepted? <==> Meets(doc, expected)
    ensures Meets(doc, expected) ==>
              var r := Validate(doc, expected).report;
              && WellFormed(r) && r.validated && Mirrors(r, doc)
              && (expected.Some? ==> r.incidentId == expected.value)
    ensures Validate(doc, expected).Invalid? ==> Validate(doc, expected).complaints != []
  {
    NoComplaintsIffMeets(doc, expected);
    GoodDocumentsNeverRaise(doc, expected);
    if Meets(doc, expected) { ReadMirrors(doc); }
  }

  lemma StoredHypothesis(h: Hypothesis)
    ensures HypothesisOk(HypothesisToJson(h)) <==> NonBlank(h.cause) && 0.0 <= h.confidence <= 1.0
    ensures HypothesisOk(HypothesisToJson(h)) ==> ReadHypothesis(HypothesisToJson(h)) == h
  {
    var items := StringsToJson(h.evidence).items;
    assert EvidenceField(HypothesisToJson(h).fields) == JArr(items);
    assert Strings(items) == h.evidence;
  }

  lemma StoredAction(a: SuggestedAction)
    ensures ActionOk(ActionToJson(a)) <==> NonBlank(a.action) && a.risk in {READ_ONLY, MUTATING}
    ensures ActionOk(ActionToJson(a)) ==> ReadAction(ActionToJson(a)) == a
    ensures !Unhashable(Field(ActionToJson(a).fields, "risk"))
  {
  }

  /** A stored report reads back as itself exactly when it is well formed. */
  lemma StoredReportReadsBack(r: TriageReport)
    ensures WellFormed(r) <==> Validate(ReportToDict(r), None).Accepted?
    ensures WellFormed(r) ==> Validate(ReportToDict(r), None) == Accepted(r.(validated := true))
  {
    hide NonBlank, SemverMatch, HypothesisOk, ActionOk, ReadHypothesis, ReadAction, Unhashable;
    var doc := ReportToDict(r);
    var hs, xs := doc["hypotheses"].items, doc["suggested_actions"].items;
    forall i | 0 <= i < |hs| { StoredHypothesis(r.hypotheses[i]); }
    forall i | 0 <= i < |xs| { StoredAction(r.suggestedActions[i]); }
    assert forall i | 0 <= i < |xs| :: xs[i] == ActionToJson(r.suggestedActions[i]);
    assert forall i | 0 <= i < |hs| :: hs[i] == HypothesisToJson(r.hypotheses[i]);
    assert !RaisesTypeError(doc);
    assert StringsOk(doc["missing_context"]);
    assert Meets(doc, None) <==> WellFormed(r);
    if WellFormed(r) {
      assert ReadHypotheses(hs) == r.hypotheses;
      assert ReadActions(xs) == r.suggestedActions;
      assert Strings(doc["missing_context"].items) == r.missingContext;
    }
  }

  /** Two well-formed reports that are stored alike are alike. */
  lemma StoredFormIsInjective(r: TriageReport, q: TriageReport)
    requires WellFormed(r) && WellFormed(q) && r.validated && q.validated
    requires ReportToDict(r) == ReportToDict(q)
    ensures r == q
  {
    StoredReportReadsBack(r);
    StoredReportReadsBack(q);
  }

  // ---------------------------------------------------------------- the finer points of the contract

  /** A version is three numbers with dots between them, and perhaps a newline. */
  ghost predicate Version(s: string, a: string, b: string, c: string, tail: string) {
    s == a + "." + b + "." + c + tail && Digits(a) && Digits(b) && Digits(c) && (tail == "" || tail == "\n")
  }

  lemma DotsSplit(a: string, b: string, c: string)
    ensures var s, i, j := a + "." + b + "." + c, |a|, |a| + 1 + |b|;
            i < j < |s| && s[i] == '.' && s[j] == '.' && s[..i] == a && s[i + 1..j] == b && s[j + 1..] == c
  {
  }

  lemma DotsJoin(s: string, i: nat, j: nat)
    requires i < j < |s| && s[i] == '.' && s[j] == '.'
    ensures s == s[..i] + "." + s[i + 1..j] + "." + s[j + 1..] + ""
  {
  }

  lemma NumbersAreAVersion(s: string)
    requires ThreeNumbers(s)
    ensures exists a, b, c :: Version(s, a, b, c, "")
  {
    hide Digits;
    var i, j :| 0 <= i < j < |s| && s[i] == '.' && s[j] == '.' && Digits(s[..i]) && Digits(s[i + 1..j]) && Digits(s[j + 1..]);
    DotsJoin(s, i, j);
    assert Version(s, s[..i], s[i + 1..j], s[j + 1..], "");
  }

  lemma VersionIsNumbers(s: string, a: string, b: string, c: string)
    requires Version(s, a, b, c, "")
    ensures ThreeNumbers(s)
  {
    hide Digits;
    DotsSplit(a, b, c);
    assert s == a + "." + b + "." + c;
  }

  lemma ThreeNumbersIff(s: string)
    ensures ThreeNumbers(s) <==> exists a, b, c :: Version(s, a, b, c, "")
  {
    hide ThreeNumbers, Version;
    if ThreeNumbers(s) { NumbersAreAVersion(s); }
    if a, b, c :| Version(s, a, b, c, "") { VersionIsNumbers(s, a, b, c); }
  }

  lemma SemverIff(s: string)
    ensures SemverMatch(s) <==> exists a, b, c, tail :: Version(s, a, b, c, tail)
  {
    ThreeNumbersIff(s);
    if s != "" {
      var front := s[..|s| - 1];
      ThreeNumbersIff(front);
      if s[|s| - 1] == '\n' && ThreeNumbers(front) {
        var a, b, c :| Version(front, a, b, c, "");
        assert s == front + "\n";
        assert Version(s, a, b, c, "\n");
      }
      if a, b, c :| Version(s, a, b, c, "\n") {
        assert s[|s| - 1] == '\n' && front == a + "." + b + "." + c + "";
        assert Version(front, a, b, c, "");
      }
    }
  }

  /** str.strip() */
  function Strip(s: string): string {
    if s != "" && IsSpace(s[0]) then Strip(s[1..])
    else if s != "" && IsSpace(s[|s| - 1]) then Strip(s[..|s| - 1])
    else s
  }

  lemma {:induction false} NonBlankIff(s: string)
    ensures NonBlank(s) <==> Strip(s) != ""
  {
    if s != "" && IsSpace(s[0]) {
      NonBlankIff(s[1..]);
      assert NonBlank(s) <==> NonBlank(s[1..]) by {
        if NonBlank(s[1..]) { var i :| 0 <= i < |s[1..]| && !IsSpace(s[1..][i]); assert !IsSpace(s[i + 1]); }
        if NonBlank(s) { var i :| 0 <= i < |s| && !IsSpace(s[i]); assert !IsSpace(s[1..][i - 1]); }
      }
    } else if s != "" && IsSpace(s[|s| - 1]) {
      NonBlankIff(s[..|s| - 1]);
      assert NonBlank(s) <==> NonBlank(s[..|s| - 1]) by {
        if NonBlank(s[..|s| - 1]) { var i :| 0 <= i < |s| - 1 && !IsSpace(s[..|s| - 1][i]); assert !IsSpace(s[i]); }
        if NonBlank(s) { var i :| 0 <= i < |s| && !IsSpace(s[i]); assert !IsSpace(s[..|s| - 1][i]); }
      }
    }
  }

  /** Two items that validation cannot tell apart. */
  predicate SameItem(x: Json, y: Json, k: nat) {
    && (HypothesisOk(y) <==> HypothesisOk(x)) && (HypothesisOk(x) ==> ReadHypothesis(y) == ReadHypothesis(x))
    && HypothesisErrors(y, k) == HypothesisErrors(x, k)
  }

  predicate SameItems(xs: seq<Json>, ys: seq<Json>) {
    |xs| == |ys| && forall k | 0 <= k < |xs| :: SameItem(xs[k], ys[k], k)
  }

  lemma {:induction false} SameErrors(xs: seq<Json>, ys: seq<Json>, n: nat)
    requires SameItems(xs, ys) && n <= |xs|
    ensures HypothesisErrorsUpTo(xs, n) == HypothesisErrorsUpTo(ys, n)
  {
    hide HypothesisErrors, HypothesisOk, ReadHypothesis;
    if n > 0 {
      SameErrors(xs, ys, n - 1);
      assert SameItem(xs[n - 1], ys[n - 1], n - 1);
    }
  }

  lemma SameComplaints(doc: Doc, after: Doc, expected: Option<string>)
    requires forall key | key != "hypotheses" :: Field(after, key) == Field(doc, key)
    requires ListErrors(Field(after, "hypotheses")) == ListErrors(Field(doc, "hypotheses"))
    ensures Complaints(after, expected) == Complaints(doc, expected)
  {
    hide Field, ListErrors, ActionListErrors, MissingErrors, TextOk, PromptVersionOk;
  }

  lemma SameReading(doc: Doc, after: Doc, expected: Option<string>)
    requires Meets(doc, expected) && Meets(after, expected)
    requires forall key | key != "hypotheses" :: Field(after, key) == Field(doc, key)
    requires SameItems(Field(doc, "hypotheses").items, Field(after, "hypotheses").items)
    ensures Read(after) == Read(doc)
  {
    hide NonBlank, SemverMatch, HypothesisOk, ReadHypothesis, ActionOk, ReadAction;
    var xs, ys := Field(doc, "hypotheses").items, Field(after, "hypotheses").items;
    assert forall k | 0 <= k < |xs| :: SameItem(xs[k], ys[k], k);
    assert ReadHypotheses(ys) == ReadHypotheses(xs);
    assert Field(after, "incident_id") == Field(doc, "incident_id") && Field(after, "prompt_version") == Field(doc, "prompt_version");
    assert Field(after, "suggested_actions") == Field(doc, "suggested_actions");
    assert Field(after, "missing_context") == Field(doc, "missing_context");
  }

  lemma SameVerdict(doc: Doc, after: Doc, expected: Option<string>)
    requires "hypotheses" in doc && "hypotheses" in after && doc["hypotheses"].JArr? && after["hypotheses"].JArr?
    requires SameItems(doc["hypotheses"].items, after["hypotheses"].items)
    requires forall key | key != "hypotheses" :: Field(after, key) == Field(doc, key)
    ensures Validate(after, expected) == Validate(doc, expected)
  {
    hide Complaints, Meets, RaisesAt, Read, SameItem;
    var xs, ys := doc["hypotheses"].items, after["hypotheses"].items;
    SameErrors(xs, ys, |xs|);
    assert RaisesTypeError(after) <==> RaisesTypeError(doc) by {
      assert Field(after, "suggested_actions") == Field(doc, "suggested_actions");
    }
    hide RaisesTypeError, Field;
    SameComplaints(doc, after, expected);
    NoComplaintsIffMeets(doc, expected);
    NoComplaintsIffMeets(after, expected);
    if Meets(doc, expected) { SameReading(doc, after, expected); }
  }

  lemma SameHypothesis(h: Json, written: Json, i: nat)
    requires h.JObj? && "evidence" !in h.fields && written == JObj(h.fields["evidence" := JArr([])])
    ensures HypothesisOk(written) <==> HypothesisOk(h)
    ensures HypothesisOk(h) ==> ReadHypothesis(written) == ReadHypothesis(h)
    ensures HypothesisErrors(written, i) == HypothesisErrors(h, i)
  {
    hide TextOk, ConfidenceOk;
    assert forall key | key != "evidence" :: Field(written.fields, key) == Field(h.fields, key);
    assert EvidenceField(written.fields) == EvidenceField(h.fields);
  }

  /** Evidence that is left out is read as an empty list: writing the empty list there changes no verdict. */
  lemma MissingEvidenceIsEmpty(doc: Doc, expected: Option<string>, i: nat)
    requires "hypotheses" in doc && doc["hypotheses"].JArr? && i < |doc["hypotheses"].items|
    requires doc["hypotheses"].items[i].JObj? && "evidence" !in doc["hypotheses"].items[i].fields
    ensures var hs := doc["hypotheses"].items;
            var written := JObj(hs[i].fields["evidence" := JArr([])]);
            Validate(doc["hypotheses" := JArr(hs[i := written])], expected) == Validate(doc, expected)
  {
    hide Validate, HypothesisOk, HypothesisErrors, ReadHypothesis;
    var hs := doc["hypotheses"].items;
    var written := JObj(hs[i].fields["evidence" := JArr([])]);
    var ys := hs[i := written];
    SameHypothesis(hs[i], written, i);
    forall k | 0 <= k < |hs| ensures SameItem(hs[k], ys[k], k) {
    }
    hide SameItem;
    var after := doc["hypotheses" := JArr(ys)];
    assert after["hypotheses"].items == ys;
    SameVerdict(doc, after, expected);
  }

  /** A document that is good but for the number of its hypotheses is accepted exactly with one to five of them. */
  lemma OneToFiveHypotheses(doc: Doc, expected: Option<string>, hs: seq<Json>)
    requires Meets(doc, expected) && forall i | 0 <= i < |hs| :: HypothesisOk(hs[i])
    ensures Validate(doc["hypotheses" := JArr(hs)], expected).Accepted? <==> 1 <= |hs| <= 5
  {
    hide TextOk, HypothesisOk, StringsOk, PromptVersionOk, ActionOk;
    var after := doc["hypotheses" := JArr(hs)];
    assert forall key | key != "hypotheses" :: Field(after, key) == Field(doc, key);
    AcceptedIffContract(after, expected);
  }
}
