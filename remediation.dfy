/**
  The reasoning stage of the remediation agent (`reason_remediation`): the
  policies of the audit report whose compliance flag is falsy become
  remediation items, each with a severity looked up by the first word of the
  policy name; the item list is sent to the remediation endpoint and its
  reply becomes the remediation plan.

  The report is whatever JSON the caller supplied, so the Python operations
  that raise on the wrong shape (`.items()` or `.get` on a non-dictionary,
  iterating a number, `.split()` on a non-string, `[0]` of an empty split)
  are modelled as errors that escape the stage.
*/
module Remediation {
  import opened Wrappers
  import opened JsonValues

  /** One element of `remediation_input`. */
  datatype RemediationItem = RemediationItem(
    serviceName: Json,
    policyName: string,
    details: Json,
    missingPlugins: Json,
    severity: string)

  /** The exceptions the loop can raise. */
  datatype RemediationException = AttributeError | TypeError | IndexError

  /** The remediation endpoint: the reply body, or None when the call or the parse failed. */
  type Remediator = seq<RemediationItem> -> Option<Json>

  /** The characters Python's `str.split()` treats as whitespace. */
  predicate IsSpace(c: char) {
    || c == ' '
    || '\t' <= c <= '\r'
    || '\U{1c}' <= c <= '\U{1f}'
    || c == '\U{85}' || c == '\U{a0}' || c == '\U{1680}'
    || '\U{2000}' <= c <= '\U{200a}'
    || c == '\U{2028}' || c == '\U{2029}' || c == '\U{202f}' || c == '\U{205f}' || c == '\U{3000}'
  }

  /** The longest prefix of `s` without whitespace. */
  function LeadingWord(s: string): (w: string)
    ensures |w| <= |s| && w == s[..|w|]
    ensures forall i :: 0 <= i < |w| ==> !IsSpace(w[i])
    ensures |w| < |s| ==> IsSpace(s[|w|])
  {
    if s == [] || IsSpace(s[0]) then [] else [s[0]] + LeadingWord(s[1..])
  }

  /** The number of whitespace characters `s` starts with. */
  function LeadingSpaces(s: string): (k: nat)
    ensures k <= |s|
    ensures forall i :: 0 <= i < k ==> IsSpace(s[i])
    ensures k < |s| ==> !IsSpace(s[k])
  {
    if s == [] || !IsSpace(s[0]) then 0 else 1 + LeadingSpaces(s[1..])
  }

  /**
    `s.split()[0]`: the first maximal run of non-whitespace characters, or
    None when `s` is empty or all whitespace (where `[0]` raises).
  */
  function FirstToken(s: string): (t: Option<string>)
    ensures t.None? <==> forall i :: 0 <= i < |s| ==> IsSpace(s[i])
    ensures t.Some? ==> t.value != [] && forall i :: 0 <= i < |t.value| ==> !IsSpace(t.value[i])
  {
    var k := LeadingSpaces(s);
    if k == |s| then None
    else
      assert s[k..][0] == s[k];
      Some(LeadingWord(s[k..]))
  }

  /** The severity table of the stage, keyed by policy-name prefix. */
  const SeverityTable: map<string, string> := map[
    "Authentication" := "Critical",
    "Rate Limiting" := "High",
    "Request Size Limiting" := "Medium",
    "Logging" := "Medium",
    "IP Restriction" := "Low",
    "Request Transformation" := "Low"]

  /** `severity_map.get(token, "Medium")`. */
  function SeverityOf(token: string): (severity: string)
    ensures severity == "Critical" <==> token == "Authentication"
    ensures severity == "High" <==> token == "Rate Limiting"
    ensures severity == "Low" <==> token == "IP Restriction" || token == "Request Transformation"
    ensures severity != "Medium" ==> token in SeverityTable
  {
    if token in SeverityTable then SeverityTable[token] else "Medium"
  }

  /**
    The lookup is by a single token, so the table's multi-word keys never
    match: the severity of any policy name is "Critical" when its first word
    is "Authentication" and "Medium" otherwise.
  */
  lemma SeverityIsCriticalOrMedium(name: string)
    requires FirstToken(name).Some?
    ensures SeverityOf(FirstToken(name).value) == if FirstToken(name).value == "Authentication" then "Critical" else "Medium"
  {
    var t := FirstToken(name).value;
    assert IsSpace("Rate Limiting"[4]);
    assert IsSpace("Request Size Limiting"[7]);
    assert IsSpace("IP Restriction"[2]);
    assert IsSpace("Request Transformation"[7]);
  }

  /** `policy.get("comply", policy.get("comply_status", True))`. */
  function ComplyFlag(policy: Fields): (flag: Json)
    ensures Get(policy, "comply").Some? ==> flag == Get(policy, "comply").value
    ensures Get(policy, "comply").None? && Get(policy, "comply_status").Some? ==> flag == Get(policy, "comply_status").value
    ensures Get(policy, "comply").None? && Get(policy, "comply_status").None? ==> Truthy(flag)
  {
    match Get(policy, "comply")
    case Some(v) => v
    case None => GetOr(policy, "comply_status", Bool(true))
  }

  /** `policy.get("policy_name", "Unknown Policy")`. */
  function PolicyName(policy: Fields): Json {
    GetOr(policy, "policy_name", Str("Unknown Policy"))
  }

  /** A policy name that `.split()[0]` accepts. */
  predicate Splittable(name: Json) {
    name.Str? && FirstToken(name.s).Some?
  }

  /** A dictionary policy whose name splits. */
  predicate NameSplits(policy: Json) {
    policy.Obj? && Splittable(PolicyName(policy.fields))
  }

  /** A dictionary policy whose name is a string that is empty or all whitespace. */
  predicate NameBlank(policy: Json) {
    policy.Obj? && PolicyName(policy.fields).Str? &&
    forall i :: 0 <= i < |PolicyName(policy.fields).s| ==> IsSpace(PolicyName(policy.fields).s[i])
  }

  /** A policy the loop turns into an item: a dictionary whose flag is falsy. */
  predicate NonCompliant(policy: Json) {
    policy.Obj? && !Truthy(ComplyFlag(policy.fields))
  }

  /** What iterating a JSON value yields: list items, dictionary keys or characters; None if not iterable. */
  function Iterate(j: Json): (items: Option<seq<Json>>)
    ensures items.None? <==> !(j.Arr? || j.Obj? || j.Str?)
    ensures j.Arr? ==> items == Some(j.items)
    ensures j.Obj? ==> |items.value| == |j.fields| && forall i :: 0 <= i < |j.fields| ==> items.value[i] == Str(Keys(j.fields)[i])
    ensures j.Str? ==> |items.value| == |j.s| && forall i :: 0 <= i < |j.s| ==> items.value[i] == Str([j.s[i]])
  {
    match j
    case Arr(items) => Some(items)
    case Obj(fields) => Some(seq(|fields|, i requires 0 <= i < |fields| => Str(fields[i].0)))
    case Str(s) => Some(seq(|s|, i requires 0 <= i < |s| => Str([s[i]])))
    case _ => None
  }

  /** The body of the inner loop for one policy: an item, nothing (compliant), or an exception. */
  function PolicyEntry(serviceName: Json, policy: Json): (r: Result<Option<RemediationItem>, RemediationException>)
    ensures r == Ok(None) <==> policy.Obj? && !NonCompliant(policy)
    ensures r.Err? <==> !policy.Obj? || (NonCompliant(policy) && !Splittable(PolicyName(policy.fields)))
    ensures r.Ok? && r.value.Some? ==>
      var item := r.value.value;
      && NonCompliant(policy)
      && PolicyName(policy.fields) == Str(item.policyName)
      && item.serviceName == serviceName
      && item.details == GetOr(policy.fields, "details", Str("Non-compliance detected."))
      && item.missingPlugins == GetOr(policy.fields, "missing_plugins", Arr([]))
      && item.severity == (if FirstToken(item.policyName) == Some("Authentication") then "Critical" else "Medium")
  {
    if !policy.Obj? then Err(AttributeError)
    else if Truthy(ComplyFlag(policy.fields)) then Ok(None)
    else
      match PolicyName(policy.fields)
      case Str(name) =>
        (match FirstToken(name)
         case None => Err(IndexError)
         case Some(token) =>
           SeverityIsCriticalOrMedium(name);
           Ok(Some(RemediationItem(
             serviceName,
             name,
             GetOr(policy.fields, "details", Str("Non-compliance detected.")),
             GetOr(policy.fields, "missing_plugins", Arr([])),
             SeverityOf(token)))))
      case _ => Err(AttributeError)
  }

  /** `acc` followed by the items of `r`, or the exception of `r`. */
  function Prepend(acc: seq<RemediationItem>, r: Result<seq<RemediationItem>, RemediationException>)
    : Result<seq<RemediationItem>, RemediationException>
  {
    match r
    case Ok(items) => Ok(acc + items)
    case Err(e) => Err(e)
  }

  /** The inner loop over the policies of one service. */
  function PolicyItems(serviceName: Json, policies: seq<Json>): Result<seq<RemediationItem>, RemediationException> {
    if policies == [] then Ok([])
    else
      match PolicyEntry(serviceName, policies[0])
      case Err(e) => Err(e)
      case Ok(None) => PolicyItems(serviceName, policies[1..])
      case Ok(Some(item)) => Prepend([item], PolicyItems(serviceName, policies[1..]))
  }

  /** One iteration of the outer loop: the items of one service of the report. */
  function ServiceItems(serviceKey: string, serviceData: Json): Result<seq<RemediationItem>, RemediationException> {
    if !serviceData.Obj? then Err(AttributeError)
    else
      match Iterate(GetOr(serviceData.fields, "policies", Arr([])))
      case None => Err(TypeError)
      case Some(policies) => PolicyItems(GetOr(serviceData.fields, "serviceName", Str(serviceKey)), policies)
  }

  /** The outer loop over the services of the report. */
  function ReportItems(report: Fields): Result<seq<RemediationItem>, RemediationException> {
    if report == [] then Ok([])
    else
      match ServiceItems(report[0].0, report[0].1)
      case Err(e) => Err(e)
      case Ok(items) => Prepend(items, ReportItems(report[1..]))
  }

  /** `remediation_input` for the state's `audit_report` (None when the key is absent), or the exception. */
  function RemediationInput(auditReport: Option<Json>): Result<seq<RemediationItem>, RemediationException> {
    match auditReport.GetOr(Obj([]))
    case Obj(fields) => ReportItems(fields)
    case _ => Err(AttributeError)
  }

  /** The `remediation_plan` the stage assigns once the input is built: the reply, or `[]` on failure. */
  function RemediationPlan(items: seq<RemediationItem>, remediate: Remediator): (plan: Json)
    ensures remediate(items).None? ==> plan == Arr([])
    ensures remediate(items).Some? ==> plan == remediate(items).value
  {
    remediate(items).GetOr(Arr([]))
  }

  lemma PrependAssoc(a: seq<RemediationItem>, b: seq<RemediationItem>, r: Result<seq<RemediationItem>, RemediationException>)
    ensures Prepend(a, Prepend(b, r)) == Prepend(a + b, r)
  {
    if r.Ok? {
      assert a + (b + r.value) == (a + b) + r.value;
    }
  }

  /** The inner loop of `reason_remediation`: the items of one service appended to `items`. */
  method AppendPolicyItems(items: seq<RemediationItem>, serviceName: Json, policies: seq<Json>)
    returns (r: Result<seq<RemediationItem>, RemediationException>)
    ensures r == Prepend(items, PolicyItems(serviceName, policies))
  {
    var acc := items;
    assert policies[0..] == policies;
    for j := 0 to |policies|
      invariant Prepend(items, PolicyItems(serviceName, policies)) == Prepend(acc, PolicyItems(serviceName, policies[j..]))
    {
      assert policies[j..][1..] == policies[j + 1..];
      match PolicyEntry(serviceName, policies[j])
      case Err(e) =>
        return Err(e);
      case Ok(None) =>
      case Ok(Some(item)) =>
        PrependAssoc(acc, [item], PolicyItems(serviceName, policies[j + 1..]));
        acc := acc + [item];
    }
    assert policies[|policies|..] == [];
    assert acc + [] == acc;
    return Ok(acc);
  }

  /** The loops of `reason_remediation` that build `remediation_input`. */
  method CollectRemediationInput(auditReport: Option<Json>)
    returns (r: Result<seq<RemediationItem>, RemediationException>)
    ensures r == RemediationInput(auditReport)
  {
    var report := auditReport.GetOr(Obj([]));
    if !report.Obj? {
      return Err(AttributeError);
    }
    var services := report.fields;
    var items: seq<RemediationItem> := [];
    assert services[0..] == services;
    assert ReportItems(services).Ok? ==> [] + ReportItems(services).value == ReportItems(services).value;
    for i := 0 to |services|
      invariant ReportItems(services) == Prepend(items, ReportItems(services[i..]))
    {
      assert services[i..][1..] == services[i + 1..];
      var (serviceKey, serviceData) := services[i];
      if !serviceData.Obj? {
        return Err(AttributeError);
      }
      var serviceName := GetOr(serviceData.fields, "serviceName", Str(serviceKey));
      var iterated := Iterate(GetOr(serviceData.fields, "policies", Arr([])));
      if iterated.None? {
        return Err(TypeError);
      }
      var extended := AppendPolicyItems(items, serviceName, iterated.value);
      if extended.Err? {
        return Err(extended.error);
      }
      PrependAssoc(items, extended.value[|items|..], ReportItems(services[i + 1..]));
      assert items + extended.value[|items|..] == extended.value;
      items := extended.value;
    }
    assert services[|services|..] == [];
    assert items + [] == items;
    return Ok(items);
  }

  /** The policies of the report that the loops select, with the service name each is filed under. */
  function FlaggedPolicies(serviceName: Json, policies: seq<Json>): seq<(Json, Json)> {
    if policies == [] then []
    else (if NonCompliant(policies[0]) then [(serviceName, policies[0])] else []) + FlaggedPolicies(serviceName, policies[1..])
  }

  /** Every non-compliant policy of the report in report order, then policy order (the reference filter). */
  function Flagged(report: Fields): seq<(Json, Json)> {
    if report == [] then []
    else
      ServiceFlagged(report[0].0, report[0].1) + Flagged(report[1..])
  }

  /** The non-compliant policies of one service entry. */
  function ServiceFlagged(serviceKey: string, serviceData: Json): seq<(Json, Json)> {
    match serviceData
    case Obj(data) =>
      (match Iterate(GetOr(data, "policies", Arr([])))
       case Some(policies) => FlaggedPolicies(GetOr(data, "serviceName", Str(serviceKey)), policies)
       case None => [])
    case _ => []
  }

  /** The name of every flagged policy splits into at least one word. */
  ghost predicate NamesSplit(flagged: seq<(Json, Json)>) {
    forall k :: 0 <= k < |flagged| ==> NameSplits(flagged[k].1)
  }

  /** Item `k` is what the policy entry makes of flagged policy `k`. */
  ghost predicate ItemsOf(items: seq<RemediationItem>, flagged: seq<(Json, Json)>) {
    |items| == |flagged| && forall k :: 0 <= k < |items| ==> PolicyEntry(flagged[k].0, flagged[k].1) == Ok(Some(items[k]))
  }

  lemma ItemsOfAppend(a: seq<RemediationItem>, fa: seq<(Json, Json)>, b: seq<RemediationItem>, fb: seq<(Json, Json)>)
    requires ItemsOf(a, fa) && ItemsOf(b, fb)
    ensures ItemsOf(a + b, fa + fb)
  {
  }

  lemma {:induction false} PolicyItemsSelectFlagged(serviceName: Json, policies: seq<Json>)
    requires PolicyItems(serviceName, policies).Ok?
    ensures ItemsOf(PolicyItems(serviceName, policies).value, FlaggedPolicies(serviceName, policies))
  {
    if policies != [] {
      PolicyItemsSelectFlagged(serviceName, policies[1..]);
      var rest := PolicyItems(serviceName, policies[1..]).value;
      if NonCompliant(policies[0]) {
        var item := PolicyEntry(serviceName, policies[0]).value.value;
        ItemsOfAppend([item], [(serviceName, policies[0])], rest, FlaggedPolicies(serviceName, policies[1..]));
      }
    }
  }

  /**
    When the loops complete, `remediation_input` holds exactly the
    non-compliant policies, in report order then policy order: item `k` is
    built from flagged policy `k`. In particular each of their names splits.
  */
  lemma {:induction false} SelectsExactlyNonCompliant(report: Fields)
    requires ReportItems(report).Ok?
    ensures ItemsOf(ReportItems(report).value, Flagged(report))
    ensures NamesSplit(Flagged(report))
  {
    if report != [] {
      SelectsExactlyNonCompliant(report[1..]);
      var data := report[0].1;
      var policies := Iterate(GetOr(data.fields, "policies", Arr([]))).value;
      PolicyItemsSelectFlagged(GetOr(data.fields, "serviceName", Str(report[0].0)), policies);
      ItemsOfAppend(ServiceItems(report[0].0, data).value,
                    FlaggedPolicies(GetOr(data.fields, "serviceName", Str(report[0].0)), policies),
                    ReportItems(report[1..]).value, Flagged(report[1..]));
    }
    var items, flagged := ReportItems(report).value, Flagged(report);
    forall k | 0 <= k < |flagged| ensures NameSplits(flagged[k].1) {
      assert PolicyEntry(flagged[k].0, flagged[k].1) == Ok(Some(items[k]));
    }
  }

  /** A service entry is a dictionary whose `policies` iterate to dictionaries. */
  ghost predicate WellShapedService(serviceData: Json) {
    serviceData.Obj? &&
    var policies := Iterate(GetOr(serviceData.fields, "policies", Arr([])));
    policies.Some? && forall j :: 0 <= j < |policies.value| ==> policies.value[j].Obj?
  }

  /** Every service entry of the report is well shaped. */
  ghost predicate WellShaped(report: Fields) {
    forall i :: 0 <= i < |report| ==> WellShapedService(report[i].1)
  }

  lemma WellShapedTail(report: Fields)
    requires report != [] && WellShaped(report)
    ensures WellShapedService(report[0].1) && WellShaped(report[1..])
  {
    forall i | 0 <= i < |report[1..]| ensures report[1..][i] == report[i + 1] { }
  }

  lemma NamesSplitAppend(a: seq<(Json, Json)>, b: seq<(Json, Json)>)
    ensures NamesSplit(a + b) <==> NamesSplit(a) && NamesSplit(b)
  {
    if NamesSplit(a + b) {
      forall k | 0 <= k < |b| ensures NameSplits(b[k].1) {
        assert b[k] == (a + b)[|a| + k];
      }
      forall k | 0 <= k < |a| ensures NameSplits(a[k].1) {
        assert a[k] == (a + b)[k];
      }
    }
    if NamesSplit(a) && NamesSplit(b) {
      forall k | 0 <= k < |a + b| ensures NameSplits((a + b)[k].1) {
        if k < |a| {
          assert (a + b)[k] == a[k];
        } else {
          assert (a + b)[k] == b[k - |a|];
        }
      }
    }
  }

  lemma {:induction false} PolicyItemsComplete(serviceName: Json, policies: seq<Json>)
    requires forall j :: 0 <= j < |policies| ==> policies[j].Obj?
    requires NamesSplit(FlaggedPolicies(serviceName, policies))
    ensures PolicyItems(serviceName, policies).Ok?
  {
    if policies != [] {
      var here := if NonCompliant(policies[0]) then [(serviceName, policies[0])] else [];
      assert FlaggedPolicies(serviceName, policies) == here + FlaggedPolicies(serviceName, policies[1..]);
      NamesSplitAppend(here, FlaggedPolicies(serviceName, policies[1..]));
      if NonCompliant(policies[0]) {
        assert here[0] == (serviceName, policies[0]);
      }
      assert PolicyEntry(serviceName, policies[0]).Ok?;
      assert forall j :: 0 <= j < |policies[1..]| ==> policies[1..][j].Obj?;
      PolicyItemsComplete(serviceName, policies[1..]);
    }
  }

  /** A well-shaped service entry whose flagged policy names all split is processed without an exception. */
  lemma ServiceItemsComplete(serviceKey: string, serviceData: Json)
    requires WellShapedService(serviceData) && NamesSplit(ServiceFlagged(serviceKey, serviceData))
    ensures ServiceItems(serviceKey, serviceData).Ok?
  {
    var policies := Iterate(GetOr(serviceData.fields, "policies", Arr([]))).value;
    PolicyItemsComplete(GetOr(serviceData.fields, "serviceName", Str(serviceKey)), policies);
  }

  /**
    Conversely, a well-shaped report whose non-compliant policies all have a
    name that splits is processed without an exception.
  */
  lemma {:induction false} WellShapedCompletes(report: Fields)
    requires WellShaped(report) && NamesSplit(Flagged(report))
    ensures ReportItems(report).Ok?
  {
    if report != [] {
      WellShapedTail(report);
      NamesSplitAppend(ServiceFlagged(report[0].0, report[0].1), Flagged(report[1..]));
      ServiceItemsComplete(report[0].0, report[0].1);
      WellShapedCompletes(report[1..]);
    }
  }

  /** A non-compliant policy whose name is empty or all whitespace makes the stage raise. */
  lemma BlankPolicyNameRaises(report: Fields, k: nat)
    requires k < |Flagged(report)|
    requires NameBlank(Flagged(report)[k].1)
    ensures ReportItems(report).Err?
  {
    if ReportItems(report).Ok? {
      SelectsExactlyNonCompliant(report);
    }
  }

  /** A well-shaped report with no non-compliant policy yields an empty `remediation_input`. */
  lemma AllCompliantIsEmpty(report: Fields)
    requires WellShaped(report)
    requires Flagged(report) == []
    ensures ReportItems(report) == Ok([])
  {
    WellShapedCompletes(report);
    SelectsExactlyNonCompliant(report);
  }
}
