/**
  The two agents of the auditor: the shared state passed from stage to stage,
  the eight stage functions, and the two four-stage graphs run one after the
  other (perceive, reason, plan, act). Every stage receives the state and
  returns it; `perceive_kong`, `reason_audit` and `reason_remediation` write
  one key of it, the others leave it as it is.

  A stage that raises leaves the state untouched, because each of them writes
  its key only once its loop has finished; the exception is returned here as
  `raised` instead of unwinding.
*/
module AuditorAgent {
  import opened Wrappers
  import opened JsonValues
  import opened KongPerception
  import opened AuditReasoning
  import opened Remediation

  /** Why a run of the two graphs stopped early. */
  datatype AgentException = AuditFailed(audit: AuditException) | RemediationFailed(remediation: RemediationException)

  /** The state dictionary; a key that was never written is `None`. */
  class AgentState {
    var kongData: Option<seq<ServiceRecord>>
    var auditReport: Option<Json>
    var remediationPlan: Option<Json>

    /** A state holding only the given `audit_report` (or nothing at all). */
    constructor (auditReport: Option<Json>)
      ensures this.kongData == None && this.auditReport == auditReport && this.remediationPlan == None
    {
      this.kongData := None;
      this.auditReport := auditReport;
      this.remediationPlan := None;
    }

    /** `perceive_kong`: `kong_data` becomes one record per Kong service. */
    method PerceiveKong(services: seq<Service>, plugins: seq<Plugin>, routesOf: RoutesOf, routePlugins: RoutePlugins)
      modifies this
      ensures kongData == Some(KongRecords(services, plugins, routesOf, routePlugins))
      ensures auditReport == old(auditReport) && remediationPlan == old(remediationPlan)
    {
      var records := PerceiveServices(services, plugins, routesOf, routePlugins);
      kongData := Some(records);
    }

    /**
      `reason_audit`: the records of `kong_data` (none when absent) are sent to
      the auditor one by one; `audit_report` becomes the collected replies,
      unless the first request failed before any key was chosen.
    */
    method ReasonAudit(auditor: Auditor) returns (raised: Option<AuditException>)
      modifies this
      ensures match AuditReport(old(kongData).GetOr([]), auditor)
        case Ok(report) => raised == None && auditReport == Some(Obj(report))
        case Err(e) => raised == Some(e) && auditReport == old(auditReport)
      ensures kongData == old(kongData) && remediationPlan == old(remediationPlan)
    {
      var r := AuditServices(kongData.GetOr([]), auditor);
      match r
      case Ok(report) =>
        auditReport := Some(Obj(report));
        raised := None;
      case Err(e) =>
        raised := Some(e);
    }

    /**
      `reason_remediation`: the non-compliant policies of `audit_report` are
      collected and sent to the remediation agent; `remediation_plan` becomes
      its reply, or an empty list when the call failed.
    */
    method ReasonRemediation(remediate: Remediator) returns (raised: Option<RemediationException>)
      modifies this
      ensures match RemediationInput(old(auditReport))
        case Ok(items) => raised == None && remediationPlan == Some(RemediationPlan(items, remediate))
        case Err(e) => raised == Some(e) && remediationPlan == old(remediationPlan)
      ensures kongData == old(kongData) && auditReport == old(auditReport)
    {
      var r := CollectRemediationInput(auditReport);
      match r
      case Ok(items) =>
        remediationPlan := Some(RemediationPlan(items, remediate));
        raised := None;
      case Err(e) =>
        raised := Some(e);
    }

    /** `plan_audit`: returns the state as it is. */
    method PlanAudit()
      ensures unchanged(this)
    {
    }

    /** `action_audit`: writes `audit_report` to a file; the state is unchanged. */
    method ActionAudit()
      ensures unchanged(this)
    {
    }

    /** `perceive_issues`: returns the state as it is. */
    method PerceiveIssues()
      ensures unchanged(this)
    {
    }

    /** `plan_remediation`: returns the state as it is. */
    method PlanRemediation()
      ensures unchanged(this)
    {
    }

    /** `action_remediation`: writes `remediation_plan` to a file; the state is unchanged. */
    method ActionRemediation()
      ensures unchanged(this)
    {
    }
  }

  /**
    The audit graph from an empty state, then the remediation graph from a
    state holding only the audit graph's `audit_report`. When both finish,
    the plan was asked for exactly the flagged policies of the audit of the
    services Kong reported.
  */
  method RunAgents(services: seq<Service>, plugins: seq<Plugin>, routesOf: RoutesOf, routePlugins: RoutePlugins,
                   auditor: Auditor, remediate: Remediator)
    returns (audit: AgentState, remediation: AgentState, raised: Option<AgentException>)
    ensures fresh(audit) && fresh(remediation)
    ensures audit.kongData == Some(KongRecords(services, plugins, routesOf, routePlugins))
    ensures audit.remediationPlan == None && remediation.kongData == None
    ensures match AuditReport(KongRecords(services, plugins, routesOf, routePlugins), auditor)
      case Err(e) =>
        && raised == Some(AuditFailed(e)) && audit.auditReport == None
        && remediation.auditReport == None && remediation.remediationPlan == None
      case Ok(report) =>
        && audit.auditReport == Some(Obj(report))
        && remediation.auditReport == Some(Obj(report))
        && match RemediationInput(Some(Obj(report)))
           case Err(e) => raised == Some(RemediationFailed(e)) && remediation.remediationPlan == None
           case Ok(items) => raised == None && remediation.remediationPlan == Some(RemediationPlan(items, remediate))
  {
    audit := new AgentState(None);
    remediation := new AgentState(None);
    audit.PerceiveKong(services, plugins, routesOf, routePlugins);
    var auditRaised := audit.ReasonAudit(auditor);
    if auditRaised.Some? {
      raised := Some(AuditFailed(auditRaised.value));
      return;
    }
    audit.PlanAudit();
    audit.ActionAudit();
    remediation := new AgentState(audit.auditReport);
    remediation.PerceiveIssues();
    var remediationRaised := remediation.ReasonRemediation(remediate);
    if remediationRaised.Some? {
      raised := Some(RemediationFailed(remediationRaised.value));
      return;
    }
    remediation.PlanRemediation();
    remediation.ActionRemediation();
    raised := None;
  }
}
