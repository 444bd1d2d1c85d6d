/**
 * The apply orchestrator: for one validated project, upserts the
 * prerequisites, resources and audit graphs, in that order, then runs the
 * Terraform applier when it is enabled, deploys the cluster workloads, and
 * imports the binary-authorization policy when the project has one. The
 * first error ends the run.
 *
 * The audit graph needs the log sink's writer identity, which the backend
 * generates when it creates the sink in the resources graph. The identity the
 * backend reports is a parameter here: reading it is I/O.
 */
module Apply {
  import opened Seqs
  import opened Values
  import opened Deployments
  import opened Config
  import opened Plan
  import opened TerraformConfig
  import opened Hooks
  import opened Gke
  import opened Terraform

  const PrerequisitesDeploymentName := "data-protect-toolkit-prerequisites"
  const ResourcesDeploymentName := "data-protect-toolkit-resources"

  function AuditDeploymentName(projectID: string): string {
    "data-protect-toolkit-audit-" + projectID
  }

  const ServiceAccountPrefix := "serviceAccount:"

  /**
   * The service account a log sink writes as, from the writer identity the
   * backend reports: the identity is `serviceAccount:<email>` and the result
   * is the email; any other shape is an error.
   */
  function GetLogSinkServiceAccount(writerIdentity: string): (r: Result<string>)
    ensures r.Ok? <==> |writerIdentity| > |ServiceAccountPrefix| && writerIdentity[..|ServiceAccountPrefix|] == ServiceAccountPrefix
    ensures r.Ok? ==> r.value != [] && ServiceAccountPrefix + r.value == writerIdentity
  {
    if |writerIdentity| > |ServiceAccountPrefix| && writerIdentity[..|ServiceAccountPrefix|] == ServiceAccountPrefix then
      assert writerIdentity == writerIdentity[..|ServiceAccountPrefix|] + writerIdentity[|ServiceAccountPrefix|..];
      Ok(writerIdentity[|ServiceAccountPrefix|..])
    else
      Err("unexpected writer identity of log sink " + AuditLogSinkName + ": " + Quote(writerIdentity))
  }

  /** Prefixing any non-empty email and reading it back gives the email. */
  lemma {:induction false} LogSinkServiceAccountRoundTrip(email: string)
    requires email != []
    ensures GetLogSinkServiceAccount(ServiceAccountPrefix + email) == Ok(email)
  {
    var wi := ServiceAccountPrefix + email;
    assert wi[..|ServiceAccountPrefix|] == ServiceAccountPrefix;
    assert wi[|ServiceAccountPrefix|..] == email;
  }

  datatype Options = Options(enableTerraform: bool)

  /**
   * The graphs a run upserts: the prerequisites graph, the resources graph,
   * and the audit graph for the log sink's service account.
   */
  datatype Graphs = Graphs(prerequisites: Deployment, resources: Deployment, audit: string -> Deployment)

  /** The project's graphs, as the planner builds them. */
  function ProjectGraphs(p: Project): Graphs {
    Graphs(PrerequisiteDeployment(), ResourceDeployment(p), sinkAccount => AuditDeployment(p, sinkAccount))
  }

  /** The log after the prerequisites upsert and the resources upsert. */
  function GraphsLog(log: seq<Call>, p: Project, g: Graphs): seq<Call> {
    log + [Upsert(PrerequisitesDeploymentName, g.prerequisites, p.id)]
        + [Upsert(ResourcesDeploymentName, g.resources, p.id)]
  }

  /** The Terraform apply of the state bucket, when the Terraform phase is enabled. */
  function TerraformCalls(p: Project, opts: Options): seq<Call> {
    if opts.enableTerraform then [TerraformApply(TerraformPlan(p).0, TerraformPlan(p).1)] else []
  }

  /** The policy import, when the project has a binary-authorization policy. */
  function BinauthzCalls(p: Project): seq<Call> {
    match p.binauthzPolicyFile
    case None => []
    case Some(policyFile) => [Run(BinauthzCommand(policyFile, p.id))]
  }

  /** The log after the audit upsert and, when enabled, the Terraform apply. */
  function AuditLog(log: seq<Call>, p: Project, opts: Options, audit: Deployment): seq<Call> {
    log + [Upsert(AuditDeploymentName(p.id), audit, p.id)] + TerraformCalls(p, opts)
  }

  /** The log after the workloads' commands and, when they all succeed, the policy import. */
  function WorkloadsLog(log: seq<Call>, p: Project): (Outcome, seq<Call>) {
    var workloads := WorkloadCommands(p.gkeClusters, p.gkeWorkloads, p.id);
    var deployed := log + Runs(workloads.0);
    if workloads.1.Fail? then (workloads.1, deployed) else (Pass, deployed + BinauthzCalls(p))
  }

  /**
   * The call log after a run of Apply that starts from `log` and upserts the
   * graphs `g`, and how the run ends. The steps: the prerequisites upsert;
   * the resources upsert; the sink identity, whose bad shape ends the run;
   * the audit upsert; the Terraform apply when enabled; the workloads'
   * commands, whose first error ends the run; the policy import when the
   * project has a policy.
   */
  function ApplyLog(log: seq<Call>, p: Project, opts: Options, writerIdentity: string, g: Graphs): (Outcome, seq<Call>) {
    match GetLogSinkServiceAccount(writerIdentity)
    case Err(e) => (Fail(e), GraphsLog(log, p, g))
    case Ok(sa) => WorkloadsLog(AuditLog(GraphsLog(log, p, g), p, opts, g.audit(sa)), p)
  }

  method UpsertGraphs(backend: Backend, p: Project)
    modifies backend
    ensures backend.calls == GraphsLog(old(backend.calls), p, ProjectGraphs(p))
  {
    backend.UpsertDeployment(PrerequisitesDeploymentName, PrerequisiteDeployment(), p.id);
    backend.UpsertDeployment(ResourcesDeploymentName, ResourceDeployment(p), p.id);
  }

  method UpsertAudit(backend: Backend, p: Project, opts: Options, audit: Deployment)
    modifies backend
    ensures backend.calls == AuditLog(old(backend.calls), p, opts, audit)
  {
    backend.UpsertDeployment(AuditDeploymentName(p.id), audit, p.id);
    if opts.enableTerraform {
      DeployTerraform(backend, p);
    } else {
      assert backend.calls + [] == backend.calls;
    }
  }

  method DeployWorkloads(backend: Backend, p: Project) returns (outcome: Outcome)
    modifies backend
    ensures (outcome, backend.calls) == WorkloadsLog(old(backend.calls), p)
  {
    outcome := DeployGKEWorkloads(backend, p.gkeClusters, p.gkeWorkloads, p.id);
    if outcome.Fail? {
      return;
    }
    if p.binauthzPolicyFile.Some? {
      ImportBinauthz(backend, p.id, p.binauthzPolicyFile.value);
    } else {
      assert backend.calls + [] == backend.calls;
    }
  }

  /** Applies the project's deployment graphs, Terraform configuration, workloads and policy, stopping at the first error. */
  method Apply(backend: Backend, p: Project, opts: Options, writerIdentity: string) returns (outcome: Outcome)
    modifies backend
    ensures (outcome, backend.calls) == ApplyLog(old(backend.calls), p, opts, writerIdentity, ProjectGraphs(p))
  {
    UpsertGraphs(backend, p);
    var sa := GetLogSinkServiceAccount(writerIdentity);
    if sa.Err? {
      return Fail(sa.error);
    }
    UpsertAudit(backend, p, opts, AuditDeployment(p, sa.value));
    outcome := DeployWorkloads(backend, p);
  }
}
