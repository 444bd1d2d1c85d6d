# Apply step of the healthcare data-protection toolkit, in Dafny

This project models the `apply` step of the toolkit's deployment tool (`deploy/apply`).
For one validated project, the step builds three Deployment Manager graphs and upserts them in order:

1. `data-protect-toolkit-prerequisites`: the audit-log-config and CHC type-provider templates.
2. `data-protect-toolkit-resources`: the baseline resources and the author's resources.
   - The baseline is the audit log sink, three permission-change metrics and the required project bindings.
   - Each author resource is expanded with the group-derived defaults of its category.
3. `data-protect-toolkit-audit-<project>`: the audit dataset and the logs bucket.
   - This graph needs the log sink's writer identity, which must have the shape `serviceAccount:<email>`.

After the graphs, the step runs further phases, and the first error ends the run:

- it applies the Terraform configuration of the state bucket, when Terraform is enabled;
- for each GKE workload, it fetches the cluster credentials and runs `kubectl apply`;
- it imports the binary-authorization policy, when the project has one.

The model is a contract model of the behaviour the package's tests pin down:

- `deploy/apply/apply_test.go`
- `deploy/apply/gke_test.go`
- `deploy/apply/terraform_test.go`

The backend is a `Hooks.Backend` object that records every call in order:

- deployment upserts;
- commands run;
- Terraform applies.

`Apply.Apply` is proved against `Apply.ApplyLog`, a function that gives the whole call log and the outcome of a run. The lemmas in `ApplyProperties` then state what a run does. They are stated for any graphs `g`, which covers `ProjectGraphs(p)`. The graphs themselves are specified in `PlanProperties`.

Modules, one per file:

- `Seqs`: distinctness, order-preserving de-duplication, substring containment and joining.
- `Values`: the property-value tree (strings, booleans, integers, lists, maps), `Option`, `Result` and `Outcome`.
- `Deployments`: resources, imports and graphs, and the import list derived from the resources' templates.
- `Bindings`: IAM bindings and their merge by role.
- `Config`: the validated project: groups, audit settings, author resources, GKE clusters and workloads, and the policy file.
- `Plan`: the three graphs.
- `PlanProperties`: what those graphs contain.
- `TerraformConfig` and `Terraform`: the Terraform configuration and the import list.
- `Hooks`: the recording backend.
- `Gke`: cluster location, commands and workload deployment.
- `Apply`: the orchestrator.
- `ApplyProperties`: properties of a run.

## Model

| member | source | states |
|---|---|---|
| Deployments.TemplatePaths | deploy/apply/apply_test.go:202-207 | a path is listed exactly when some resource in the graph is of that template type |
| Deployments.BuildDeployment | deploy/apply/apply_test.go:637-644 | the graph keeps the resources exactly as given, in order |
| Deployments.BuildDeploymentSound | deploy/apply/apply_test.go:98-101 | the built graph is well formed: distinct imports, and every template resource has its import; an import is present iff some resource uses that template |
| Deployments.SingleTemplateImports | deploy/apply/apply_test.go:319-320 | resources that all use one template, such as a bucket and its native metric, import that template exactly once |
| Bindings.MergeBindings | deploy/apply/apply_test.go:463-473 | roles keep their first-appearance order without repeats; every role keeps all of its members, in order |
| Bindings.MergeBindingsSound | deploy/apply/apply_test.go:463-473 | after a merge the roles are distinct; a member has a role iff some input binding grants it; each merged binding lists all members of its role |
| Bindings.MergeBindingsOfDistinct | deploy/apply/apply_test.go:328-338 | bindings whose roles are already distinct are left unchanged |
| Bindings.MembersOfGrants | deploy/apply/apply_test.go:466-473 | a member is listed under a role iff some binding grants that role to that member |
| Plan.PrerequisiteDeployment | deploy/apply/apply_test.go:36-48 | two imports and two resources, `enable-all-audit-log-policies` then `chc-type-provider`; both have empty properties and each imports its own template |
| Plan.Expand | deploy/apply/apply_test.go:309-366 | a bucket expands to two resources (the bucket and its metric) and every other category to one; the first resource keeps the declared name |
| PlanProperties.BaselineCatalog | deploy/apply/apply_test.go:98-170 | the baseline is the sink, three metrics and `required-project-bindings`, in that order, with the sink, metric and iam_member types |
| PlanProperties.BaselineContents | deploy/apply/apply_test.go:103-169 | the sink writes to the project's `audit_logs` dataset with a unique writer identity; the required bindings make the owners group owner and the auditors group security reviewer |
| PlanProperties.BaselineDependsOn | deploy/apply/apply_test.go:160-169 | two projects with the same id, owners group and auditors group get the same baseline |
| PlanProperties.BaselineTemplates | deploy/apply/apply_test.go:98-101 | the iam_member template is the only template the baseline uses, and it is used |
| PlanProperties.UserResourcesShape | deploy/apply/apply_test.go:637-644 | every author resource's expansion is in the graph, and nothing else from the author is |
| PlanProperties.ResourceDeploymentSpec | deploy/apply/apply_test.go:637-644 | the resources graph is the baseline followed by the expanded author resources; it is well formed; a template is imported iff it is iam_member or an author resource uses it |
| PlanProperties.EmptyProjectIsBaseline | deploy/apply/apply_test.go:98-170 | with no author resources, the graph is exactly the baseline, with the single iam_member import |
| PlanProperties.IamPoliciesAddNoImport | deploy/apply/apply_test.go:389-409 | IAM policies and service accounts add no import beyond iam_member |
| PlanProperties.OnlyIamTemplates | deploy/apply/apply_test.go:508-524 | IAM policies and service accounts expand only to iam_member template resources or to native ones |
| PlanProperties.PassThroughCategories | deploy/apply/apply_test.go:222-307 | IAM policies, service accounts and the template-only categories pass their properties through unchanged, without dependencies, each with its category's type |
| PlanProperties.BucketBindingsSpec | deploy/apply/apply_test.go:328-338 | bucket bindings have distinct roles: storage.admin for owners, objectAdmin for read-write groups, objectViewer for read-only groups; they keep every declared grant and add nothing beyond defaults and declared grants |
| PlanProperties.BucketExpansion | deploy/apply/apply_test.go:309-366 | the bucket gets the gcs_bucket template, merged bindings, versioning and logging to `<project>-logs`, and keeps its other properties; its companion is the metric `unexpected-access-<bucket>`, which depends on the bucket and whose filter ends with the `principalEmail!=(...)` exclusion clause listing every expected user |
| PlanProperties.UnexpectedAccessFilterNames | deploy/apply/apply_test.go:358-363 | the unexpected-access filter ends with the exclusion clause `protoPayload.authenticationInfo.principalEmail!=(` + the joined expected users + `)`, and every expected user occurs in that joined list |
| PlanProperties.DatasetExpansion | deploy/apply/apply_test.go:195-220 | a dataset gets the bigquery_dataset template, the derived access list and `setDefaultOwner: false`, and keeps its other properties |
| PlanProperties.DatasetAccessSpec | deploy/apply/apply_test.go:211-219 | owners first as OWNER; at positions 1.. the read-write groups as WRITER, in their order; after them the read-only groups as READER, in their order; then the declared entries unchanged; the length is the sum |
| PlanProperties.SubscriptionAccessControlSpec | deploy/apply/apply_test.go:463-473 | subscription roles are distinct; editor lists the read-write groups and viewer lists the read-only groups, each followed by the declared members of that role; every declared grant is kept |
| PlanProperties.SubscriptionDefaultMembers | deploy/apply/apply_test.go:466-472 | by default, editor is held by exactly the read-write groups and viewer by exactly the read-only groups |
| PlanProperties.PubsubExpansion | deploy/apply/apply_test.go:433-473 | a topic gets the pubsub template and keeps its properties; each subscription, in order, gets the merged access control |
| PlanProperties.AuditDeploymentSpec | deploy/apply/apply_test.go:50-96 | the audit graph is well formed; it holds `audit_logs` then `<project>-logs` and imports exactly the dataset and bucket templates |
| PlanProperties.AuditResourcesSpec | deploy/apply/apply_test.go:61-88 | the audit dataset carries the derived access list, and the logs bucket logs to itself |
| PlanProperties.AuditDatasetAccessSpec | deploy/apply/apply_test.go:61-67 | the sink's service account is a WRITER of the audit dataset, and the only one |
| TerraformConfig.CountAddress | deploy/apply/terraform_test.go:75-78 | the count is bounded by the number of blocks, and is zero iff no block has that address |
| Terraform.TerraformPlan | deploy/apply/terraform_test.go:75-78 | every import's address names exactly one resource block of the configuration |
| Terraform.TerraformPlanSpec | deploy/apply/terraform_test.go:42-78 | version `>= 0.12.0`; one `google_storage_bucket` named `<project>-state` with name, project, location and versioning enabled, and nothing else; one import `google_storage_bucket.<project>-state` with id `<project>/<project>-state` |
| Terraform.DeployTerraform | deploy/apply/terraform_test.go:26-38 | calls the applier once, with exactly the planned configuration and imports |
| Hooks.Backend.constructor | deploy/apply/apply_test.go:594 | a fresh backend has recorded nothing |
| Hooks.Backend.UpsertDeployment | deploy/apply/apply_test.go:594-598 | records the upsert with its name, graph and project, after the earlier calls |
| Hooks.Backend.Run | deploy/apply/gke_test.go:31-35 | records the command's arguments, after the earlier calls |
| Hooks.Backend.TerraformApply | deploy/apply/terraform_test.go:30-36 | records the configuration and imports, after the earlier calls |
| Hooks.Upserts | deploy/apply/apply_test.go:594-598 | the upserts of a log are exactly its upsert calls, in order |
| Hooks.RunsContents | deploy/apply/gke_test.go:31-35 | the recorded run calls are exactly the commands, as runs |
| Gke.LocationTypeAndValue | deploy/apply/gke_test.go:63-184 | succeeds iff the cluster is Regional with a region or Zonal with a zone; yields `--region` with the region or `--zone` with the zone; otherwise fails naming the cluster |
| Gke.FindCluster | deploy/apply/gke_test.go:186-207 | finds nothing iff no cluster has the name; what it finds has the name and is among the clusters |
| Gke.FindClusterFirst | deploy/apply/gke_test.go:103-122 | the cluster found is the first one with that name |
| Gke.WorkloadStep | deploy/apply/gke_test.go:119-122 | a workload that succeeds yields exactly two commands |
| Gke.WorkloadStepSpec | deploy/apply/gke_test.go:186-223 | an unknown cluster fails with `failed to find cluster: "<name>"`; success means credentials for the location of the cluster `FindCluster` returns (the first with that name), then `kubectl apply -f <manifest>`; a known cluster fails only with the location error of that same cluster |
| Gke.WorkloadCommandsPass | deploy/apply/gke_test.go:103-143 | all workloads pass iff every workload's step succeeds, and then there are two commands per workload |
| Gke.WorkloadCommandsFail | deploy/apply/gke_test.go:186-240 | on failure, there is a first failing workload k; everything before it succeeded; the error is k's error and exactly 2k commands ran |
| Gke.WorkloadCommandsOrder | deploy/apply/gke_test.go:119-142 | commands 2j and 2j+1 are workload j's credentials and apply commands |
| Gke.SingleWorkload | deploy/apply/gke_test.go:103-143 | one workload on a located cluster runs get-credentials, then `kubectl apply -f`, and passes |
| Gke.UnknownClusterStops | deploy/apply/gke_test.go:191-207 | a workload naming no cluster stops the run before any command |
| Gke.BinauthzCommandShape | deploy/apply/gke_test.go:247-272 | the import command has nine words: `gcloud beta container binauthz policy import`, the file, then `--project <project>` |
| Gke.GetGCloudCredentials | deploy/apply/gke_test.go:27-44 | runs exactly `gcloud container clusters get-credentials <cluster> <flag> <value> --project <project>` |
| Gke.ApplyClusterWorkload | deploy/apply/gke_test.go:46-60 | runs exactly `kubectl apply -f <manifest>` |
| Gke.ImportBinauthz | deploy/apply/gke_test.go:242-273 | runs exactly the policy import command, once |
| Gke.DeployWorkload | deploy/apply/gke_test.go:119-142 | on a failing step, runs nothing and fails with the step's error; otherwise runs the step's two commands and passes |
| Gke.DeployGKEWorkloads | deploy/apply/gke_test.go:103-240 | runs exactly the commands of the workloads up to the first failure, in order, and ends with that failure or passes |
| Apply.GetLogSinkServiceAccount | deploy/apply/apply_test.go:624-635 | succeeds iff the identity is `serviceAccount:` followed by something; the result is the non-empty rest, and prefixing it gives the identity back |
| Apply.LogSinkServiceAccountRoundTrip | deploy/apply/apply_test.go:683 | reading back `serviceAccount:<email>` gives the email |
| Apply.UpsertGraphs | deploy/apply/apply_test.go:604-606 | appends the prerequisites upsert, then the resources upsert, for the project |
| Apply.UpsertAudit | deploy/apply/apply_test.go:600-608 | appends the upsert of the given audit graph as `data-protect-toolkit-audit-<project>`, then the Terraform apply only when enabled |
| Apply.DeployWorkloads | deploy/apply/gke_test.go:103-143 | appends the workloads' commands; if they all pass, appends the policy import when there is a policy |
| Apply.Apply | deploy/apply/apply_test.go:594-617 | the outcome and the new call log are those of the run's specification `ApplyLog` on the project's graphs |
| ApplyProperties.ApplyLogOk | deploy/apply/apply_test.go:600-608 | with a good identity, the added calls are the three upserts, the optional Terraform apply, the workload commands and, when all pass, the policy import; the outcome is the workloads' outcome |
| ApplyProperties.ApplyUpsertOrder | deploy/apply/apply_test.go:604-608 | the next three calls are the prerequisites, resources and `data-protect-toolkit-audit-<project>` upserts for the project; no other upsert is made |
| ApplyProperties.ApplyBadIdentity | deploy/apply/apply_test.go:676-692 | a writer identity of the wrong shape fails the run with a message naming the sink and quoting the identity |
| ApplyProperties.ApplyBadIdentityCalls | deploy/apply/apply_test.go:600-608 | a writer identity of the wrong shape leaves only the prerequisites and resources upserts in the log |
| ApplyProperties.ApplyTerraform | deploy/apply/apply_test.go:600-602 | a Terraform apply is made iff Terraform is enabled and the identity is good, and it is the planned state-bucket apply |
| ApplyProperties.ApplyOutcome | deploy/apply/apply_test.go:600-602 | a run passes iff the identity is good and every workload's step succeeds |
| ApplyProperties.ApplyBinauthz | deploy/apply/gke_test.go:242-273 | a policy file's import is run iff the run passes and that file is the project's policy |
| ApplyProperties.ApplyBinauthzLast | deploy/apply/gke_test.go:242-273 | in a passing run with a policy, the policy import is the last call |
| ApplyProperties.ApplyGraphsOnly | deploy/apply/apply_test.go:594-617 | with Terraform off, no workloads and no policy, a run with a good identity passes after exactly the three upserts |
| ApplyProperties.SampleWriterIdentity | deploy/apply/apply_test.go:624-635 | the sample identity `serviceAccount:p12345-999999@gcp-sa-logging.iam.gserviceaccount.com` yields `p12345-999999@gcp-sa-logging.iam.gserviceaccount.com` |

## Left out

- Process execution, the Deployment Manager and Terraform clients, and reading the log sink are I/O. The backend records calls instead of performing them. The sink's writer identity is a parameter of `Apply.Apply`.
- Every backend call succeeds: the recording hooks never return an error. The error paths modelled are the sink identity, the cluster lookup and the cluster location.
- Template rendering, YAML parsing and `filepath.Abs` are not modelled. Template paths are constants that stand for the absolute paths.
- Loading, defaulting and validating the configuration are not modelled. The model starts from a validated `Config.Project`.
- Bindings.MergeBindings: members of a role are concatenated and never de-duplicated, so a group that a default binding grants and the author also declares is listed twice; an empty group list gives a binding with no members. Both are modelled choices the tests do not pin.
- Resource names are not checked for uniqueness across the graph: the tests give no case.
- A resource category the tool does not know cannot be expressed: `Config.UserResource` lists the known categories, so the "unsupported type" error is absent.
- Workload manifests are opaque file names. Writing a workload's properties to a temporary file is I/O.
- Gke.LocationTypeAndValue: the tests check a substring of the error; the model fixes the whole message as that substring.
- Apply.GetLogSinkServiceAccount: the tests pin only the good identity; the wording of the bad-shape error message is a modelled choice.
- PlanProperties.BucketExpansion: the tests show a single expected user; joining several users with " AND " inside the exclusion clause is a modelled choice.
- The text of the three permission-change metric filters is kept as written in the expected graph, not derived.
- Datasets get no unexpected-access metric: the bq_dataset case of deploy/apply/apply_test.go:195-220 expects none.
- Gke.DeployGKEWorkloads: credentials are fetched per workload, as the single-workload test shows. Fetching once per distinct cluster is not modelled.
- Gke.DeployGKEWorkloads: a cluster's location is resolved only when a workload names it, just before that workload's commands. So a declared cluster that no workload names is never checked, and earlier workloads' commands have run before a later workload's location error. A workload uses the first cluster with its name. The tests pin none of this (deploy/apply/gke_test.go:186-240 declares one cluster per case and checks only an error substring). Rejecting every mismatched cluster before the first command is not modelled.
- Terraform.DeployTerraform: the state bucket is always imported. Whether the bucket already exists is a backend query and is not modelled.
- Apply.Apply: the run also reads the current account (`gcloud config get-value account`) and the project's IAM policy (`gcloud projects get-iam-policy`); both reads, and whatever the run does with their results, are not modelled. Other commands the run issues are not in the log: TestDeploy stubs `cmdRun` at deploy/apply/apply_test.go:173 without recording them. The log, and so `ApplyProperties.ApplyGraphsOnly`'s exact list of calls, holds the upserts, the workload and policy-import commands, and the Terraform applies.
