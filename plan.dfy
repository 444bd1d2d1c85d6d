/**
 * The resource plan builder: from a Project, the three deployment graphs the
 * apply step upserts — the project-independent prerequisites, the baseline
 * resources plus the author's resources, and the audit resources.
 *
 * Template paths are written relative to the repository root; the tool turns
 * them into absolute paths before upserting, and each constant here stands for
 * that absolute path.
 */
module Plan {
  import opened Seqs
  import opened Values
  import opened Bindings
  import opened Deployments
  import opened Config

  const AuditLogConfigTemplate := "deploy/templates/audit_log_config.py"
  const ChcTypeProviderTemplate := "deploy/templates/chc_resource/chc_res_type_provider.jinja"
  const BigqueryDatasetTemplate := "deploy/config/templates/bigquery/bigquery_dataset.py"
  const GcsBucketTemplate := "deploy/config/templates/gcs_bucket/gcs_bucket.py"
  const IamMemberTemplate := "deploy/config/templates/iam_member/iam_member.py"
  const PubsubTemplate := "deploy/config/templates/pubsub/pubsub.py"

  /** The template of each category whose properties pass through unchanged. */
  function KindTemplate(k: Kind): string {
    match k
    case CloudRouter => "deploy/config/templates/cloud_router/cloud_router.py"
    case Firewall => "deploy/config/templates/firewall/firewall.py"
    case Instance => "deploy/config/templates/instance/instance.py"
    case CustomRole => "deploy/config/templates/iam_custom_role/project_custom_role.py"
    case IpAddress => "deploy/config/templates/ip_reservation/ip_address.py"
    case Route => "deploy/config/templates/route/single_route.py"
    case Network => "deploy/config/templates/network/network.py"
    case Vpn => "deploy/config/templates/vpn/vpn.py"
  }

  const ServiceAccountType := "iam.v1.serviceAccount"
  const LogSinkType := "logging.v2.sink"
  const LogMetricType := "logging.v2.metric"

  const AuditDatasetName := "audit_logs"
  const AuditLogSinkName := "audit-logs-to-bigquery"

  function LogsBucketName(projectID: string): string { projectID + "-logs" }

  function UnexpectedAccessMetricName(bucket: string): string { "unexpected-access-" + bucket }

  // ---------------------------------------------------------------------------
  // Encoding of bindings and access lists as property values

  function GroupMember(email: string): string { "group:" + email }

  function GroupMembers(emails: seq<string>): seq<string> {
    seq(|emails|, i requires 0 <= i < |emails| => GroupMember(emails[i]))
  }

  function BindingValue(b: Binding): Value {
    Obj(map["role" := Str(b.role), "members" := StrList(b.members)])
  }

  function BindingsValue(bs: seq<Binding>): Value {
    List(seq(|bs|, i requires 0 <= i < |bs| => BindingValue(bs[i])))
  }

  function AccessEntry(a: Access): Value {
    match a.principal
    case GroupByEmail(e) => Obj(map["groupByEmail" := Str(e), "role" := Str(a.role)])
    case UserByEmail(e) => Obj(map["userByEmail" := Str(e), "role" := Str(a.role)])
    case SpecialGroup(g) => Obj(map["specialGroup" := Str(g), "role" := Str(a.role)])
  }

  function AccessValue(entries: seq<Access>): Value {
    List(seq(|entries|, i requires 0 <= i < |entries| => AccessEntry(entries[i])))
  }

  function GroupAccess(role: string, groups: seq<string>): seq<Access> {
    seq(|groups|, i requires 0 <= i < |groups| => Access(role, GroupByEmail(groups[i])))
  }

  // ---------------------------------------------------------------------------
  // The prerequisites graph

  /** The template providers every project's other graphs rely on; the same for every project. */
  function PrerequisiteDeployment(): (d: Deployment)
    ensures |d.imports| == 2 && |d.resources| == 2
    ensures d.resources[0].name == "enable-all-audit-log-policies"
    ensures d.resources[1].name == "chc-type-provider"
    ensures forall r :: r in d.resources ==> r.properties == map[] && r.typ.Template? && Import(r.typ.path) in d.imports
  {
    var rs := [
      Resource("enable-all-audit-log-policies", Template(AuditLogConfigTemplate), map[], []),
      Resource("chc-type-provider", Template(ChcTypeProviderTemplate), map[], [])];
    assert TemplatePaths(rs[1..][1..]) == [];
    assert TemplatePaths(rs[1..]) == [ChcTypeProviderTemplate];
    assert TemplatePaths(rs) == [AuditLogConfigTemplate, ChcTypeProviderTemplate];
    DedupOfDistinct(TemplatePaths(rs));
    BuildDeploymentSound(rs);
    BuildDeployment(rs)
  }

  // ---------------------------------------------------------------------------
  // The baseline resources every project gets

  const MetricDescriptor: Value := Obj(map[
    "metricKind" := Str("DELTA"),
    "valueType" := Str("INT64"),
    "unit" := Str("1"),
    "labels" := List([Obj(map["key" := Str("user"), "description" := Str("Unexpected user"), "valueType" := Str("STRING")])])])

  const UserLabelExtractors: Value := Obj(map["user" := Str("EXTRACT(protoPayload.authenticationInfo.principalEmail)")])

  /** A log-based metric counting, per principal, the entries `filter` selects. */
  function LogMetric(name: string, description: string, filter: string, dependsOn: seq<string>): Resource {
    Resource(name, Native(LogMetricType), map[
      "metric" := Str(name),
      "description" := Str(description),
      "filter" := Str(filter),
      "metricDescriptor" := MetricDescriptor,
      "labelExtractors" := UserLabelExtractors], dependsOn)
  }

  function AuditLogSink(projectID: string): Resource {
    Resource(AuditLogSinkName, Native(LogSinkType), map[
      "sink" := Str(AuditLogSinkName),
      "destination" := Str("bigquery.googleapis.com/projects/" + projectID + "/datasets/" + AuditDatasetName),
      "filter" := Str("logName:\"logs/cloudaudit.googleapis.com\""),
      "uniqueWriterIdentity" := Bool(true)], [])
  }

  function RequiredProjectBindings(p: Project): seq<Binding> {
    [Binding("roles/owner", [GroupMember(p.ownersGroup)]),
     Binding("roles/iam.securityReviewer", [GroupMember(p.auditorsGroup)])]
  }

  const BigqueryChangeMetric := "bigquery-settings-change-count"
  const BigqueryChangeDescription := "Count of bigquery permission changes."
  const IamPolicyChangeMetric := "iam-policy-change-count"
  const IamPolicyChangeDescription := "Count of IAM policy changes."
  const BucketPermissionChangeMetric := "bucket-permission-change-count"
  const BucketPermissionChangeDescription := "Count of GCS permissions changes."
  const RequiredBindingsName := "required-project-bindings"
  const BigqueryChangeFilter := "resource.type=\"bigquery_resource\" AND protoPayload.methodName=\"datasetservice.update\""
  const IamPolicyChangeFilter := "protoPayload.methodName=\"SetIamPolicy\" OR protoPayload.methodName:\".setIamPolicy\""
  const BucketPermissionChangeFilter := "resource.type=gcs_bucket AND protoPayload.serviceName=storage.googleapis.com AND\n"
    + "(protoPayload.methodName=storage.setIamPermissions OR protoPayload.methodName=storage.objects.update)"

  /** The audit sink, the three permission-change metrics and the required project bindings. */
  function Baseline(p: Project): seq<Resource> {
    [AuditLogSink(p.id),
     LogMetric(BigqueryChangeMetric, BigqueryChangeDescription, BigqueryChangeFilter, []),
     LogMetric(IamPolicyChangeMetric, IamPolicyChangeDescription, IamPolicyChangeFilter, []),
     LogMetric(BucketPermissionChangeMetric, BucketPermissionChangeDescription, BucketPermissionChangeFilter, []),
     Resource(RequiredBindingsName, Template(IamMemberTemplate),
       map["roles" := BindingsValue(RequiredProjectBindings(p))], [])]
  }

  // ---------------------------------------------------------------------------
  // Storage buckets

  function BucketDefaultBindings(p: Project): seq<Binding> {
    [Binding("roles/storage.admin", [GroupMember(p.ownersGroup)]),
     Binding("roles/storage.objectAdmin", GroupMembers(p.dataReadWriteGroups)),
     Binding("roles/storage.objectViewer", GroupMembers(p.dataReadOnlyGroups))]
  }

  /** The group-derived bindings of a bucket merged with those its author declares. */
  function BucketBindings(p: Project, declared: seq<Binding>): seq<Binding> {
    MergeBindings(BucketDefaultBindings(p) + declared)
  }

  const VersioningEnabled: Value := Obj(map["enabled" := Bool(true)])

  function BucketResource(p: Project, name: string, props: Props, declared: seq<Binding>): Resource {
    Resource(name, Template(GcsBucketTemplate),
      props["bindings" := BindingsValue(BucketBindings(p, declared))]
           ["versioning" := VersioningEnabled]
           ["logging" := Obj(map["logBucket" := Str(LogsBucketName(p.id))])], [])
  }

  /** The clause of a filter that excludes the principals listed after it. */
  const PrincipalExclusion := "protoPayload.authenticationInfo.principalEmail!=("

  /** Data-access log entries on the bucket whose principal is none of the expected users. */
  function UnexpectedAccessFilter(projectID: string, bucket: string, expectedUsers: seq<string>): string {
    "resource.type=gcs_bucket AND\n"
    + "logName=projects/" + projectID + "/logs/cloudaudit.googleapis.com%2Fdata_access AND\n"
    + "protoPayload.resourceName=projects/_/buckets/" + bucket + " AND\n"
    + "protoPayload.status.code!=7 AND\n"
    + PrincipalExclusion + Join(expectedUsers, " AND ") + ")"
  }

  function UnexpectedAccessMetric(projectID: string, bucket: string, expectedUsers: seq<string>): Resource {
    LogMetric(UnexpectedAccessMetricName(bucket), "Count of unexpected data access to " + bucket,
      UnexpectedAccessFilter(projectID, bucket, expectedUsers), [bucket])
  }

  // ---------------------------------------------------------------------------
  // BigQuery datasets

  /** The group-derived access entries of a dataset followed by those its author declares. */
  function DatasetAccess(p: Project, declared: seq<Access>): seq<Access> {
    [Access("OWNER", GroupByEmail(p.ownersGroup))]
    + GroupAccess("WRITER", p.dataReadWriteGroups)
    + GroupAccess("READER", p.dataReadOnlyGroups)
    + declared
  }

  function DatasetResource(p: Project, name: string, props: Props, declared: seq<Access>): Resource {
    Resource(name, Template(BigqueryDatasetTemplate),
      props["access" := AccessValue(DatasetAccess(p, declared))]["setDefaultOwner" := Bool(false)], [])
  }

  // ---------------------------------------------------------------------------
  // Pub/Sub topics and their subscriptions

  function SubscriptionDefaultBindings(p: Project): seq<Binding> {
    [Binding("roles/pubsub.editor", GroupMembers(p.dataReadWriteGroups)),
     Binding("roles/pubsub.viewer", GroupMembers(p.dataReadOnlyGroups))]
  }

  /** The group-derived access control of a subscription merged with the one its author declares. */
  function SubscriptionAccessControl(p: Project, declared: seq<Binding>): seq<Binding> {
    MergeBindings(SubscriptionDefaultBindings(p) + declared)
  }

  function SubscriptionValue(p: Project, s: Subscription): Value {
    Obj(s.properties["name" := Str(s.name)]["accessControl" := BindingsValue(SubscriptionAccessControl(p, s.accessControl))])
  }

  function PubsubResource(p: Project, name: string, props: Props, subs: seq<Subscription>): Resource {
    Resource(name, Template(PubsubTemplate),
      props["subscriptions" := List(seq(|subs|, i requires 0 <= i < |subs| => SubscriptionValue(p, subs[i])))], [])
  }

  // ---------------------------------------------------------------------------
  // The resources graph

  /** The deployment resources one declared resource becomes. */
  function Expand(p: Project, u: UserResource): (rs: seq<Resource>)
    ensures |rs| == (if u.GcsBucket? then 2 else 1)
    ensures rs[0].name == u.name
  {
    match u
    case GcsBucket(name, props, declared, expectedUsers) =>
      [BucketResource(p, name, props, declared), UnexpectedAccessMetric(p.id, name, expectedUsers)]
    case BigqueryDataset(name, props, declared) => [DatasetResource(p, name, props, declared)]
    case Pubsub(name, props, subs) => [PubsubResource(p, name, props, subs)]
    case IamPolicy(name, props) => [Resource(name, Template(IamMemberTemplate), props, [])]
    case ServiceAccount(name, props) => [Resource(name, Native(ServiceAccountType), props, [])]
    case Templated(kind, name, props) => [Resource(name, Template(KindTemplate(kind)), props, [])]
  }

  function UserResources(p: Project, us: seq<UserResource>): seq<Resource> {
    if us == [] then [] else Expand(p, us[0]) + UserResources(p, us[1..])
  }

  function ResourceDeployment(p: Project): Deployment {
    BuildDeployment(Baseline(p) + UserResources(p, p.resources))
  }

  // ---------------------------------------------------------------------------
  // The audit graph

  /**
   * The audit dataset's access list. The log sink's writer identity, known
   * only once the sink exists, is the one writer.
   */
  function AuditDatasetAccess(p: Project, sinkAccount: string): seq<Access> {
    [Access("OWNER", GroupByEmail(p.ownersGroup)),
     Access("READER", GroupByEmail(p.auditorsGroup)),
     Access("WRITER", UserByEmail(sinkAccount))]
  }

  function AuditDataset(p: Project, sinkAccount: string): Resource {
    Resource(AuditDatasetName, Template(BigqueryDatasetTemplate), map[
      "name" := Str(AuditDatasetName),
      "location" := Str(p.auditLogs.datasetLocation),
      "access" := AccessValue(AuditDatasetAccess(p, sinkAccount)),
      "setDefaultOwner" := Bool(false)], [])
  }

  function LogsBucketBindings(p: Project): seq<Binding> {
    [Binding("roles/storage.admin", [GroupMember(p.ownersGroup)]),
     Binding("roles/storage.objectCreator", ["group:cloud-storage-analytics@google.com"]),
     Binding("roles/storage.objectViewer", [GroupMember(p.auditorsGroup)])]
  }

  const LogsLifecycle: Value := Obj(map["rule" := List([Obj(map[
    "action" := Obj(map["type" := Str("Delete")]),
    "condition" := Obj(map["age" := Int(365), "isLive" := Bool(true)])])])])

  function LogsBucket(p: Project): Resource {
    var name := LogsBucketName(p.id);
    Resource(name, Template(GcsBucketTemplate), map[
      "name" := Str(name),
      "location" := Str(p.auditLogs.logsBucketLocation),
      "storageClass" := Str(p.auditLogs.logsBucketStorageClass),
      "bindings" := BindingsValue(LogsBucketBindings(p)),
      "versioning" := VersioningEnabled,
      "logging" := Obj(map["logBucket" := Str(name)]),
      "lifecycle" := LogsLifecycle], [])
  }

  function AuditDeployment(p: Project, sinkAccount: string): Deployment {
    BuildDeployment([AuditDataset(p, sinkAccount), LogsBucket(p)])
  }
}
