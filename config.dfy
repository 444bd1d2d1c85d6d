/**
 * The already-validated project configuration the apply step works on: the
 * project's identity, its security groups, the resources its author declares
 * and its cluster workloads. Loading and validating the configuration file is
 * not part of this model; a Project value stands for its result.
 */
module Config {
  import opened Values
  import opened Bindings

  /** Whom a BigQuery dataset access entry names. */
  datatype Principal =
    | GroupByEmail(email: string)
    | UserByEmail(email: string)
    | SpecialGroup(group: string)

  /** One entry of a BigQuery dataset's access list. */
  datatype Access = Access(role: string, principal: Principal)

  /** A Pub/Sub subscription: its name, its other properties and the access control its author declares. */
  datatype Subscription = Subscription(name: string, properties: Props, accessControl: seq<Binding>)

  /** The resource categories whose properties go to their template unchanged. */
  datatype Kind = CloudRouter | Firewall | Instance | CustomRole | IpAddress | Route | Network | Vpn

  /**
   * A resource the project's author declares. `name` is the resource's name in
   * the deployment (the bucket, dataset, topic, role or account name);
   * `properties` is the author's property bag.
   */
  datatype UserResource =
    | GcsBucket(name: string, properties: Props, bindings: seq<Binding>, expectedUsers: seq<string>)
    | BigqueryDataset(name: string, properties: Props, access: seq<Access>)
    | Pubsub(name: string, properties: Props, subscriptions: seq<Subscription>)
    | IamPolicy(name: string, properties: Props)
    | ServiceAccount(name: string, properties: Props)
    | Templated(kind: Kind, name: string, properties: Props)

  /** Where the project's audit logs are kept. */
  datatype AuditLogs = AuditLogs(datasetLocation: string, logsBucketLocation: string, logsBucketStorageClass: string)

  /** A GKE cluster: its name and its location descriptor. */
  datatype GkeCluster = GkeCluster(name: string, locationType: string, region: string, zone: string)

  /** A workload for a cluster; `manifestFile` is the file its rendered manifest is written to. */
  datatype GkeWorkload = GkeWorkload(clusterName: string, manifestFile: string)

  datatype Project = Project(
    id: string,
    ownersGroup: string,
    auditorsGroup: string,
    dataReadWriteGroups: seq<string>,
    dataReadOnlyGroups: seq<string>,
    auditLogs: AuditLogs,
    stateBucketLocation: string,
    resources: seq<UserResource>,
    gkeClusters: seq<GkeCluster>,
    gkeWorkloads: seq<GkeWorkload>,
    binauthzPolicyFile: Option<string>)  // the file the rendered policy is written to, if the project has one
}
