/**
 * What the plan builder promises about the graphs it makes: the baseline is
 * always there, declared resources are all there, group-derived access is
 * merged with declared access without losing either, and the import lists
 * are exact.
 */
module PlanProperties {
  import opened Seqs
  import opened Values
  import opened Bindings
  import opened Deployments
  import opened Config
  import opened Plan

  function Names(rs: seq<Resource>): seq<string> {
    seq(|rs|, i requires 0 <= i < |rs| => rs[i].name)
  }

  /**
   * The baseline catalog: the audit sink, three change-count metrics and the
   * required project bindings, in that order.
   */
  lemma BaselineCatalog(p: Project)
    ensures Names(Baseline(p)) == ["audit-logs-to-bigquery", "bigquery-settings-change-count",
      "iam-policy-change-count", "bucket-permission-change-count", "required-project-bindings"]
    ensures Baseline(p)[0].typ == Native("logging.v2.sink")
    ensures forall i :: 1 <= i < 4 ==> Baseline(p)[i].typ == Native("logging.v2.metric")
    ensures Baseline(p)[4].typ == Template(IamMemberTemplate)
  {
  }

  /**
   * The sink writes to the project's audit dataset with its own identity; the
   * required bindings make the owners group owner and the auditors group
   * security reviewer.
   */
  lemma BaselineContents(p: Project)
    ensures Baseline(p)[0].properties["destination"] == Str("bigquery.googleapis.com/projects/" + p.id + "/datasets/audit_logs")
    ensures Baseline(p)[0].properties["uniqueWriterIdentity"] == Bool(true)
    ensures Baseline(p)[4].properties["roles"] == BindingsValue(
      [Binding("roles/owner", ["group:" + p.ownersGroup]), Binding("roles/iam.securityReviewer", ["group:" + p.auditorsGroup])])
  {
  }

  /** Two projects that agree on the ID and the owners and auditors groups get the same baseline. */
  lemma BaselineDependsOn(p: Project, q: Project)
    requires q.id == p.id && q.ownersGroup == p.ownersGroup && q.auditorsGroup == p.auditorsGroup
    ensures Baseline(q) == Baseline(p)
  {
  }

  /** Every resource of the user part comes from one declared resource, and every declared resource's resources are there. */
  lemma {:induction false} UserResourcesShape(p: Project, us: seq<UserResource>)
    ensures forall r :: r in UserResources(p, us) ==> exists u :: u in us && r in Expand(p, u)
    ensures forall u, r :: u in us && r in Expand(p, u) ==> r in UserResources(p, us)
  {
    if us != [] {
      UserResourcesShape(p, us[1..]);
      assert forall u :: u in us <==> u == us[0] || u in us[1..];
    }
  }

  /** The baseline uses one template, the IAM member template of its required bindings. */
  lemma BaselineTemplates(p: Project)
    ensures exists r :: r in Baseline(p) && r.typ == Template(IamMemberTemplate)
    ensures forall r :: r in Baseline(p) && r.typ.Template? ==> r.typ.path == IamMemberTemplate
  {
    assert Baseline(p)[4] in Baseline(p);
  }

  /**
   * The resources graph is the baseline followed by the declared resources'
   * expansions; its imports are the baseline's one template and the
   * templates the declared resources use, each once.
   */
  lemma ResourceDeploymentSpec(p: Project)
    ensures ResourceDeployment(p).resources == Baseline(p) + UserResources(p, p.resources)
    ensures WellFormed(ResourceDeployment(p))
    ensures forall x :: Import(x) in ResourceDeployment(p).imports <==>
      x == IamMemberTemplate || exists r :: r in UserResources(p, p.resources) && r.typ == Template(x)
    ensures forall u, r :: u in p.resources && r in Expand(p, u) ==> r in ResourceDeployment(p).resources
  {
    var base := Baseline(p);
    var user := UserResources(p, p.resources);
    BuildDeploymentSound(base + user);
    assert forall r :: r in base + user <==> r in base || r in user;
    BaselineTemplates(p);
    UserResourcesShape(p, p.resources);
  }

  /** A project that declares no resources gets exactly the baseline, importing only its one template. */
  lemma EmptyProjectIsBaseline(p: Project)
    requires p.resources == []
    ensures ResourceDeployment(p).resources == Baseline(p)
    ensures ResourceDeployment(p).imports == [Import(IamMemberTemplate)]
  {
    assert Baseline(p) + [] == Baseline(p);
    BaselineTemplates(p);
    SingleTemplateImports(Baseline(p), IamMemberTemplate);
  }

  /**
   * IAM policies use the same template as the baseline's required bindings and
   * service accounts use a backend type, so a project declaring only those
   * imports nothing beyond the baseline's one template.
   */
  lemma IamPoliciesAddNoImport(p: Project)
    requires forall u :: u in p.resources ==> u.IamPolicy? || u.ServiceAccount?
    ensures ResourceDeployment(p).imports == [Import(IamMemberTemplate)]
  {
    var base := Baseline(p);
    var user := UserResources(p, p.resources);
    OnlyIamTemplates(p, p.resources);
    BaselineTemplates(p);
    assert forall r :: r in base + user <==> r in base || r in user;
    SingleTemplateImports(base + user, IamMemberTemplate);
  }

  lemma {:induction false} OnlyIamTemplates(p: Project, us: seq<UserResource>)
    requires forall u :: u in us ==> u.IamPolicy? || u.ServiceAccount?
    ensures forall r :: r in UserResources(p, us) && r.typ.Template? ==> r.typ.path == IamMemberTemplate
  {
    if us != [] {
      assert us[0] in us;
      OnlyIamTemplates(p, us[1..]);
      var head := Expand(p, us[0]);
      assert forall r :: r in UserResources(p, us) <==> r in head || r in UserResources(p, us[1..]);
    }
  }

  /** Categories without security semantics keep the author's properties unchanged. */
  lemma PassThroughCategories(p: Project, u: UserResource)
    requires u.IamPolicy? || u.ServiceAccount? || u.Templated?
    ensures |Expand(p, u)| == 1
    ensures Expand(p, u)[0].properties == u.properties && Expand(p, u)[0].dependsOn == []
    ensures u.IamPolicy? ==> Expand(p, u)[0].typ == Template(IamMemberTemplate)
    ensures u.ServiceAccount? ==> Expand(p, u)[0].typ == Native("iam.v1.serviceAccount")
    ensures u.Templated? ==> Expand(p, u)[0].typ == Template(KindTemplate(u.kind))
  {
  }

  lemma {:induction false} GroupMembersHas(groups: seq<string>, g: string)
    requires g in groups
    ensures "group:" + g in GroupMembers(groups)
  {
    var i :| 0 <= i < |groups| && groups[i] == g;
    assert GroupMembers(groups)[i] == "group:" + g;
  }

  /**
   * A bucket's bindings: storage.admin for the owners, objectAdmin for the
   * read-write groups, objectViewer for the read-only groups, and every
   * binding the author declares on top; nothing else, one binding per role.
   */
  lemma BucketBindingsSpec(p: Project, declared: seq<Binding>)
    ensures Distinct(Roles(BucketBindings(p, declared)))
    ensures Grants(BucketBindings(p, declared), "roles/storage.admin", "group:" + p.ownersGroup)
    ensures forall g :: g in p.dataReadWriteGroups ==> Grants(BucketBindings(p, declared), "roles/storage.objectAdmin", "group:" + g)
    ensures forall g :: g in p.dataReadOnlyGroups ==> Grants(BucketBindings(p, declared), "roles/storage.objectViewer", "group:" + g)
    ensures forall role, m :: Grants(declared, role, m) ==> Grants(BucketBindings(p, declared), role, m)
    ensures forall role, m :: Grants(BucketBindings(p, declared), role, m) ==>
      Grants(BucketDefaultBindings(p), role, m) || Grants(declared, role, m)
    ensures declared == [] ==> BucketBindings(p, declared) == BucketDefaultBindings(p)
  {
    var defaults := BucketDefaultBindings(p);
    MergeBindingsSound(defaults + declared);
    GrantsAppend(defaults, declared);
    assert defaults[0] in defaults;
    forall g | g in p.dataReadWriteGroups ensures Grants(defaults, "roles/storage.objectAdmin", "group:" + g) {
      GroupMembersHas(p.dataReadWriteGroups, g);
      assert defaults[1] in defaults;
    }
    forall g | g in p.dataReadOnlyGroups ensures Grants(defaults, "roles/storage.objectViewer", "group:" + g) {
      GroupMembersHas(p.dataReadOnlyGroups, g);
      assert defaults[2] in defaults;
    }
    if declared == [] {
      assert defaults + declared == defaults;
      assert Roles(defaults) == ["roles/storage.admin", "roles/storage.objectAdmin", "roles/storage.objectViewer"];
      MergeBindingsOfDistinct(defaults);
    }
  }

  /**
   * A bucket becomes the bucket itself, with merged bindings, versioning on
   * and access logs going to the project's logs bucket, and a companion
   * metric named after it that depends on it and counts data access by
   * anyone but the bucket's expected users.
   */
  lemma BucketExpansion(p: Project, u: UserResource)
    requires u.GcsBucket?
    ensures Expand(p, u)[0].typ == Template(GcsBucketTemplate)
    ensures Expand(p, u)[0].properties["bindings"] == BindingsValue(BucketBindings(p, u.bindings))
    ensures Expand(p, u)[0].properties["versioning"] == Obj(map["enabled" := Bool(true)])
    ensures Expand(p, u)[0].properties["logging"] == Obj(map["logBucket" := Str(p.id + "-logs")])
    ensures forall k :: k in u.properties && k != "bindings" && k != "versioning" && k != "logging" ==>
      Expand(p, u)[0].properties[k] == u.properties[k]
    ensures Expand(p, u)[1].name == "unexpected-access-" + u.name
    ensures Expand(p, u)[1].typ == Native("logging.v2.metric")
    ensures Expand(p, u)[1].dependsOn == [u.name]
    ensures Expand(p, u)[1].properties["filter"].Str?
    ensures EndsWith(Expand(p, u)[1].properties["filter"].s, PrincipalExclusion + Join(u.expectedUsers, " AND ") + ")")
    ensures forall e :: e in u.expectedUsers ==> Contains(Expand(p, u)[1].properties["filter"].s, e)
  {
    UnexpectedAccessFilterNames(p.id, u.name, u.expectedUsers);
  }

  /**
   * The unexpected-access filter ends with the exclusion clause, which lists
   * every expected user: their accesses are the ones the metric leaves out.
   */
  lemma UnexpectedAccessFilterNames(projectID: string, bucket: string, expectedUsers: seq<string>)
    ensures EndsWith(UnexpectedAccessFilter(projectID, bucket, expectedUsers), PrincipalExclusion + Join(expectedUsers, " AND ") + ")")
    ensures forall e :: e in expectedUsers ==> Contains(Join(expectedUsers, " AND "), e)
    ensures forall e :: e in expectedUsers ==> Contains(UnexpectedAccessFilter(projectID, bucket, expectedUsers), e)
  {
    var joined := Join(expectedUsers, " AND ");
    var filter := UnexpectedAccessFilter(projectID, bucket, expectedUsers);
    var pre := "resource.type=gcs_bucket AND\n"
      + "logName=projects/" + projectID + "/logs/cloudaudit.googleapis.com%2Fdata_access AND\n"
      + "protoPayload.resourceName=projects/_/buckets/" + bucket + " AND\n"
      + "protoPayload.status.code!=7 AND\n";
    assert filter == pre + PrincipalExclusion + joined + ")";
    assert filter == pre + (PrincipalExclusion + joined + ")");
    EndsWithAppend(pre, PrincipalExclusion + joined + ")");
    forall e | e in expectedUsers ensures Contains(joined, e) && Contains(filter, e) {
      JoinContainsPart(expectedUsers, " AND ", e);
      ContainsWithin(pre + PrincipalExclusion, joined, ")", e);
    }
  }

  /**
   * A dataset keeps its author's properties except its access list, which
   * becomes the group-derived entries followed by the author's, and its
   * default owner, which is switched off.
   */
  lemma DatasetExpansion(p: Project, u: UserResource)
    requires u.BigqueryDataset?
    ensures Expand(p, u)[0].typ == Template(BigqueryDatasetTemplate)
    ensures Expand(p, u)[0].properties["access"] == AccessValue(DatasetAccess(p, u.access))
    ensures Expand(p, u)[0].properties["setDefaultOwner"] == Bool(false)
    ensures forall k :: k in u.properties && k != "access" && k != "setDefaultOwner" ==>
      Expand(p, u)[0].properties[k] == u.properties[k]
  {
  }

  /**
   * A dataset's access list: the owners as OWNER, each read-write group as
   * WRITER, each read-only group as READER, then the author's own entries
   * unchanged.
   */
  lemma DatasetAccessSpec(p: Project, declared: seq<Access>)
    ensures DatasetAccess(p, declared)[0] == Access("OWNER", GroupByEmail(p.ownersGroup))
    ensures forall g :: g in p.dataReadWriteGroups ==> Access("WRITER", GroupByEmail(g)) in DatasetAccess(p, declared)
    ensures forall g :: g in p.dataReadOnlyGroups ==> Access("READER", GroupByEmail(g)) in DatasetAccess(p, declared)
    ensures forall i :: 0 <= i < |p.dataReadWriteGroups| ==>
      DatasetAccess(p, declared)[1 + i] == Access("WRITER", GroupByEmail(p.dataReadWriteGroups[i]))
    ensures forall i :: 0 <= i < |p.dataReadOnlyGroups| ==>
      DatasetAccess(p, declared)[1 + |p.dataReadWriteGroups| + i] == Access("READER", GroupByEmail(p.dataReadOnlyGroups[i]))
    ensures |DatasetAccess(p, declared)| == 1 + |p.dataReadWriteGroups| + |p.dataReadOnlyGroups| + |declared|
    ensures DatasetAccess(p, declared)[1 + |p.dataReadWriteGroups| + |p.dataReadOnlyGroups|..] == declared
  {
    var acc := DatasetAccess(p, declared);
    var w := GroupAccess("WRITER", p.dataReadWriteGroups);
    var rd := GroupAccess("READER", p.dataReadOnlyGroups);
    assert acc == [Access("OWNER", GroupByEmail(p.ownersGroup))] + w + rd + declared;
    forall i | 0 <= i < |p.dataReadWriteGroups|
      ensures acc[1 + i] == Access("WRITER", GroupByEmail(p.dataReadWriteGroups[i])) {
      assert acc[1 + i] == w[i];
    }
    forall i | 0 <= i < |p.dataReadOnlyGroups|
      ensures acc[1 + |p.dataReadWriteGroups| + i] == Access("READER", GroupByEmail(p.dataReadOnlyGroups[i])) {
      assert acc[1 + |w| + i] == rd[i];
    }
    forall g | g in p.dataReadWriteGroups ensures Access("WRITER", GroupByEmail(g)) in acc {
      var i :| 0 <= i < |p.dataReadWriteGroups| && p.dataReadWriteGroups[i] == g;
      assert acc[1 + i] == w[i];
    }
    forall g | g in p.dataReadOnlyGroups ensures Access("READER", GroupByEmail(g)) in acc {
      var i :| 0 <= i < |p.dataReadOnlyGroups| && p.dataReadOnlyGroups[i] == g;
      assert acc[1 + |w| + i] == rd[i];
    }
  }

  /**
   * A subscription's access control: pubsub.editor for the read-write groups
   * and pubsub.viewer for the read-only groups, each followed by the members
   * the author grants the same role; declared grants are all kept.
   */
  lemma SubscriptionAccessControlSpec(p: Project, declared: seq<Binding>)
    ensures Distinct(Roles(SubscriptionAccessControl(p, declared)))
    ensures "roles/pubsub.editor" in Roles(SubscriptionAccessControl(p, declared))
    ensures "roles/pubsub.viewer" in Roles(SubscriptionAccessControl(p, declared))
    ensures MembersOf(SubscriptionAccessControl(p, declared), "roles/pubsub.editor")
      == GroupMembers(p.dataReadWriteGroups) + MembersOf(declared, "roles/pubsub.editor")
    ensures MembersOf(SubscriptionAccessControl(p, declared), "roles/pubsub.viewer")
      == GroupMembers(p.dataReadOnlyGroups) + MembersOf(declared, "roles/pubsub.viewer")
    ensures forall role, m :: Grants(declared, role, m) ==> Grants(SubscriptionAccessControl(p, declared), role, m)
  {
    var defaults := SubscriptionDefaultBindings(p);
    MergeBindingsSound(defaults + declared);
    GrantsAppend(defaults, declared);
    SubscriptionRoles(p, declared);
    SubscriptionMembers(p, declared, "roles/pubsub.editor");
    SubscriptionMembers(p, declared, "roles/pubsub.viewer");
    SubscriptionDefaultMembers(p);
  }

  lemma SubscriptionDefaultMembers(p: Project)
    ensures MembersOf(SubscriptionDefaultBindings(p), "roles/pubsub.editor") == GroupMembers(p.dataReadWriteGroups)
    ensures MembersOf(SubscriptionDefaultBindings(p), "roles/pubsub.viewer") == GroupMembers(p.dataReadOnlyGroups)
  {
    var d := SubscriptionDefaultBindings(p);
    var rw := GroupMembers(p.dataReadWriteGroups);
    var ro := GroupMembers(p.dataReadOnlyGroups);
    assert "roles/pubsub.editor"[13] != "roles/pubsub.viewer"[13];
    assert d[1..] == [d[1]] && d[1..][1..] == [];
    assert MembersOf(d[1..][1..], "roles/pubsub.editor") == [];
    assert MembersOf(d[1..], "roles/pubsub.editor") == [] + [];
    assert MembersOf(d, "roles/pubsub.editor") == rw + ([] + []);
    assert MembersOf(d[1..][1..], "roles/pubsub.viewer") == [];
    assert MembersOf(d[1..], "roles/pubsub.viewer") == ro + [];
    assert MembersOf(d, "roles/pubsub.viewer") == [] + (ro + []);
  }

  lemma SubscriptionRoles(p: Project, declared: seq<Binding>)
    ensures "roles/pubsub.editor" in Roles(SubscriptionAccessControl(p, declared))
    ensures "roles/pubsub.viewer" in Roles(SubscriptionAccessControl(p, declared))
  {
    var all := SubscriptionDefaultBindings(p) + declared;
    assert Roles(all)[0] == "roles/pubsub.editor";
    assert Roles(all)[1] == "roles/pubsub.viewer";
  }

  lemma SubscriptionMembers(p: Project, declared: seq<Binding>, role: string)
    ensures MembersOf(SubscriptionAccessControl(p, declared), role)
      == MembersOf(SubscriptionDefaultBindings(p), role) + MembersOf(declared, role)
  {
    MembersOfAppend(SubscriptionDefaultBindings(p), declared, role);
  }


  /**
   * A topic keeps every property its author gives it, topic-level access
   * control included; only its subscriptions are rewritten, one for one.
   */
  lemma PubsubExpansion(p: Project, u: UserResource)
    requires u.Pubsub?
    ensures Expand(p, u)[0].typ == Template(PubsubTemplate)
    ensures forall k :: k in u.properties && k != "subscriptions" ==>
      k in Expand(p, u)[0].properties && Expand(p, u)[0].properties[k] == u.properties[k]
    ensures Expand(p, u)[0].properties["subscriptions"].List?
    ensures |Expand(p, u)[0].properties["subscriptions"].items| == |u.subscriptions|
    ensures forall i :: 0 <= i < |u.subscriptions| ==>
      Expand(p, u)[0].properties["subscriptions"].items[i] == SubscriptionValue(p, u.subscriptions[i])
  {
  }

  /**
   * The audit graph holds the audit dataset and the logs bucket, each of
   * their two templates imported once; the logs bucket logs its own access
   * to itself.
   */
  lemma AuditDeploymentSpec(p: Project, sinkAccount: string)
    ensures WellFormed(AuditDeployment(p, sinkAccount))
    ensures Names(AuditDeployment(p, sinkAccount).resources) == ["audit_logs", p.id + "-logs"]
    ensures forall x :: Import(x) in AuditDeployment(p, sinkAccount).imports <==>
      x == BigqueryDatasetTemplate || x == GcsBucketTemplate
  {
    TwoTemplateImports(AuditDataset(p, sinkAccount), LogsBucket(p), BigqueryDatasetTemplate, GcsBucketTemplate);
  }

  /** The graph of two template resources imports exactly their two templates. */
  lemma TwoTemplateImports(a: Resource, b: Resource, x: string, y: string)
    requires a.typ == Template(x) && b.typ == Template(y)
    ensures WellFormed(BuildDeployment([a, b]))
    ensures forall z :: Import(z) in BuildDeployment([a, b]).imports <==> z == x || z == y
  {
    var rs := [a, b];
    BuildDeploymentSound(rs);
    assert forall r :: r in rs <==> r == a || r == b;
  }

  /** The audit dataset grants the derived access list and the logs bucket logs to itself. */
  lemma AuditResourcesSpec(p: Project, sinkAccount: string)
    ensures AuditDeployment(p, sinkAccount).resources[0].properties["access"] == AccessValue(AuditDatasetAccess(p, sinkAccount))
    ensures AuditDeployment(p, sinkAccount).resources[1].properties["logging"] == Obj(map["logBucket" := Str(p.id + "-logs")])
  {
  }

  /** The log sink's writer identity is the audit dataset's one writer. */
  lemma AuditDatasetAccessSpec(p: Project, sinkAccount: string)
    ensures Access("WRITER", UserByEmail(sinkAccount)) in AuditDatasetAccess(p, sinkAccount)
    ensures forall a :: a in AuditDatasetAccess(p, sinkAccount) && a.role == "WRITER" ==> a.principal == UserByEmail(sinkAccount)
  {
  }
}
