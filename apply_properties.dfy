/**
 * What a run of the apply orchestrator does, read off its call log: the
 * order of the three graph upserts, where a bad sink identity stops the run,
 * when the Terraform apply and the policy import happen, and how the run
 * ends. These hold whatever the graphs hold; Apply upserts the project's own
 * graphs, ProjectGraphs(p).
 */
module ApplyProperties {
  import opened Seqs
  import opened Values
  import opened Config
  import opened Plan
  import opened Hooks
  import opened Gke
  import opened Apply

  /** The three graph upserts of a run, in the order Apply makes them. */
  function GraphUpserts(p: Project, g: Graphs, sinkAccount: string): seq<Call> {
    [ Upsert(PrerequisitesDeploymentName, g.prerequisites, p.id),
      Upsert(ResourcesDeploymentName, g.resources, p.id),
      Upsert(AuditDeploymentName(p.id), g.audit(sinkAccount), p.id) ]
  }

  predicate NoUpserts(calls: seq<Call>) {
    forall c :: c in calls ==> !c.Upsert?
  }

  predicate AllRuns(calls: seq<Call>) {
    forall c :: c in calls ==> c.Run?
  }

  lemma UpsertsOfNone(calls: seq<Call>)
    requires NoUpserts(calls)
    ensures Upserts(calls) == []
  {
    if Upserts(calls) != [] {
      assert Upserts(calls)[0] in Upserts(calls);
    }
  }

  lemma UpsertsOfThree(u0: Call, u1: Call, u2: Call)
    requires u0.Upsert? && u1.Upsert? && u2.Upsert?
    ensures Upserts([u0, u1, u2]) == [u0, u1, u2]
  {
    assert [u0, u1, u2][1..] == [u1, u2];
    assert [u1, u2][1..] == [u2];
    assert [u2][1..] == [];
  }

  /** A log of three upserts followed by the Terraform calls, the runs and the last calls. */
  lemma Steps(log: seq<Call>, u0: Call, u1: Call, u2: Call, tf: seq<Call>, runs: seq<Call>, last: seq<Call>)
    ensures var e := log + [u0] + [u1] + [u2] + tf + runs + last;
            && |e| >= |log| + 3
            && e[..|log| + 3] == log + [u0, u1, u2]
            && e[|log|..] == [u0, u1, u2] + tf + runs + last
  {
    var e := log + [u0] + [u1] + [u2] + tf + runs + last;
    assert e == log + ([u0, u1, u2] + tf + runs + last);
  }

  lemma StepsUpserts(log: seq<Call>, u0: Call, u1: Call, u2: Call, tf: seq<Call>, runs: seq<Call>, last: seq<Call>)
    requires u0.Upsert? && u1.Upsert? && u2.Upsert? && NoUpserts(tf) && NoUpserts(runs) && NoUpserts(last)
    ensures Upserts(log + [u0] + [u1] + [u2] + tf + runs + last) == Upserts(log) + [u0, u1, u2]
  {
    var u := [u0, u1, u2];
    assert log + [u0] + [u1] + [u2] + tf + runs + last == log + (u + tf + runs + last);
    UpsertsOfThree(u0, u1, u2);
    UpsertsAppendNone(u, tf);
    UpsertsAppendNone(u + tf, runs);
    UpsertsAppendNone(u + tf + runs, last);
    UpsertsAppend(log, u + tf + runs + last);
  }

  /** Appending calls that upsert nothing leaves the upserts unchanged. */
  lemma UpsertsAppendNone(calls: seq<Call>, more: seq<Call>)
    requires NoUpserts(more)
    ensures Upserts(calls + more) == Upserts(calls)
  {
    UpsertsOfNone(more);
    UpsertsAppend(calls, more);
    assert Upserts(calls) + [] == Upserts(calls);
  }

  /** What runs after the graph upserts: Terraform applies, then runs. */
  lemma AfterGraphs(p: Project, opts: Options, cmds: seq<seq<string>>)
    ensures forall c :: c in TerraformCalls(p, opts) <==>
              opts.enableTerraform && c == TerraformApply(Terraform.TerraformPlan(p).0, Terraform.TerraformPlan(p).1)
    ensures NoUpserts(TerraformCalls(p, opts)) && NoUpserts(Runs(cmds)) && NoUpserts(BinauthzCalls(p)) && NoUpserts([])
    ensures AllRuns(Runs(cmds)) && AllRuns(BinauthzCalls(p)) && AllRuns([])
  {
    RunsContents(cmds);
  }

  /**
   * A run past the sink identity, step by step: the upserts, the Terraform
   * calls, the workloads' runs, and the policy import when they all succeed.
   */
  lemma ApplyLogOk(log: seq<Call>, p: Project, opts: Options, writerIdentity: string, g: Graphs)
    requires GetLogSinkServiceAccount(writerIdentity).Ok?
    ensures var sa := GetLogSinkServiceAccount(writerIdentity).value;
            var wc := WorkloadCommands(p.gkeClusters, p.gkeWorkloads, p.id);
            var calls := ApplyLog(log, p, opts, writerIdentity, g).1;
            && ApplyLog(log, p, opts, writerIdentity, g).0 == wc.1
            && calls == log + [GraphUpserts(p, g, sa)[0]] + [GraphUpserts(p, g, sa)[1]] + [GraphUpserts(p, g, sa)[2]]
                 + TerraformCalls(p, opts) + Runs(wc.0) + (if wc.1.Pass? then BinauthzCalls(p) else [])
            && |calls| >= |log| + 3
            && calls[..|log| + 3] == log + GraphUpserts(p, g, sa)
            && calls[|log|..] ==
                 GraphUpserts(p, g, sa) + TerraformCalls(p, opts) + Runs(wc.0) + (if wc.1.Pass? then BinauthzCalls(p) else [])
  {
    var sa := GetLogSinkServiceAccount(writerIdentity).value;
    var wc := WorkloadCommands(p.gkeClusters, p.gkeWorkloads, p.id);
    var u := GraphUpserts(p, g, sa);
    var last := if wc.1.Pass? then BinauthzCalls(p) else [];
    Steps(log, u[0], u[1], u[2], TerraformCalls(p, opts), Runs(wc.0), last);
    assert u == [u[0], u[1], u[2]];
    if wc.1.Fail? {
      var upto := log + [u[0]] + [u[1]] + [u[2]] + TerraformCalls(p, opts) + Runs(wc.0);
      assert upto + [] == upto;
    }
  }

  /**
   * Past the sink identity, the run upserts exactly three graphs, each in the
   * project: the prerequisites, then the resources, then the audit graph for
   * the sink's service account, and before any other call.
   */
  lemma ApplyUpsertOrder(log: seq<Call>, p: Project, opts: Options, writerIdentity: string, g: Graphs)
    requires GetLogSinkServiceAccount(writerIdentity).Ok?
    ensures var sa := GetLogSinkServiceAccount(writerIdentity).value;
            var calls := ApplyLog(log, p, opts, writerIdentity, g).1;
            && |calls| >= |log| + 3
            && calls[..|log| + 3] == log + GraphUpserts(p, g, sa)
            && Upserts(calls) == Upserts(log) + GraphUpserts(p, g, sa)
  {
    var sa := GetLogSinkServiceAccount(writerIdentity).value;
    var wc := WorkloadCommands(p.gkeClusters, p.gkeWorkloads, p.id);
    var u := GraphUpserts(p, g, sa);
    ApplyLogOk(log, p, opts, writerIdentity, g);
    AfterGraphs(p, opts, wc.0);
    StepsUpserts(log, u[0], u[1], u[2], TerraformCalls(p, opts), Runs(wc.0), if wc.1.Pass? then BinauthzCalls(p) else []);
    assert u == [u[0], u[1], u[2]];
  }

  /**
   * A writer identity without the `serviceAccount:` prefix ends the run with
   * the error naming it, after the prerequisites and resources upserts and
   * before anything else.
   */
  lemma ApplyBadIdentity(log: seq<Call>, p: Project, opts: Options, writerIdentity: string, g: Graphs)
    requires |writerIdentity| <= |ServiceAccountPrefix| || writerIdentity[..|ServiceAccountPrefix|] != ServiceAccountPrefix
    ensures ApplyLog(log, p, opts, writerIdentity, g).0 ==
              Fail("unexpected writer identity of log sink " + "audit-logs-to-bigquery" + ": " + "\"" + writerIdentity + "\"")
  {
  }

  /** A run with a writer identity of the wrong shape makes only the prerequisites and resources upserts. */
  lemma ApplyBadIdentityCalls(log: seq<Call>, p: Project, opts: Options, writerIdentity: string, g: Graphs)
    requires |writerIdentity| <= |ServiceAccountPrefix| || writerIdentity[..|ServiceAccountPrefix|] != ServiceAccountPrefix
    ensures ApplyLog(log, p, opts, writerIdentity, g).1 == log + GraphUpserts(p, g, "")[..2]
  {
    var u := GraphUpserts(p, g, "");
    assert log + [u[0]] + [u[1]] == log + [u[0], u[1]];
    assert u[..2] == [u[0], u[1]];
  }

  /** Among three upserts, the Terraform calls and runs, the Terraform applies are those of `tf`. */
  lemma TerraformAmongSteps(u0: Call, u1: Call, u2: Call, tf: seq<Call>, runs: seq<Call>, last: seq<Call>)
    requires u0.Upsert? && u1.Upsert? && u2.Upsert? && AllRuns(runs) && AllRuns(last)
    ensures forall c :: c in [u0, u1, u2] + tf + runs + last && c.TerraformApply? <==> c in tf && c.TerraformApply?
  {
  }

  /** The Terraform apply happens, with the state bucket plan, exactly when it is enabled and the sink identity is good. */
  lemma ApplyTerraform(log: seq<Call>, p: Project, opts: Options, writerIdentity: string, g: Graphs)
    ensures |log| <= |ApplyLog(log, p, opts, writerIdentity, g).1|
    ensures forall c :: c in ApplyLog(log, p, opts, writerIdentity, g).1[|log|..] && c.TerraformApply? <==>
              && opts.enableTerraform && GetLogSinkServiceAccount(writerIdentity).Ok?
              && c == TerraformApply(Terraform.TerraformPlan(p).0, Terraform.TerraformPlan(p).1)
  {
    if GetLogSinkServiceAccount(writerIdentity).Ok? {
      var wc := WorkloadCommands(p.gkeClusters, p.gkeWorkloads, p.id);
      var u := GraphUpserts(p, g, GetLogSinkServiceAccount(writerIdentity).value);
      ApplyLogOk(log, p, opts, writerIdentity, g);
      AfterGraphs(p, opts, wc.0);
      TerraformAmongSteps(u[0], u[1], u[2], TerraformCalls(p, opts), Runs(wc.0), if wc.1.Pass? then BinauthzCalls(p) else []);
      assert u == [u[0], u[1], u[2]];
    } else {
      ApplyBadIdentity(log, p, opts, writerIdentity, g);
      var u := GraphUpserts(p, g, "");
      assert (log + u[..2])[|log|..] == u[..2];
    }
  }

  /** Every command the workloads run is a get-credentials or a kubectl command. */
  lemma {:induction false} WorkloadCommandsKinds(clusters: seq<GkeCluster>, ws: seq<GkeWorkload>, projectID: string)
    ensures forall cmd :: cmd in WorkloadCommands(clusters, ws, projectID).0 ==>
              |cmd| >= 2 && (cmd[0] == "kubectl" || cmd[1] == "container")
  {
    if ws != [] {
      WorkloadCommandsKinds(clusters, ws[1..], projectID);
    }
  }

  /** No workload command is a policy import. */
  lemma NoBinauthzAmongWorkloads(clusters: seq<GkeCluster>, ws: seq<GkeWorkload>, projectID: string)
    ensures forall f :: Run(BinauthzCommand(f, projectID)) !in Runs(WorkloadCommands(clusters, ws, projectID).0)
  {
    RunsContents(WorkloadCommands(clusters, ws, projectID).0);
    WorkloadCommandsKinds(clusters, ws, projectID);
    forall f ensures BinauthzCommand(f, projectID)[0] == "gcloud" && BinauthzCommand(f, projectID)[1] == "beta" {
    }
  }

  /** The policy import names its policy file: the import of `f` is among BinauthzCalls(p) exactly when `f` is the project's policy. */
  lemma BinauthzCallsOf(p: Project)
    ensures forall f :: Run(BinauthzCommand(f, p.id)) in BinauthzCalls(p) <==> p.binauthzPolicyFile == Some(f)
  {
    forall f | Run(BinauthzCommand(f, p.id)) in BinauthzCalls(p) ensures p.binauthzPolicyFile == Some(f) {
      assert BinauthzCommand(f, p.id)[6] == f;
    }
  }

  /**
   * The run ends well exactly when the sink identity is good and every
   * workload can be deployed.
   */
  lemma ApplyOutcome(log: seq<Call>, p: Project, opts: Options, writerIdentity: string, g: Graphs)
    ensures ApplyLog(log, p, opts, writerIdentity, g).0.Pass? <==>
              && GetLogSinkServiceAccount(writerIdentity).Ok?
              && forall w :: w in p.gkeWorkloads ==> WorkloadStep(p.gkeClusters, w, p.id).Ok?
  {
    WorkloadCommandsPass(p.gkeClusters, p.gkeWorkloads, p.id);
  }

  /**
   * The policy import is run exactly when the run ends well and the project
   * has a policy, and with that policy.
   */
  lemma ApplyBinauthz(log: seq<Call>, p: Project, opts: Options, writerIdentity: string, g: Graphs)
    ensures |log| <= |ApplyLog(log, p, opts, writerIdentity, g).1|
    ensures forall f :: Run(BinauthzCommand(f, p.id)) in ApplyLog(log, p, opts, writerIdentity, g).1[|log|..] <==>
              ApplyLog(log, p, opts, writerIdentity, g).0.Pass? && p.binauthzPolicyFile == Some(f)
  {
    if GetLogSinkServiceAccount(writerIdentity).Ok? {
      var wc := WorkloadCommands(p.gkeClusters, p.gkeWorkloads, p.id);
      NoBinauthzAmongWorkloads(p.gkeClusters, p.gkeWorkloads, p.id);
      BinauthzCallsOf(p);
      AfterGraphs(p, opts, wc.0);
      ApplyLogOk(log, p, opts, writerIdentity, g);
    } else {
      ApplyBadIdentity(log, p, opts, writerIdentity, g);
      var u := GraphUpserts(p, g, "");
      assert (log + u[..2])[|log|..] == u[..2];
    }
  }

  /** A run that ends well with a policy to import ends with that import. */
  lemma ApplyBinauthzLast(log: seq<Call>, p: Project, opts: Options, writerIdentity: string, g: Graphs)
    requires ApplyLog(log, p, opts, writerIdentity, g).0.Pass? && p.binauthzPolicyFile.Some?
    ensures |ApplyLog(log, p, opts, writerIdentity, g).1| > 0
    ensures ApplyLog(log, p, opts, writerIdentity, g).1[|ApplyLog(log, p, opts, writerIdentity, g).1| - 1] ==
              Run(BinauthzCommand(p.binauthzPolicyFile.value, p.id))
  {
  }

  /**
   * A project with no workloads and no policy, applied with Terraform
   * disabled and a good sink identity, upserts its three graphs and nothing
   * else, and ends well.
   */
  lemma ApplyGraphsOnly(log: seq<Call>, p: Project, email: string, g: Graphs)
    requires p.gkeWorkloads == [] && p.binauthzPolicyFile.None?
    requires email != []
    ensures ApplyLog(log, p, Options(false), ServiceAccountPrefix + email, g) == (Pass, log + GraphUpserts(p, g, email))
  {
    LogSinkServiceAccountRoundTrip(email);
    ApplyLogOk(log, p, Options(false), ServiceAccountPrefix + email, g);
    var u := GraphUpserts(p, g, email);
    var wc := WorkloadCommands(p.gkeClusters, p.gkeWorkloads, p.id);
    assert wc == ([], Pass);
    assert Runs(wc.0) == [] && TerraformCalls(p, Options(false)) == [] && BinauthzCalls(p) == [];
    assert log + [u[0]] + [u[1]] + [u[2]] + [] + [] + [] == log + u;
  }

  /** The sink identity the backend reports for the sample project yields its service account. */
  lemma SampleWriterIdentity()
    ensures GetLogSinkServiceAccount("serviceAccount:" + "p12345-999999@gcp-sa-logging.iam.gserviceaccount.com")
         == Ok("p12345-999999@gcp-sa-logging.iam.gserviceaccount.com")
  {
    LogSinkServiceAccountRoundTrip("p12345-999999@gcp-sa-logging.iam.gserviceaccount.com");
  }
}
