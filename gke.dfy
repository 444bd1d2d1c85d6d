/**
 * The cluster workload applier and the binary-authorization importer: which
 * command lines they run, in which order, and the errors that stop them.
 */
module Gke {
  import opened Values
  import opened Config
  import opened Hooks

  const RegionFlag := "--region"
  const ZoneFlag := "--zone"

  /**
   * The location flag and value of a cluster's credentials command. The
   * location type must be Regional or Zonal, and the matching field must be
   * set; the other field is never consulted.
   */
  function LocationTypeAndValue(c: GkeCluster): (r: Result<(string, string)>)
    ensures r.Ok? <==> (c.locationType == "Regional" && c.region != "") || (c.locationType == "Zonal" && c.zone != "")
    ensures r.Ok? ==> r.value.1 != "" && (r.value == (RegionFlag, c.region) || r.value == (ZoneFlag, c.zone))
    ensures r.Ok? ==> (r.value.0 == RegionFlag <==> c.locationType == "Regional")
    ensures r.Err? ==> r.error == LocationError(c)
  {
    if c.locationType == "Regional" then
      if c.region == "" then Err("failed to get cluster's region: " + c.name) else Ok((RegionFlag, c.region))
    else if c.locationType == "Zonal" then
      if c.zone == "" then Err("failed to get cluster's zone: " + c.name) else Ok((ZoneFlag, c.zone))
    else
      Err("failed to get cluster's location: " + c.name)
  }

  /** The error for a cluster whose location cannot be resolved, naming what is missing. */
  function LocationError(c: GkeCluster): string {
    if c.locationType == "Regional" then "failed to get cluster's region: " + c.name
    else if c.locationType == "Zonal" then "failed to get cluster's zone: " + c.name
    else "failed to get cluster's location: " + c.name
  }

  /** The first declared cluster named `name`, if any. */
  function FindCluster(clusters: seq<GkeCluster>, name: string): (r: Option<GkeCluster>)
    ensures r.None? <==> forall c :: c in clusters ==> c.name != name
    ensures r.Some? ==> r.value.name == name && r.value in clusters
  {
    if clusters == [] then None
    else if clusters[0].name == name then Some(clusters[0])
    else
      assert forall c :: c in clusters <==> c == clusters[0] || c in clusters[1..];
      FindCluster(clusters[1..], name)
  }

  /** The cluster found is the first one with the name: no earlier cluster has it. */
  lemma {:induction false} FindClusterFirst(clusters: seq<GkeCluster>, name: string)
    requires FindCluster(clusters, name).Some?
    ensures exists k :: 0 <= k < |clusters| && clusters[k] == FindCluster(clusters, name).value
                        && forall j :: 0 <= j < k ==> clusters[j].name != name
  {
    if clusters[0].name != name {
      FindClusterFirst(clusters[1..], name);
      var k :| 0 <= k < |clusters| - 1 && clusters[1..][k] == FindCluster(clusters[1..], name).value
                && forall j :: 0 <= j < k ==> clusters[1..][j].name != name;
      assert clusters[k + 1] == FindCluster(clusters, name).value;
      assert forall j :: 0 < j < k + 1 ==> clusters[j] == clusters[1..][j - 1];
    } else {
      assert clusters[0] == FindCluster(clusters, name).value;
    }
  }

  /** Go's %q for the names used here (no characters that need escaping). */
  function Quote(s: string): string { "\"" + s + "\"" }

  function CredentialsCommand(clusterName: string, flag: string, value: string, projectID: string): seq<string> {
    ["gcloud", "container", "clusters", "get-credentials", clusterName, flag, value, "--project", projectID]
  }

  function ApplyWorkloadCommand(manifestFile: string): seq<string> {
    ["kubectl", "apply", "-f", manifestFile]
  }

  function BinauthzCommand(policyFile: string, projectID: string): seq<string> {
    ["gcloud", "beta", "container", "binauthz", "policy", "import", policyFile, "--project", projectID]
  }

  /**
   * What deploying one workload runs: its cluster's credentials command, then
   * the apply of its manifest; or, before running anything, the error for an
   * undeclared cluster or an unresolvable location.
   */
  function WorkloadStep(clusters: seq<GkeCluster>, w: GkeWorkload, projectID: string): (r: Result<seq<seq<string>>>)
    ensures r.Ok? ==> |r.value| == 2
  {
    match FindCluster(clusters, w.clusterName)
    case None => Err("failed to find cluster: " + Quote(w.clusterName))
    case Some(c) =>
      match LocationTypeAndValue(c)
      case Err(e) => Err(e)
      case Ok(loc) => Ok([CredentialsCommand(w.clusterName, loc.0, loc.1, projectID), ApplyWorkloadCommand(w.manifestFile)])
  }

  /**
   * The commands deploying the workloads `ws` runs, in order, and how it
   * ends: each workload's two commands, until the first workload that cannot
   * be deployed, whose error ends the run.
   */
  function WorkloadCommands(clusters: seq<GkeCluster>, ws: seq<GkeWorkload>, projectID: string): (seq<seq<string>>, Outcome)
  {
    if ws == [] then ([], Pass)
    else
      match WorkloadStep(clusters, ws[0], projectID)
      case Err(e) => ([], Fail(e))
      case Ok(cmds) =>
        var rest := WorkloadCommands(clusters, ws[1..], projectID);
        (cmds + rest.0, rest.1)
  }

  /** One workload further into the run: its own step, then the rest. */
  lemma WorkloadCommandsAt(clusters: seq<GkeCluster>, ws: seq<GkeWorkload>, i: nat, projectID: string)
    requires i < |ws|
    ensures WorkloadCommands(clusters, ws[i..], projectID) ==
      match WorkloadStep(clusters, ws[i], projectID)
      case Err(e) => ([], Fail(e))
      case Ok(cmds) => (cmds + WorkloadCommands(clusters, ws[i + 1..], projectID).0, WorkloadCommands(clusters, ws[i + 1..], projectID).1)
  {
    assert ws[i..][0] == ws[i] && ws[i..][1..] == ws[i + 1..];
  }

  /**
   * A workload runs its two commands exactly when its cluster is declared and
   * that cluster's location resolves: the credentials command for that
   * location, then kubectl apply -f its manifest. Otherwise its error names
   * the undeclared cluster, or says what the declared one's location lacks.
   */
  lemma WorkloadStepSpec(clusters: seq<GkeCluster>, w: GkeWorkload, projectID: string)
    ensures (forall c :: c in clusters ==> c.name != w.clusterName) ==>
              WorkloadStep(clusters, w, projectID) == Err("failed to find cluster: " + Quote(w.clusterName))
    ensures WorkloadStep(clusters, w, projectID).Ok? ==>
              exists c ::
                && c in clusters && c.name == w.clusterName && FindCluster(clusters, w.clusterName) == Some(c)
                && LocationTypeAndValue(c).Ok?
                && WorkloadStep(clusters, w, projectID).value ==
                     [CredentialsCommand(w.clusterName, LocationTypeAndValue(c).value.0, LocationTypeAndValue(c).value.1, projectID),
                      ApplyWorkloadCommand(w.manifestFile)]
    ensures WorkloadStep(clusters, w, projectID).Err? && (exists c :: c in clusters && c.name == w.clusterName) ==>
              exists c ::
                && c in clusters && c.name == w.clusterName && FindCluster(clusters, w.clusterName) == Some(c)
                && LocationTypeAndValue(c).Err?
                && WorkloadStep(clusters, w, projectID).error == LocationError(c)
    ensures ((exists c :: c in clusters && c.name == w.clusterName) &&
             (forall c :: c in clusters && c.name == w.clusterName ==> LocationTypeAndValue(c).Ok?))
            ==> WorkloadStep(clusters, w, projectID).Ok?
  {
  }

  /**
   * Deploying workloads succeeds exactly when every workload can be
   * deployed, and then runs two commands per workload.
   */
  lemma {:induction false} WorkloadCommandsPass(clusters: seq<GkeCluster>, ws: seq<GkeWorkload>, projectID: string)
    ensures WorkloadCommands(clusters, ws, projectID).1.Pass? <==> forall w :: w in ws ==> WorkloadStep(clusters, w, projectID).Ok?
    ensures WorkloadCommands(clusters, ws, projectID).1.Pass? ==> |WorkloadCommands(clusters, ws, projectID).0| == 2 * |ws|
  {
    if ws != [] {
      WorkloadCommandsPass(clusters, ws[1..], projectID);
      assert forall w :: w in ws <==> w == ws[0] || w in ws[1..];
    }
  }

  /**
   * A failed run stops at the first workload that cannot be deployed, with
   * that workload's error, having run the two commands of each workload
   * before it.
   */
  lemma {:induction false} WorkloadCommandsFail(clusters: seq<GkeCluster>, ws: seq<GkeWorkload>, projectID: string)
    requires WorkloadCommands(clusters, ws, projectID).1.Fail?
    ensures exists k ::
              && 0 <= k < |ws|
              && (forall j :: 0 <= j < k ==> WorkloadStep(clusters, ws[j], projectID).Ok?)
              && WorkloadStep(clusters, ws[k], projectID).Err?
              && WorkloadCommands(clusters, ws, projectID).1.error == WorkloadStep(clusters, ws[k], projectID).error
              && |WorkloadCommands(clusters, ws, projectID).0| == 2 * k
  {
    var step := WorkloadStep(clusters, ws[0], projectID);
    if step.Err? {
      assert 0 <= 0 < |ws|;
    } else {
      var rest := WorkloadCommands(clusters, ws[1..], projectID);
      WorkloadCommandsFail(clusters, ws[1..], projectID);
      var k :|
        && 0 <= k < |ws| - 1
        && (forall j :: 0 <= j < k ==> WorkloadStep(clusters, ws[1..][j], projectID).Ok?)
        && WorkloadStep(clusters, ws[1..][k], projectID).Err?
        && rest.1.error == WorkloadStep(clusters, ws[1..][k], projectID).error
        && |rest.0| == 2 * k;
      forall j | 0 <= j < k + 1 ensures WorkloadStep(clusters, ws[j], projectID).Ok? {
        if j > 0 { assert ws[j] == ws[1..][j - 1]; }
      }
      assert ws[k + 1] == ws[1..][k];
    }
  }

  /** The commands come in workload order: workload j's two commands are at 2j and 2j + 1. */
  lemma {:induction false} WorkloadCommandsOrder(clusters: seq<GkeCluster>, ws: seq<GkeWorkload>, projectID: string, j: nat)
    requires j < |ws| && 2 * j + 1 < |WorkloadCommands(clusters, ws, projectID).0|
    ensures WorkloadStep(clusters, ws[j], projectID).Ok?
    ensures WorkloadCommands(clusters, ws, projectID).0[2 * j] == WorkloadStep(clusters, ws[j], projectID).value[0]
    ensures WorkloadCommands(clusters, ws, projectID).0[2 * j + 1] == WorkloadStep(clusters, ws[j], projectID).value[1]
  {
    var r := WorkloadCommands(clusters, ws, projectID);
    var step := WorkloadStep(clusters, ws[0], projectID);
    assert step.Ok?;
    var rest := WorkloadCommands(clusters, ws[1..], projectID);
    assert r.0 == step.value + rest.0;
    if j > 0 {
      WorkloadCommandsOrder(clusters, ws[1..], projectID, j - 1);
      assert ws[j] == ws[1..][j - 1];
    }
  }

  /** One workload whose cluster is declared and resolves: the credentials command, then kubectl apply -f its manifest. */
  lemma SingleWorkload(clusters: seq<GkeCluster>, w: GkeWorkload, c: GkeCluster, projectID: string)
    requires c in clusters && c.name == w.clusterName
    requires forall d :: d in clusters && d.name == w.clusterName ==> d == c
    requires LocationTypeAndValue(c).Ok?
    ensures WorkloadCommands(clusters, [w], projectID) ==
      ([CredentialsCommand(w.clusterName, LocationTypeAndValue(c).value.0, LocationTypeAndValue(c).value.1, projectID),
        ApplyWorkloadCommand(w.manifestFile)], Pass)
    ensures WorkloadCommands(clusters, [w], projectID).0[1][..3] == ["kubectl", "apply", "-f"]
  {
    WorkloadCommandsAt(clusters, [w], 0, projectID);
    assert [w][0..] == [w] && [w][1..] == [];
    assert FindCluster(clusters, w.clusterName) == Some(c);
    var loc := LocationTypeAndValue(c).value;
    assert WorkloadStep(clusters, w, projectID) ==
      Ok([CredentialsCommand(w.clusterName, loc.0, loc.1, projectID), ApplyWorkloadCommand(w.manifestFile)]);
    assert ApplyWorkloadCommand(w.manifestFile)[..3] == ["kubectl", "apply", "-f"];
    assert WorkloadCommands(clusters, [], projectID) == ([], Pass);
    assert WorkloadStep(clusters, w, projectID).value + [] == WorkloadStep(clusters, w, projectID).value;
  }

  /** A workload naming an undeclared cluster stops the run before any command, naming the cluster. */
  lemma UnknownClusterStops(clusters: seq<GkeCluster>, w: GkeWorkload, ws: seq<GkeWorkload>, projectID: string)
    requires forall c :: c in clusters ==> c.name != w.clusterName
    ensures WorkloadCommands(clusters, [w] + ws, projectID) == ([], Fail("failed to find cluster: \"" + w.clusterName + "\""))
  {
    WorkloadCommandsAt(clusters, [w] + ws, 0, projectID);
    assert ([w] + ws)[0..] == [w] + ws && ([w] + ws)[0] == w;
    assert FindCluster(clusters, w.clusterName).None?;
    assert WorkloadStep(clusters, w, projectID) == Err("failed to find cluster: " + Quote(w.clusterName));
    assert "failed to find cluster: " + Quote(w.clusterName) == "failed to find cluster: \"" + w.clusterName + "\"";
  }

  /** The policy import command: the import subcommand, the policy file, then the project. */
  lemma BinauthzCommandShape(policyFile: string, projectID: string)
    ensures |BinauthzCommand(policyFile, projectID)| == 9
    ensures BinauthzCommand(policyFile, projectID)[..6] == ["gcloud", "beta", "container", "binauthz", "policy", "import"]
    ensures BinauthzCommand(policyFile, projectID)[6] == policyFile
    ensures BinauthzCommand(policyFile, projectID)[7..9] == ["--project", projectID]
  {
  }

  /** Fetches the credentials kubectl uses for the cluster. */
  method GetGCloudCredentials(backend: Backend, clusterName: string, flag: string, value: string, projectID: string)
    modifies backend
    ensures backend.calls == old(backend.calls) + [Run(CredentialsCommand(clusterName, flag, value, projectID))]
  {
    backend.Run(["gcloud", "container", "clusters", "get-credentials", clusterName, flag, value, "--project", projectID]);
  }

  /** Applies the manifest in `manifestFile` to the cluster of the current credentials. */
  method ApplyClusterWorkload(backend: Backend, manifestFile: string)
    modifies backend
    ensures backend.calls == old(backend.calls) + [Run(ApplyWorkloadCommand(manifestFile))]
  {
    backend.Run(["kubectl", "apply", "-f", manifestFile]);
  }

  /** Imports the binary-authorization policy written to `policyFile` into the project. */
  method ImportBinauthz(backend: Backend, projectID: string, policyFile: string)
    modifies backend
    ensures backend.calls == old(backend.calls) + [Run(BinauthzCommand(policyFile, projectID))]
  {
    backend.Run(["gcloud", "beta", "container", "binauthz", "policy", "import", policyFile, "--project", projectID]);
  }

  /**
   * Deploys one workload: finds its cluster, resolves the cluster's location,
   * fetches its credentials and applies the workload's manifest.
   */
  method DeployWorkload(backend: Backend, clusters: seq<GkeCluster>, w: GkeWorkload, projectID: string)
    returns (outcome: Outcome)
    modifies backend
    ensures WorkloadStep(clusters, w, projectID).Err? ==>
      outcome == Fail(WorkloadStep(clusters, w, projectID).error) && backend.calls == old(backend.calls)
    ensures WorkloadStep(clusters, w, projectID).Ok? ==>
      outcome == Pass && backend.calls == old(backend.calls) + Runs(WorkloadStep(clusters, w, projectID).value)
  {
    var c := FindCluster(clusters, w.clusterName);
    if c.None? {
      return Fail("failed to find cluster: " + Quote(w.clusterName));
    }
    var loc := LocationTypeAndValue(c.value);
    if loc.Err? {
      return Fail(loc.error);
    }
    GetGCloudCredentials(backend, w.clusterName, loc.value.0, loc.value.1, projectID);
    ApplyClusterWorkload(backend, w.manifestFile);
    outcome := Pass;
  }

  /** A workload that cannot be deployed ends the run, with its error and no further command. */
  lemma WorkloadStops(clusters: seq<GkeCluster>, ws: seq<GkeWorkload>, i: nat, projectID: string, done: seq<seq<string>>)
    requires i < |ws| && WorkloadStep(clusters, ws[i], projectID).Err?
    ensures WorkloadCommands(clusters, ws[i..], projectID) == ([], Fail(WorkloadStep(clusters, ws[i], projectID).error))
    ensures done + WorkloadCommands(clusters, ws[i..], projectID).0 == done
  {
    WorkloadCommandsAt(clusters, ws, i, projectID);
    assert done + [] == done;
  }

  /** A workload that can be deployed contributes its two commands ahead of the rest. */
  lemma WorkloadAdvances(clusters: seq<GkeCluster>, ws: seq<GkeWorkload>, i: nat, projectID: string, done: seq<seq<string>>)
    requires i < |ws| && WorkloadStep(clusters, ws[i], projectID).Ok?
    ensures done + WorkloadCommands(clusters, ws[i..], projectID).0 ==
              (done + WorkloadStep(clusters, ws[i], projectID).value) + WorkloadCommands(clusters, ws[i + 1..], projectID).0
    ensures WorkloadCommands(clusters, ws[i..], projectID).1 == WorkloadCommands(clusters, ws[i + 1..], projectID).1
    ensures Runs(done + WorkloadStep(clusters, ws[i], projectID).value) == Runs(done) + Runs(WorkloadStep(clusters, ws[i], projectID).value)
  {
    WorkloadCommandsAt(clusters, ws, i, projectID);
    RunsAppend(done, WorkloadStep(clusters, ws[i], projectID).value);
    var step := WorkloadStep(clusters, ws[i], projectID).value;
    var rest := WorkloadCommands(clusters, ws[i + 1..], projectID).0;
    assert done + (step + rest) == (done + step) + rest;
  }

  /** Deploys every workload of the project, one after another, stopping at the first error. */
  method DeployGKEWorkloads(backend: Backend, clusters: seq<GkeCluster>, ws: seq<GkeWorkload>, projectID: string)
    returns (outcome: Outcome)
    modifies backend
    ensures backend.calls == old(backend.calls) + Runs(WorkloadCommands(clusters, ws, projectID).0)
    ensures outcome == WorkloadCommands(clusters, ws, projectID).1
  {
    ghost var total := WorkloadCommands(clusters, ws, projectID);
    ghost var start := backend.calls;
    ghost var done: seq<seq<string>> := [];
    assert ws[0..] == ws;
    assert [] + total.0 == total.0;
    var i := 0;
    while i < |ws|
      invariant 0 <= i <= |ws|
      invariant backend.calls == start + Runs(done)
      invariant total.0 == done + WorkloadCommands(clusters, ws[i..], projectID).0
      invariant total.1 == WorkloadCommands(clusters, ws[i..], projectID).1
    {
      var r := DeployWorkload(backend, clusters, ws[i], projectID);
      if r.Fail? {
        WorkloadStops(clusters, ws, i, projectID, done);
        return r;
      }
      WorkloadAdvances(clusters, ws, i, projectID, done);
      done := done + WorkloadStep(clusters, ws[i], projectID).value;
      i := i + 1;
    }
    assert ws[i..] == [];
    assert done + [] == done;
    outcome := Pass;
  }
}
