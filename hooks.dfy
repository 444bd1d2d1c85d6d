/**
 * The apply step's side effects, seen the way its callers observe them: as a
 * log of calls, in the order they are made. An upsert of a deployment graph,
 * a command line run to completion, and a Terraform apply are each one entry.
 * Every call succeeds; a backend that answers with an error is not part of
 * this model.
 */
module Hooks {
  import opened Deployments
  import opened TerraformConfig

  datatype Call =
    | Upsert(name: string, deployment: Deployment, projectID: string)
    | Run(args: seq<string>)
    | TerraformApply(config: TfConfig, imports: seq<TfImport>)

  /** The calls that run the commands `cmds`, one by one. */
  function Runs(cmds: seq<seq<string>>): (calls: seq<Call>)
    ensures |calls| == |cmds|
  {
    if cmds == [] then [] else [Run(cmds[0])] + Runs(cmds[1..])
  }

  lemma {:induction false} RunsAt(cmds: seq<seq<string>>, i: nat)
    requires i < |cmds|
    ensures Runs(cmds)[i] == Run(cmds[i])
  {
    if i > 0 {
      RunsAt(cmds[1..], i - 1);
    }
  }

  lemma {:induction false} RunsAppend(a: seq<seq<string>>, b: seq<seq<string>>)
    ensures Runs(a + b) == Runs(a) + Runs(b)
  {
    if a == [] {
      assert a + b == b;
    } else {
      assert (a + b)[1..] == a[1..] + b;
      RunsAppend(a[1..], b);
    }
  }

  /** The calls of Runs(cmds) are runs, of exactly the commands `cmds`. */
  lemma {:induction false} RunsContents(cmds: seq<seq<string>>)
    ensures forall c :: c in Runs(cmds) <==> c.Run? && c.args in cmds
  {
    if cmds != [] {
      RunsContents(cmds[1..]);
      assert forall x :: x in cmds <==> x == cmds[0] || x in cmds[1..];
    }
  }

  /** The upserts among `calls`, in order. */
  function Upserts(calls: seq<Call>): (us: seq<Call>)
    ensures |us| <= |calls|
    ensures forall c :: c in us <==> c in calls && c.Upsert?
  {
    if calls == [] then []
    else
      assert forall c :: c in calls <==> c == calls[0] || c in calls[1..];
      (if calls[0].Upsert? then [calls[0]] else []) + Upserts(calls[1..])
  }

  lemma {:induction false} UpsertsAppend(a: seq<Call>, b: seq<Call>)
    ensures Upserts(a + b) == Upserts(a) + Upserts(b)
  {
    if a == [] {
      assert a + b == b;
    } else {
      assert (a + b)[1..] == a[1..] + b;
      UpsertsAppend(a[1..], b);
    }
  }

  /** Runs record no upsert. */
  lemma {:induction false} UpsertsOfRuns(cmds: seq<seq<string>>)
    ensures Upserts(Runs(cmds)) == []
  {
    if cmds != [] {
      UpsertsOfRuns(cmds[1..]);
    }
  }

  /**
   * The backends the apply step talks to, each reduced to the record of the
   * calls made to it.
   */
  class Backend {
    var calls: seq<Call>

    constructor ()
      ensures calls == []
    {
      calls := [];
    }

    /** Creates the deployment `name` in the project, or updates it in place. */
    method UpsertDeployment(name: string, d: Deployment, projectID: string)
      modifies this
      ensures calls == old(calls) + [Upsert(name, d, projectID)]
    {
      calls := calls + [Upsert(name, d, projectID)];
    }

    /** Runs the command line `args` (program name first). */
    method Run(args: seq<string>)
      modifies this
      ensures calls == old(calls) + [Call.Run(args)]
    {
      calls := calls + [Call.Run(args)];
    }

    method TerraformApply(config: TfConfig, imports: seq<TfImport>)
      modifies this
      ensures calls == old(calls) + [Call.TerraformApply(config, imports)]
    {
      calls := calls + [Call.TerraformApply(config, imports)];
    }
  }
}
