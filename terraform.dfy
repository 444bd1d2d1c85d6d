/**
 * The Terraform applier: the project's Terraform state bucket is managed by
 * Terraform rather than by the deployment backend. The configuration holds
 * that one bucket, and the import list adopts the bucket, which already
 * exists, instead of creating it anew.
 */
module Terraform {
  import opened Values
  import opened Config
  import opened TerraformConfig
  import opened Hooks

  const RequiredVersion := ">= 0.12.0"
  const StorageBucketType := "google_storage_bucket"

  function StateBucketName(projectID: string): string {
    projectID + "-state"
  }

  /** The state bucket's block: named after the bucket, in the project, at its location, versioned. */
  function StateBucket(p: Project): TfResource {
    TfResource(StorageBucketType, StateBucketName(p.id), map[
      "name" := Str(StateBucketName(p.id)),
      "project" := Str(p.id),
      "location" := Str(p.stateBucketLocation),
      "versioning" := Obj(map["enabled" := Bool(true)])])
  }

  /** The configuration and import list the applier hands to Terraform. */
  function TerraformPlan(p: Project): (plan: (TfConfig, seq<TfImport>))
    ensures ImportsResolve(plan.0, plan.1)
  {
    var bucket := StateBucket(p);
    assert CountAddress([bucket][1..], BlockAddress(bucket)) == 0;
    (TfConfig(RequiredVersion, [bucket]), [TfImport(BlockAddress(bucket), p.id + "/" + StateBucketName(p.id))])
  }

  /**
   * The configuration requires Terraform 0.12 or later and holds exactly one
   * block, the google_storage_bucket `<project>-state` with its name, project,
   * location and versioning; exactly one import adopts it, at that block's
   * address, by the ID `<project>/<project>-state`.
   */
  lemma TerraformPlanSpec(p: Project)
    ensures TerraformPlan(p).0.requiredVersion == ">= 0.12.0"
    ensures |TerraformPlan(p).0.resources| == 1
    ensures TerraformPlan(p).0.resources[0].typ == "google_storage_bucket"
    ensures TerraformPlan(p).0.resources[0].name == p.id + "-state"
    ensures TerraformPlan(p).0.resources[0].properties.Keys == {"name", "project", "location", "versioning"}
    ensures TerraformPlan(p).0.resources[0].properties["name"] == Str(p.id + "-state")
    ensures TerraformPlan(p).0.resources[0].properties["project"] == Str(p.id)
    ensures TerraformPlan(p).0.resources[0].properties["location"] == Str(p.stateBucketLocation)
    ensures TerraformPlan(p).0.resources[0].properties["versioning"] == Obj(map["enabled" := Bool(true)])
    ensures TerraformPlan(p).1 == [TfImport("google_storage_bucket." + p.id + "-state", p.id + "/" + p.id + "-state")]
    ensures TerraformPlan(p).1[0].address == BlockAddress(TerraformPlan(p).0.resources[0])
  {
    assert StorageBucketType + "." + StateBucketName(p.id) == "google_storage_bucket." + p.id + "-state";
    assert p.id + "/" + StateBucketName(p.id) == p.id + "/" + p.id + "-state";
  }

  /** Builds the state bucket's configuration and import list and applies them with Terraform, once. */
  method DeployTerraform(backend: Backend, p: Project)
    modifies backend
    ensures backend.calls == old(backend.calls) + [TerraformApply(TerraformPlan(p).0, TerraformPlan(p).1)]
  {
    var plan := TerraformPlan(p);
    backend.TerraformApply(plan.0, plan.1);
  }
}
