/**
 * Terraform configurations as the Terraform applier receives them: a required
 * Terraform version, a list of resource blocks, and the import list that
 * adopts resources which already exist outside Terraform's state.
 */
module TerraformConfig {
  import opened Values

  /** A resource block: its resource type, its name within that type, and its fields. */
  datatype TfResource = TfResource(typ: string, name: string, properties: Props)

  datatype TfConfig = TfConfig(requiredVersion: string, resources: seq<TfResource>)

  /** An existing resource to adopt: the block address it becomes and its real-world ID. */
  datatype TfImport = TfImport(address: string, id: string)

  /** The address Terraform gives a block: `<type>.<name>`. */
  function BlockAddress(b: TfResource): string {
    b.typ + "." + b.name
  }

  /** How many blocks of `rs` have the address `address`. */
  function CountAddress(rs: seq<TfResource>, address: string): (n: nat)
    ensures n <= |rs|
    ensures n == 0 <==> forall b :: b in rs ==> BlockAddress(b) != address
  {
    if rs == [] then 0
    else
      assert forall b :: b in rs <==> b == rs[0] || b in rs[1..];
      (if BlockAddress(rs[0]) == address then 1 else 0) + CountAddress(rs[1..], address)
  }

  /** Every import names exactly one block of the configuration. */
  predicate ImportsResolve(c: TfConfig, imports: seq<TfImport>) {
    forall imp :: imp in imports ==> CountAddress(c.resources, imp.address) == 1
  }
}
