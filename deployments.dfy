/**
 * Deployment graphs for the declarative-resource backend (Deployment Manager):
 * a list of template imports and a list of resources. A resource's type is
 * either a template file, which the graph must import, or a type the backend
 * itself provides.
 */
module Deployments {
  import opened Seqs
  import opened Values

  datatype ResourceType =
    | Template(path: string)  // a template file, referenced by its path
    | Native(name: string)    // a type the backend provides, such as logging.v2.sink

  datatype Resource = Resource(name: string, typ: ResourceType, properties: Props, dependsOn: seq<string>)

  datatype Import = Import(path: string)

  datatype Deployment = Deployment(imports: seq<Import>, resources: seq<Resource>)

  function ImportPaths(imports: seq<Import>): seq<string> {
    seq(|imports|, i requires 0 <= i < |imports| => imports[i].path)
  }

  /**
   * The graph's import list is exact: no path is imported twice, every
   * template a resource uses is imported, and nothing else is.
   */
  predicate WellFormed(d: Deployment) {
    && Distinct(ImportPaths(d.imports))
    && (forall r :: r in d.resources && r.typ.Template? ==> Import(r.typ.path) in d.imports)
    && (forall imp :: imp in d.imports ==> exists r :: r in d.resources && r.typ == Template(imp.path))
  }

  /** The template paths the resources use, in order, repeats kept. */
  function TemplatePaths(rs: seq<Resource>): (paths: seq<string>)
    ensures forall x :: x in paths <==> exists r :: r in rs && r.typ == Template(x)
  {
    if rs == [] then []
    else
      var rest := TemplatePaths(rs[1..]);
      assert forall r :: r in rs <==> r == rs[0] || r in rs[1..];
      (if rs[0].typ.Template? then [rs[0].typ.path] else []) + rest
  }

  /**
   * The graph holding `rs`, with one import per distinct template path, in
   * the order the paths are first used.
   */
  function BuildDeployment(rs: seq<Resource>): (d: Deployment)
    ensures d.resources == rs
  {
    var paths := Dedup(TemplatePaths(rs));
    Deployment(seq(|paths|, i requires 0 <= i < |paths| => Import(paths[i])), rs)
  }

  /** The graph's import list is exact: each template its resources use, once, and nothing else. */
  lemma BuildDeploymentSound(rs: seq<Resource>)
    ensures WellFormed(BuildDeployment(rs))
    ensures forall x :: Import(x) in BuildDeployment(rs).imports <==> exists r :: r in rs && r.typ == Template(x)
  {
    var paths := Dedup(TemplatePaths(rs));
    var imports := BuildDeployment(rs).imports;
    assert ImportPaths(imports) == paths;
    assert forall x :: Import(x) in imports <==> x in paths;
  }

  /** Resources that all use one template, and at least once, import exactly that template. */
  lemma SingleTemplateImports(rs: seq<Resource>, x: string)
    requires exists r :: r in rs && r.typ == Template(x)
    requires forall r :: r in rs && r.typ.Template? ==> r.typ.path == x
    ensures BuildDeployment(rs).imports == [Import(x)]
  {
    DedupOfCopies(TemplatePaths(rs), x);
    assert Dedup(TemplatePaths(rs)) == [x];
  }
}
