/**
 * The workspace context of pkg/manifest/context.go: the bundles installed
 * and the configuration of every installed repository, and the envelope it
 * is written in. Reading and writing YAML files is not modelled.
 */
module Manifest {
  import opened Values
  import opened Wrappers

  /** An installed bundle, identified by its repository and its name. */
  datatype Bundle = Bundle(repository: string, name: string)

  /** The configuration of each repository, keyed by the repository's name. */
  type Configuration = map<string, map<string, Value>>

  /** An installation as BuildContext reads it: its repository's name and its context. */
  datatype Installation = Installation(repository: string, context: map<string, Value>)

  /** The cloud providers a manifest can name. */
  datatype ProviderName = GCP | AWS | AZURE

  /** The project manifest the providers are built from (the file defining it is not part of this model). */
  datatype Manifest = Manifest(
    cluster: string,
    project: string,
    bucket: string,
    provider: ProviderName,
    region: string,
    context: map<string, Value>)

  const ApiVersion: string := "plural.sh/v1alpha1"
  const Kind: string := "Context"

  /** The document a context is written as. */
  datatype VersionedContext = VersionedContext(apiVersion: string, kind: string, spec: Context)

  /** No (repository, name) pair occurs twice. */
  predicate Distinct(bundles: seq<Bundle>)
  {
    forall i, j :: 0 <= i < j < |bundles| ==> bundles[i] != bundles[j]
  }

  /**
   * The bundle list after adding `b`: the pair is present afterwards, the
   * earlier bundles keep their places, a new pair is the one element added
   * at the end, adding a present pair changes nothing, and a list without
   * duplicates stays so.
   */
  function WithBundle(bundles: seq<Bundle>, b: Bundle): (r: seq<Bundle>)
    ensures b in r
    ensures |bundles| <= |r| && r[..|bundles|] == bundles
    ensures |r| == if b in bundles then |bundles| else |bundles| + 1
    ensures b !in bundles ==> r[|bundles|] == b
    ensures Distinct(bundles) ==> Distinct(r)
  {
    if b in bundles then bundles else bundles + [b]
  }

  /** Adding the same bundle twice is adding it once. */
  lemma WithBundleIdempotent(bundles: seq<Bundle>, b: Bundle)
    ensures WithBundle(WithBundle(bundles, b), b) == WithBundle(bundles, b)
  {
  }

  /** The repositories named by the installations. */
  function Repositories(insts: seq<Installation>): set<string>
  {
    set i | 0 <= i < |insts| :: insts[i].repository
  }

  /** No installation after the i-th names the same repository. */
  predicate LastFor(insts: seq<Installation>, i: int)
    requires 0 <= i < |insts|
  {
    forall j :: i < j < |insts| ==> insts[j].repository != insts[i].repository
  }

  /**
   * The map BuildContext fills: keyed by exactly the installations'
   * repository names, each holding the context of the last installation of
   * that repository.
   */
  method BuildConfiguration(insts: seq<Installation>) returns (conf: Configuration)
    ensures conf.Keys == Repositories(insts)
    ensures forall i :: 0 <= i < |insts| && LastFor(insts, i) ==> conf[insts[i].repository] == insts[i].context
  {
    conf := map[];
    for n := 0 to |insts|
      invariant conf.Keys == Repositories(insts[..n])
      invariant forall i :: 0 <= i < n && (forall j :: i < j < n ==> insts[j].repository != insts[i].repository) ==>
                  conf[insts[i].repository] == insts[i].context
    {
      assert Repositories(insts[..n + 1]) == Repositories(insts[..n]) + {insts[n].repository} by {
        assert forall i :: 0 <= i < n ==> insts[..n + 1][i] == insts[..n][i];
      }
      conf := conf[insts[n].repository := insts[n].context];
    }
    assert insts[..|insts|] == insts;
  }

  /**
   * BuildContext: a context with no bundles and the configuration built from
   * the installations, wrapped in its envelope; `writeErr` is the outcome of
   * writing the file, which is the result.
   */
  method BuildContext(insts: seq<Installation>, writeErr: Option<Error>)
    returns (doc: VersionedContext, err: Option<Error>)
    ensures doc.apiVersion == ApiVersion && doc.kind == Kind
    ensures doc.spec.bundles == []
    ensures doc.spec.configuration.Keys == Repositories(insts)
    ensures forall i :: 0 <= i < |insts| && LastFor(insts, i) ==> doc.spec.configuration[insts[i].repository] == insts[i].context
    ensures err == writeErr
  {
    var conf := BuildConfiguration(insts);
    var ctx := new Context.WithConfiguration(conf);
    doc := ctx.Versioned();
    err := writeErr;
  }

  class Context {
    var bundles: seq<Bundle>
    var configuration: Configuration

    /** NewContext: no bundles and an empty configuration. */
    constructor ()
      ensures bundles == [] && configuration == map[]
    {
      bundles := [];
      configuration := map[];
    }

    /** A context holding only a configuration, as BuildContext makes one. */
    constructor WithConfiguration(configuration: Configuration)
      ensures bundles == [] && this.configuration == configuration
    {
      bundles := [];
      this.configuration := configuration;
    }

    /**
     * Repo: found exactly when `name` is a configured repository, and then
     * its configuration; otherwise Go's nil map, here the empty one.
     */
    function Repo(name: string): (r: (map<string, Value>, bool))
      reads this
      ensures r.1 <==> name in configuration
      ensures r.1 ==> r.0 == configuration[name]
      ensures !r.1 ==> r.0 == map[]
    {
      if name in configuration then (configuration[name], true) else (map[], false)
    }

    /** The envelope Write marshals: fixed apiVersion and kind, this context as spec. */
    function Versioned(): (v: VersionedContext)
      ensures v.apiVersion == "plural.sh/v1alpha1" && v.kind == "Context" && v.spec == this
    {
      VersionedContext(ApiVersion, Kind, this)
    }

    /** AddBundle: scan for the pair and append it only when absent. */
    method AddBundle(repo: string, name: string)
      modifies this
      ensures bundles == WithBundle(old(bundles), Bundle(repo, name))
      ensures configuration == old(configuration)
    {
      for i := 0 to |bundles|
        invariant forall k :: 0 <= k < i ==> bundles[k] != Bundle(repo, name)
      {
        if bundles[i].name == name && bundles[i].repository == repo {
          return;
        }
      }
      bundles := bundles + [Bundle(repo, name)];
    }
  }
}
