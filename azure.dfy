/**
 * The Azure provider of pkg/provider/azure.go: how it is built from a
 * manifest, its accessors, the order of the storage calls that provision
 * the state bucket, and the values CreateBackend writes into the caller's
 * template context. The storage service answers through an oracle and every
 * call made to it is logged.
 */
module Azure {
  import opened Wrappers
  import opened Values
  import Manifest

  datatype AzureProvider = AzureProvider(
    cluster: string,
    resourceGroup: string,
    bucket: string,
    region: string,
    ctx: map<string, Value>)
  {
    function Name(): Manifest.ProviderName { Manifest.AZURE }
    function Cluster(): string { cluster }
    function Project(): string { resourceGroup }
    function Bucket(): string { bucket }
    function Region(): string { region }
    function Context(): map<string, Value> { ctx }
  }

  /** azureFromManifest: cluster, project (as resource group), bucket, region and context, field for field. */
  function FromManifest(man: Manifest.Manifest): (p: AzureProvider)
    ensures p.cluster == man.cluster && p.resourceGroup == man.project && p.bucket == man.bucket
    ensures p.region == man.region && p.ctx == man.context
  {
    AzureProvider(man.cluster, man.project, man.bucket, man.region, man.context)
  }

  /** The accessors give back what the manifest held; the name is AZURE whatever the manifest says. */
  lemma AccessorsAfterFromManifest(man: Manifest.Manifest)
    ensures var p := FromManifest(man);
            && p.Name() == Manifest.AZURE && p.Cluster() == man.cluster && p.Project() == man.project
            && p.Bucket() == man.bucket && p.Region() == man.region && p.Context() == man.context
  {
  }

  /** A storage account, known by its name. */
  datatype Account = Account(name: string)

  /** The calls made to the storage service, in order. */
  datatype Call =
    | GetProperties(resourceGroup: string, account: string)
    | CreateAccount(resourceGroup: string, account: string, location: string)
    | AwaitCreation(account: string)
    | FetchCreated(account: string)
    | ListKeys(resourceGroup: string, account: string)
    | CreateContainer(account: string, container: string)

  /**
   * The storage service's answers: to the account lookup, to starting the
   * account creation, to waiting for it, to fetching the created account,
   * to listing the account's keys and to creating a container.
   */
  datatype Storage = Storage(
    getProperties: (string, string) -> Result<Account>,
    create: (string, string, string) -> Option<Error>,
    await: string -> Option<Error>,
    fetch: string -> Result<Account>,
    listKeys: (string, string) -> Option<Error>,
    createContainer: (string, string) -> Option<Error>)

  /** `utils.ToString` of the context's StorageAccount entry: its text when it is a string, otherwise empty. */
  function StorageAccountName(ctx: map<string, Value>): string
  {
    if "StorageAccount" in ctx && ctx["StorageAccount"].Str? then ctx["StorageAccount"].s else ""
  }

  /** What an upsert or creation returned, with the calls it made. */
  datatype Outcome<T> = Outcome(result: T, calls: seq<Call>)

  /**
   * upsertStorageAccount: look the account up; when that fails, create it
   * in the provider's region, wait for the creation and fetch the result,
   * stopping at the first error.
   */
  function UpsertAccount(az: AzureProvider, st: Storage, account: string): Outcome<Result<Account>>
  {
    var lookup := st.getProperties(az.resourceGroup, account);
    var looked := [GetProperties(az.resourceGroup, account)];
    if lookup.Success? then Outcome(lookup, looked)
    else
      var created := looked + [CreateAccount(az.resourceGroup, account, az.region)];
      var start := st.create(az.resourceGroup, account, az.region);
      if start.Some? then Outcome(Failure(start.value), created)
      else
        var waited := created + [AwaitCreation(account)];
        var done := st.await(account);
        if done.Some? then Outcome(Failure(done.value), waited)
        else Outcome(st.fetch(account), waited + [FetchCreated(account)])
  }

  /** upsertStorageContainer: list the account's keys, then create the container, stopping at the first error. */
  function UpsertContainer(az: AzureProvider, st: Storage, acc: Account, name: string): Outcome<Option<Error>>
  {
    var keys := st.listKeys(az.resourceGroup, acc.name);
    if keys.Some? then Outcome(keys, [ListKeys(az.resourceGroup, acc.name)])
    else Outcome(st.createContainer(acc.name, name), [ListKeys(az.resourceGroup, acc.name), CreateContainer(acc.name, name)])
  }

  /** CreateBucket: upsert the context's storage account, then, only if that worked, the container. */
  function CreateBucketOutcome(az: AzureProvider, st: Storage, bucket: string): Outcome<Option<Error>>
  {
    var acc := UpsertAccount(az, st, StorageAccountName(az.ctx));
    match acc.result
    case Failure(e) => Outcome(Some(e), acc.calls)
    case Success(a) =>
      var container := UpsertContainer(az, st, a, bucket);
      Outcome(container.result, acc.calls + container.calls)
  }

  /**
   * Lookup before create: the lookup is always the first call; a found
   * account is returned with no other call; a creation is attempted only
   * when the lookup failed.
   */
  lemma UpsertLooksUpFirst(az: AzureProvider, st: Storage, account: string)
    ensures var o := UpsertAccount(az, st, account);
            var lookup := st.getProperties(az.resourceGroup, account);
            && |o.calls| >= 1 && o.calls[0] == GetProperties(az.resourceGroup, account)
            && (lookup.Success? ==> o == Outcome(lookup, [GetProperties(az.resourceGroup, account)]))
            && (CreateAccount(az.resourceGroup, account, az.region) in o.calls <==> lookup.Failure?)
  {
  }

  /**
   * Keys before container: listing the account's keys is always the first
   * call; the container is created exactly when the listing worked, and a
   * listing error is what the upsert returns.
   */
  lemma UpsertContainerListsKeysFirst(az: AzureProvider, st: Storage, acc: Account, name: string)
    ensures var o := UpsertContainer(az, st, acc, name);
            var keys := st.listKeys(az.resourceGroup, acc.name);
            && |o.calls| >= 1 && o.calls[0] == ListKeys(az.resourceGroup, acc.name)
            && (CreateContainer(acc.name, name) in o.calls <==> keys.None?)
            && (keys.Some? ==> o.result == keys)
            && (keys.None? ==> o.result == st.createContainer(acc.name, name))
  {
  }

  /**
   * Fail fast: the container is touched only after the account upsert
   * succeeded, and the result is the first error met.
   */
  lemma CreateBucketIsFailFast(az: AzureProvider, st: Storage, bucket: string)
    ensures var o := CreateBucketOutcome(az, st, bucket);
            var acc := UpsertAccount(az, st, StorageAccountName(az.ctx));
            && ((exists c :: c in o.calls && (c.ListKeys? || c.CreateContainer?)) ==> acc.result.Success?)
            && (acc.result.Failure? ==> o.result == Some(acc.result.error))
            && (acc.result.Success? ==> o.result == UpsertContainer(az, st, acc.result.value, bucket).result)
  {
    var acc := UpsertAccount(az, st, StorageAccountName(az.ctx));
    assert forall c :: c in acc.calls ==> !c.ListKeys? && !c.CreateContainer?;
  }

  method UpsertStorageAccount(az: AzureProvider, st: Storage, account: string)
    returns (acc: Result<Account>, ghost calls: seq<Call>)
    ensures acc == UpsertAccount(az, st, account).result
    ensures Outcome(acc, calls) == UpsertAccount(az, st, account)
  {
    calls := [GetProperties(az.resourceGroup, account)];
    acc := st.getProperties(az.resourceGroup, account);
    if acc.Success? {
      return;
    }
    calls := calls + [CreateAccount(az.resourceGroup, account, az.region)];
    var err := st.create(az.resourceGroup, account, az.region);
    if err.Some? {
      return Failure(err.value), calls;
    }
    calls := calls + [AwaitCreation(account)];
    err := st.await(account);
    if err.Some? {
      return Failure(err.value), calls;
    }
    calls := calls + [FetchCreated(account)];
    acc := st.fetch(account);
  }

  method UpsertStorageContainer(az: AzureProvider, st: Storage, acc: Account, name: string)
    returns (err: Option<Error>, ghost calls: seq<Call>)
    ensures err == UpsertContainer(az, st, acc, name).result
    ensures Outcome(err, calls) == UpsertContainer(az, st, acc, name)
  {
    calls := [ListKeys(az.resourceGroup, acc.name)];
    err := st.listKeys(az.resourceGroup, acc.name);
    if err.Some? {
      return;
    }
    calls := calls + [CreateContainer(acc.name, name)];
    err := st.createContainer(acc.name, name);
  }

  method CreateBucket(az: AzureProvider, st: Storage, bucket: string)
    returns (err: Option<Error>, ghost calls: seq<Call>)
    ensures err == CreateBucketOutcome(az, st, bucket).result
    ensures Outcome(err, calls) == CreateBucketOutcome(az, st, bucket)
  {
    var acc;
    acc, calls := UpsertStorageAccount(az, st, StorageAccountName(az.Context()));
    if acc.Failure? {
      return Some(acc.error), calls;
    }
    ghost var more: seq<Call>;
    err, more := UpsertStorageContainer(az, st, acc.value, bucket);
    calls := calls + more;
  }

  /** The keys CreateBackend always writes. */
  const BackendKeys: set<string> := {"Region", "Bucket", "Prefix", "Project", "__CLUSTER__"}

  /**
   * The context after CreateBackend: the provider's region, bucket,
   * resource group and cluster and the prefix under their keys; `Cluster`
   * keeps an existing value and is the quoted cluster name only when absent;
   * every other key keeps its value.
   */
  function BackendValues(az: AzureProvider, prefix: string, m: map<string, Value>): (r: map<string, Value>)
    ensures r.Keys == m.Keys + BackendKeys + {"Cluster"}
    ensures r["Region"] == Str(az.region) && r["Bucket"] == Str(az.bucket) && r["Prefix"] == Str(prefix)
    ensures r["Project"] == Str(az.resourceGroup) && r["__CLUSTER__"] == Str(az.cluster)
    ensures "Cluster" in m ==> r["Cluster"] == m["Cluster"]
    ensures "Cluster" !in m ==> r["Cluster"] == Str(Quote(az.cluster))
    ensures forall k :: k in m && k !in BackendKeys ==> r[k] == m[k]
  {
    var set1 := m["Region" := Str(az.region)]["Bucket" := Str(az.bucket)]["Prefix" := Str(prefix)]
                 ["Project" := Str(az.resourceGroup)]["__CLUSTER__" := Str(az.cluster)];
    if "Cluster" in m then set1 else set1["Cluster" := Str(Quote(az.cluster))]
  }

  /** Running CreateBackend twice on one context leaves it as one run does: the first run's Cluster is kept. */
  lemma BackendValuesIdempotent(az: AzureProvider, prefix: string, m: map<string, Value>)
    ensures BackendValues(az, prefix, BackendValues(az, prefix, m)) == BackendValues(az, prefix, m)
  {
    var once := BackendValues(az, prefix, m);
    var twice := BackendValues(az, prefix, once);
    forall k | k in twice
      ensures k in once && twice[k] == once[k]
    {
    }
  }

  /**
   * CreateBackend: when CreateBucket fails, ("", its error) and the context
   * untouched; otherwise the context updated in place as BackendValues says
   * and the rendering of the backend template over it.
   */
  method CreateBackend(az: AzureProvider, prefix: string, ctx: Dict, st: Storage,
                       render: map<string, Value> -> (string, Option<Error>))
    returns (backend: string, err: Option<Error>, ghost calls: seq<Call>)
    modifies ctx
    ensures calls == CreateBucketOutcome(az, st, az.bucket).calls
    ensures var bucketErr := CreateBucketOutcome(az, st, az.bucket).result;
            && (bucketErr.Some? ==> backend == "" && err == bucketErr && ctx.entries == old(ctx.entries))
            && (bucketErr.None? ==> ctx.entries == BackendValues(az, prefix, old(ctx.entries)) && (backend, err) == render(ctx.entries))
  {
    var bucketErr;
    bucketErr, calls := CreateBucket(az, st, az.bucket);
    if bucketErr.Some? {
      return "", bucketErr, calls;
    }
    ctx.entries := ctx.entries["Region" := Str(az.Region())];
    ctx.entries := ctx.entries["Bucket" := Str(az.Bucket())];
    ctx.entries := ctx.entries["Prefix" := Str(prefix)];
    ctx.entries := ctx.entries["Project" := Str(az.Project())];
    ctx.entries := ctx.entries["__CLUSTER__" := Str(az.Cluster())];
    if "Cluster" !in ctx.entries {
      ctx.entries := ctx.entries["Cluster" := Str(Quote(az.Cluster()))];
    }
    var rendered := render(ctx.entries);
    backend, err := rendered.0, rendered.1;
  }
}
