# plural-cli teardown and provider core, modelled in Dafny

This project models the decision logic of the `plural` deployment CLI. That is the part that decides which external commands run, in what order, and what a failure means. The model has five parts:

- **Output capture** (`output.dfy`, module `Executor`). `OutputWriter` either passes every chunk through to its delegate, or captures each chunk as a line and writes one `.` progress marker to the delegate instead. `Format` joins the captured lines. It is a class holding the captured lines; the delegate is a `Destination` object whose answers are fixed in advance and which logs every write it receives.
- **Retry loop and teardown** (`actions.dfy`, module `Wkspace`, plus `suppression.dfy`, module `Suppression`). `execSuppressed` makes at most three attempts at a command. It stops at the first attempt that succeeds or whose captured output the checker accepts, and prints the remaining retry count after every attempt that does not stop it. `Destroy` runs the helm teardown, the terraform teardown and the local reset in that order, and stops at the first error. The checker `release.*not found` is modelled exactly: a compiled scanner is proved equal to the meaning of the regular expression under RE2's rule that `.` does not match a newline.
- **Workspace context** (`context.dfy`, module `Manifest`). `AddBundle` appends a bundle only if it is not already there. `BuildContext` fills the configuration map, and a later installation of the same repository wins. `Repo` looks a repository up. `Write` wraps the context in a `plural.sh/v1alpha1` / `Context` envelope.
- **GCP provider** (`gcp.dfy`, module `Gcp`). `getZone`, `getRegion`, the region default of `gcpFromManifest`, the architecture mapping and download address of `Install`, and the values `CreateBackend` writes into the caller's context map.
- **Azure provider** (`azure.dfy`, module `Azure`). `azureFromManifest` and the accessors. The order of storage calls in `CreateBucket`, `upsertStorageAccount` and `upsertStorageContainer`. The values `CreateBackend` writes, including the rule that `Cluster` is only written when absent.

How the outside world is represented:

- Running a process is an oracle, `run(cmd, k)`: the error and captured output of the k-th attempt at `cmd`.
- The answers of git, the file system, the cloud storage services, bucket creation and template rendering are parameters.
- Go's `map[string]interface{}`, which callees update in place, is the class `Values.Dict`.
- The commands issued, the retry counts printed and the calls made to the storage service are returned in ghost logs.

Two behaviours of the retry loop are worth stating plainly, because a reader of the names might expect otherwise:

- When the checker accepts a failed attempt's output, the loop stops, but that attempt's error is still returned (pkg/wkspace/actions.go:26-33). So when `helm del` reports the release already gone, the `ignoreNotFound` checker stops the retries, yet `DestroyHelm` returns the error and `Destroy` stops before terraform (`Wkspace.DeleteRaceStillFails`).
- The remaining-retries count is printed after every attempt that does not stop the loop, the third and last one included, so three failures print 2, 1 and 0 (`Wkspace.AllAttemptsRejected`).

## Model

| member | source | states |
|---|---|---|
| `Executor.OutputWriter.constructor` | pkg/executor/output.go:8-12 | a new writer has captured nothing, so `Format()` is empty |
| `Executor.OutputWriter.Write` | pkg/executor/output.go:14-25 | pass-through: the chunk goes unchanged to the delegate, whose reply is returned, and no line is captured; capture: the chunk becomes the new last line, earlier lines are unchanged, `Format()` grows by exactly the chunk, the delegate receives exactly one `.` and never the chunk; the result is `(len(line), nil)`, or `(0, err)` when the marker write failed, with the chunk still captured |
| `Executor.OutputWriter.Close` | pkg/executor/output.go:27-29 | only the delegate is closed; its close result is returned and the captured lines are unchanged |
| `Executor.JoinAppend` | pkg/executor/output.go:31-33 | joining the lines with one more line appended is the old joined text followed by that line |
| `Executor.JoinConcat` | pkg/executor/output.go:31-33 | joining two runs of captured lines concatenates their joined texts, so `Format` after N captures is the N chunks in order |
| `Suppression.ScanCorrect` | pkg/wkspace/actions.go:47-48 | the one-pass scanner from any position decides exactly whether a "release" followed later on the same line by "not found" occurs from there, or, when armed, whether a "not found" comes before the next newline |
| `Suppression.MatchesReleaseNotFoundCorrect` | pkg/wkspace/actions.go:47-48 | the scanner `Suppression.MatchesReleaseNotFound` accepts a text iff some line of it contains "release" and, later on that line, "not found" (RE2 search for `release.*not found`) |
| `Wkspace.IgnoreNotFound` | pkg/wkspace/actions.go:47-48 | the `ignoreNotFound` checker accepts an output iff "release" is followed later on the same line by "not found" |
| `Suppression.NewlineBreaksMatch` | pkg/wkspace/actions.go:47 | a newline between "release" and "not found" defeats the pattern |
| `Suppression.ReleaseThenNotFound` | pkg/wkspace/actions.go:47-48 | any output holding "release" and, later with no newline between, "not found" is accepted |
| `Suppression.HelmNotFoundMessageMatches` | pkg/wkspace/actions.go:47-48 | helm's `release: "foo" not found` message is accepted by the checker |
| `Wkspace.Retried` | pkg/wkspace/actions.go:23-31 | from a retry counter of n, the loop makes between 1 and n + 1 attempts and prints at most one count per attempt |
| `Wkspace.RetriedMeaning` | pkg/wkspace/actions.go:22-34 | every attempt but the last failed and was rejected; the last one stopped the loop unless the counter ran out; its error is returned; the printed counts are n, n-1, ... with one count per attempt that did not stop the loop |
| `Wkspace.StopsAt` | pkg/wkspace/actions.go:26-28 | if the k-th attempt is the first that succeeds or is accepted, exactly k + 1 attempts are made, its error is returned and the counts 2, ..., 2-k+1 are printed |
| `Wkspace.FirstAttemptSucceeds` | pkg/wkspace/actions.go:26-28 | a first attempt that succeeds means one attempt, no error and nothing printed |
| `Wkspace.AcceptedFailureKeepsError` | pkg/wkspace/actions.go:27-33 | an accepted failing attempt ends the loop at once, but its non-nil error is what `execSuppressed` returns |
| `Wkspace.AllAttemptsRejected` | pkg/wkspace/actions.go:23-33 | three failed, rejected attempts: exactly three attempts, counts 2, 1, 0 printed in that order, and the third attempt's error returned |
| `Wkspace.ExecSucceedsIffLastSucceeds` | pkg/wkspace/actions.go:26-33 | `execSuppressed` returns nil iff its last attempt succeeded |
| `Wkspace.AlwaysErrSucceedsIff` | pkg/wkspace/actions.go:19-33 | with `alwaysErr` (`Wkspace.AlwaysErr`, which accepts no output) only success ends the loop early: nil is returned iff one of the three attempts succeeded |
| `Wkspace.ExecMeaning` | pkg/wkspace/actions.go:22-34 | the whole loop makes 1 to 3 attempts; every attempt before the last failed and was rejected; fewer than 3 attempts means the last one succeeded or was accepted; the last attempt's error is returned |
| `Wkspace.ExecSuppressed` | pkg/wkspace/actions.go:22-34 | the loop makes exactly the attempts (all at the same command), returns exactly the error and prints exactly the counts that `Exec` (`Retried` from counter 2) describes; what those are is stated by `ExecMeaning`, `RetriedMeaning` and the lemmas above |
| `Wkspace.HelmEventsAreHelms` | pkg/wkspace/actions.go:36-50 | the helm step issues no terraform command, schedules no finalizer, changes no directory and removes no file |
| `Wkspace.HelmProbeFailureSkipsDelete` | pkg/wkspace/actions.go:42-45 | a failed `helm get values` probe makes the step return nil without issuing `helm del` |
| `Wkspace.HelmProbeSuccessDeletes` | pkg/wkspace/actions.go:42-49 | after a successful probe `helm del <name> -n <ns>` is issued and its result is the step's result |
| `Wkspace.HelmAlreadyUninstalled` | pkg/wkspace/actions.go:42-45 | when every probe attempt fails, the step is: kubeconfig refresh, three probe attempts, nil result |
| `Wkspace.DeleteRaceStillFails` | pkg/wkspace/actions.go:47-49 | if `helm del` fails with helm's not-found message, there is a single delete attempt, but its error is returned and `Destroy` stops there |
| `Wkspace.DestroyOnlyAfterInit` | pkg/wkspace/actions.go:102-107 | `terraform destroy -auto-approve` is issued only if the terraform directory resolved and `terraform init -upgrade` returned nil |
| `Wkspace.ResetFailsOnlyWithoutRoot` | pkg/wkspace/actions.go:72-82 | `Reset` returns nil iff the repository root is found, whatever the removal does; otherwise it returns git's error |
| `Wkspace.TeardownIsFailFast` | pkg/wkspace/actions.go:60-70 | of `Wkspace.Teardown`: terraform runs only if helm returned nil, and the reset only if both did; the first step error is the one returned, and `Destroy` returns nil iff all three steps do |
| `Wkspace.DestroyExhaustsRetries` | pkg/wkspace/actions.go:60-70 | a terraform destroy that fails three times makes `Destroy` return the third error after exactly three destroy attempts, and no file is removed |
| `Wkspace.DestroyHelm` | pkg/wkspace/actions.go:36-50 | the returned error and the events are those of `Wkspace.HelmTeardown`: a kube config refresh (its result discarded), the `helm get values` probe with `alwaysErr`, nil without a delete when the probe fails, otherwise `helm del` with `ignoreNotFound` and its error |
| `Wkspace.DestroyTerraform` | pkg/wkspace/actions.go:84-108 | the returned error and the events are those of `Wkspace.TerraformTeardown`: the path error when the directory does not resolve; otherwise schedule the finalizer, chdir (its result discarded), `terraform init -upgrade`, and only if that returned nil `terraform destroy -auto-approve`, whose error is returned |
| `Wkspace.Reset` | pkg/wkspace/actions.go:72-82 | the returned error and the events are those of `Wkspace.ResetWorkspace`: git's error when the root is unknown; otherwise remove `<root>/<repository>/deploy.hcl` (its result discarded) and return nil |
| `Wkspace.Destroy` | pkg/wkspace/actions.go:60-70 | the returned error and the events are those of `Wkspace.Teardown`, the fail-fast composition of the three steps proved in `TeardownIsFailFast` |
| `Manifest.Context.constructor` | pkg/manifest/context.go:56-61 | `NewContext` has no bundles and an empty configuration |
| `Manifest.Context.WithConfiguration` | pkg/manifest/context.go:33-35 | the context BuildContext makes holds the given configuration and no bundles |
| `Manifest.Context.Repo` | pkg/manifest/context.go:63-66 | `ok` iff the name is a configured repository, and then that repository's map; otherwise an empty map |
| `Manifest.Context.Versioned` | pkg/manifest/context.go:78-83 | the envelope has apiVersion `plural.sh/v1alpha1`, kind `Context` and this context as spec |
| `Manifest.Context.AddBundle` | pkg/manifest/context.go:68-76 | the bundles become `WithBundle` of the old ones, and the configuration is unchanged |
| `Manifest.WithBundle` | pkg/manifest/context.go:68-76 | the pair is present afterwards; earlier bundles keep their places; a new pair is the single element added at the end; a present pair changes nothing; no duplicates before means no duplicates after |
| `Manifest.WithBundleIdempotent` | pkg/manifest/context.go:69-73 | adding the same bundle twice is the same as adding it once |
| `Manifest.BuildConfiguration` | pkg/manifest/context.go:32-39 | the keys are exactly the installations' repository names, and each maps to the context of the last installation of that repository |
| `Manifest.BuildContext` | pkg/manifest/context.go:32-42 | the document written is the envelope of a bundle-less context with that configuration, and the write's result is returned |
| `Gcp.Split` | pkg/provider/gcp.go:183 | `strings.Split` gives at least one piece and no piece contains the separator |
| `Gcp.SplitJoin` | pkg/provider/gcp.go:182-185 | splitting the join of separator-free pieces gives the pieces back |
| `Gcp.JoinSplit` | pkg/provider/gcp.go:182-185 | joining the pieces of a split gives the text back |
| `Gcp.GetZone` | pkg/provider/gcp.go:182-185 | for a region with at least two dash-separated components, the zone's components are exactly the region's first two |
| `Gcp.GetZoneIdempotent` | pkg/provider/gcp.go:182-185 | a zone has exactly two components and is its own zone |
| `Gcp.GetZoneIsPrefix` | pkg/provider/gcp.go:182-185 | the zone is a prefix of the region, followed in the region by a dash when shorter |
| `Gcp.ZoneOfThree` | pkg/provider/gcp.go:182-185 | a region of three dash-free components joined by dashes has the first two, joined by a dash, as its zone |
| `Gcp.DefaultRegionZone` | pkg/provider/gcp.go:120-123 | the default region `us-east1-b` is valid for getZone, and its zone is `us-east1` |
| `Gcp.GetRegion` | pkg/provider/gcp.go:171-180 | `us-east1-b` when the gcloud command fails; otherwise the text between the output's first newline and the next newline (or the end) |
| `Gcp.FromManifest` | pkg/provider/gcp.go:114-126 | a storage-client error is returned; otherwise cluster, project and bucket are copied and the region is the manifest's, or `us-east1-b` when that is empty, so it is never empty |
| `Gcp.GcloudArch` | pkg/provider/gcp.go:193-201 | amd64 becomes x86_64, arm64 becomes arm, and any other architecture is kept |
| `Gcp.Install` | pkg/provider/gcp.go:187-223 | nothing is fetched and nil is returned when gcloud exists; otherwise the installer gets the download address built with the mapped architecture and the platform's install script (`Gcp.InstallScript`: install.bat on windows, install.sh elsewhere), and its result is returned |
| `Gcp.BackendValues` | pkg/provider/gcp.go:148-159 | Project, Location, Bucket, Prefix and `__CLUSTER__` are set from the provider and the prefix; with a lowercase `cluster` key, Cluster is its value and ClusterCreated is true; otherwise Cluster is the quoted cluster name and ClusterCreated is false; every other key is unchanged |
| `Gcp.BackendValuesIdempotent` | pkg/provider/gcp.go:148-159 | applying the updates twice leaves the context as applying them once |
| `Gcp.CreateBackend` | pkg/provider/gcp.go:143-161 | a bucket error returns ("", err) with the context untouched; otherwise the context becomes `BackendValues` of the old one and the template rendered over it is returned |
| `Azure.FromManifest` | pkg/provider/azure.go:101-103 | Cluster, Project, Bucket, Region and Context map to cluster, resourceGroup, bucket, region and ctx |
| `Azure.AccessorsAfterFromManifest` | pkg/provider/azure.go:157-179 | the accessors give back the manifest's fields; Project() is the resource group; Name() is AZURE |
| `Azure.UpsertLooksUpFirst` | pkg/provider/azure.go:201-231 | the lookup is always the first call; a found account is returned with no other call; creation is attempted iff the lookup failed |
| `Azure.UpsertStorageAccount` | pkg/provider/azure.go:201-231 | the account and calls are those of `Azure.UpsertAccount`: lookup, then create in the provider's region, wait and fetch, each only if the previous call did not fail, the first error returned |
| `Azure.UpsertStorageContainer` | pkg/provider/azure.go:233-252 | the error and calls are those of `Azure.UpsertContainer`, whose order is proved in `UpsertContainerListsKeysFirst` |
| `Azure.UpsertContainerListsKeysFirst` | pkg/provider/azure.go:233-252 | listing the keys is always the first call; the container is created iff the listing returned no error; a listing error is returned, otherwise the creation's result |
| `Azure.CreateBucketIsFailFast` | pkg/provider/azure.go:122-133 | the container is touched only after the account upsert succeeded, and the first error is returned |
| `Azure.CreateBucket` | pkg/provider/azure.go:122-133 | the error and calls are those of `Azure.CreateBucketOutcome`: upsert the account named by the context's `StorageAccount` entry (`Azure.StorageAccountName`), then the container, returning the first error |
| `Azure.BackendValues` | pkg/provider/azure.go:110-117 | Region, Bucket, Prefix, Project (the resource group) and `__CLUSTER__` are set; an existing Cluster is kept, and an absent one becomes the quoted cluster name; every other key is unchanged |
| `Azure.BackendValuesIdempotent` | pkg/provider/azure.go:110-117 | applying the updates twice leaves the context as applying them once |
| `Azure.CreateBackend` | pkg/provider/azure.go:105-120 | a CreateBucket error returns ("", err) with the context untouched; otherwise the context becomes `BackendValues` of the old one and the rendered template is returned |

## Left out

- Process execution (`executor.SuppressedCommand`, `executor.RunCommand`) is an oracle. An attempt's `output` stands for what its capturing `OutputWriter` would `Format()`. The model does not connect the two objects.
- Terminal output (`utils.Highlight`, the command announcement, "Helm already uninstalled", `fmt.Printf`) is not modelled. The only exception is the retry counts, which are a ghost log.
- The namespace finalizer started with `time.AfterFunc` is only recorded as a `ScheduleFinalizer` event. It is a detached task with a delay of one minute, and its run, its delay and its logged failure are not modelled.
- `git.Root` and `filepath.Abs` are oracles. The source discards the results of `KubeConfig`, `os.Chdir` and `os.Remove`, so the model records those calls only as events. `pathing.SanitizeFilepath` is not modelled, and the deploy file path is joined with `/`.
- `Bounce` and `HelmDiff` are not part of this model. They delegate to a minimal workspace that is defined elsewhere.
- Gcp.CreateBackend: `mkBucket` (the bucket lookup, then creation) is taken as a single given outcome, because the GCS client is a foreign library.
- `template.RenderString` and the backend templates are a given function of the context.
- Azure.UpsertStorageContainer: the key taken from the listed keys is not modelled. The source indexes the first key without a check. The account-creation parameters other than location (SKU and kind) are also not modelled.
- `utils.ToString` is not part of this model. `Azure.StorageAccountName` assumes that it gives a string value's text and an empty string for anything else.
- Go's `[]byte` to `string` conversion is modelled as one character per byte. There is no UTF-8 decoding.
- The provider name constants are defined in a file that is not part of this model. They are modelled as an enumeration without their string values.
- GCP `KubeConfig`, `mkGCP`, `mkAzure`, `getAzureAccount`, `Authorizer` and the Azure and GCS clients are interactive prompts, cloud SDK calls or JSON decoding of CLI output.
- YAML marshalling and file I/O in `ReadContext`, `ContextPath` and `Write` are not modelled. Only the envelope is.
- pkg/api/users.go, cmd/plural/proxy.go, pkg/format/csv.go, pkg/utils/errors/wrap.go and the interactive `Select` of pkg/provider/provider.go are GraphQL wiring, CLI and table printing, CSV and colour formatting. They fall outside this core.
- Gcp.GetZone and Gcp.GetRegion: the source panics on a region with one component and on gcloud output without a newline. The model makes both inputs preconditions instead of modelling the panic.
