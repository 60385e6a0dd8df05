# ippr resource patcher, modelled in Dafny

ippr is a small HTTP service that reports and changes the CPU and memory settings of one
Kubernetes Deployment. This project models its core, found in `handler.go` and `main.go`.

- **Resource merge** (`patchHandler`). The first container's resources are read. Nil
  `Requests`/`Limits` maps are replaced by empty ones. Each non-empty override field (`cpu`,
  `memory`) is parsed with `resource.ParseQuantity`. The parsed value is written into both the
  request and the limit for that key. The first field that does not parse ends the request
  with status 400, CPU before memory.
- **Patch document** (`patchHandler`). A strategic-merge-patch tree
  `spec.template.spec.containers[{name, resources}]` holding exactly one container.
- **The patch pipeline** (`patchHandler`). Read, merge, build, then one `Patch` call. The
  call is made only when every earlier step succeeded.
- **Restart count** (`restartsHandler`). A nested loop sums `RestartCount` over all container
  statuses of all listed pods, in an `int32` accumulator that wraps around.
- **Info projection** (`cpuInfoHandler`, `memInfoHandler`). The limit and request of the first
  container for one resource name, or an error when there are no containers.
- **Start-up decisions** (`main`, `initKubeClient`). Which namespace and pod name are
  targeted (default `ippr`), and whether the in-cluster configuration or the kubeconfig file is
  used.

Modules: `Results` (Option, Result), `Resources` (the Kubernetes values), `ResourceMerge`,
`PatchDocument`, `Restarts`, `Handlers`, `Startup`.

Modelling choices:

- `resource.Quantity` is an opaque type. `resource.ParseQuantity` is a function parameter
  `parse: string -> Option<Quantity>`, with `None` for a parse error.
- A Go nil map is `None`.
- The Kubernetes calls become inputs and outputs. The Deployment `Get` result is a
  `Result<Deployment, string>`. The pod `List` call is a function from the selector labels to
  a `Result`. The `Patch` call is recorded in the returned `calls` list, and its error is an
  input. The environment is a `map<string, string>`. `os.UserHomeDir` is a `Result` input.
- The merge in `patchHandler` mutates a local copy of the Deployment in place.
  `MergeResources` is a method that updates local map variables step by step. It is proved
  equal to the declarative `Merge`.
- With `{cpu: "500m"}` on `{requests: {memory: 256Mi}, limits: {memory: 512Mi}}`, only the
  cpu keys are written (handler.go:154-155). The memory limit stays 512Mi
  (`ResourceMerge.CpuOnMemoryOnlyExample`).
- The handlers read the Deployment named by a package-level `deployment` variable. `main.go`
  does not declare or set `deployment`; it resolves `podname`, which the handlers never read.
  The handlers therefore take the fetched Deployment as an input and do not model which name
  is read.
- The doc comment of `getKubernetesClient` (main.go:60-63) promises a fallback to the local
  kubeconfig when the in-cluster configuration fails. The code does not implement it: the error
  is returned (main.go:66-69), passed up by `initKubeClient` (main.go:27-30) and ends the
  process (main.go:80-82). `Startup.SelectClientConfig` follows the code.

## Model

| member | source | states |
|---|---|---|
| `ResourceMerge.Overrides` | handler.go:147-167 | A request fails exactly when a set field does not parse. The CPU error wins over the memory error. Otherwise the entries written are exactly the set fields' keys, each with its parsed value. |
| `ResourceMerge.Merge` | handler.go:139-167 | Fails exactly when `Overrides` fails, with the same error. On success both maps exist. Each key set is the old key set plus the addressed keys. An addressed key has the same parsed value in requests and limits. Every other key keeps its old value. |
| `ResourceMerge.MergeResources` | handler.go:139-167 | The step-by-step merge (nil maps made empty, each set field parsed and assigned to both maps, early return on a parse error) equals `Merge`. |
| `ResourceMerge.CpuOverrideSetsBoth` | handler.go:148-156 | After a set, parseable CPU field (and no bad memory field), the cpu request and the cpu limit both equal the parsed quantity. |
| `ResourceMerge.MemoryOverrideSetsBoth` | handler.go:159-167 | The same for the memory field and the memory key. |
| `ResourceMerge.UnaddressedKeyKept` | handler.go:147-167 | A key that no set field addresses is present afterwards exactly when it was before, with the same value, in both maps. |
| `ResourceMerge.KeysGrowByAtMostCpuAndMemory` | handler.go:140-167 | The merge removes no entry. The new key sets contain the old ones and add at most cpu and memory. |
| `ResourceMerge.EmptyOverrideIsNoOp` | handler.go:140-167 | An override with both fields "" succeeds. The resources stay as they were, except that nil maps become empty. |
| `ResourceMerge.MergeFillsNilMaps` | handler.go:140-145 | Starting from nil maps, a successful merge gives two maps whose keys are exactly the addressed ones. |
| `ResourceMerge.InvalidCpuIgnoresMemory` | handler.go:148-153 | An unparseable CPU field gives `InvalidCpu` whatever the memory field is, so the memory field is never examined. |
| `ResourceMerge.InvalidMemoryDiscardsCpu` | handler.go:159-164 | A valid or empty CPU field with an unparseable memory field gives `InvalidMemory`. The CPU already merged is discarded. |
| `ResourceMerge.CpuOnMemoryOnlyExample` | handler.go:147-167 | `{cpu: "500m"}` on `{requests: {memory: 256Mi}, limits: {memory: 512Mi}}` adds cpu to both maps. The memory request stays 256Mi and the memory limit stays 512Mi. |
| `PatchDocument.BuildPatch` | handler.go:169-183 | Each level holds only the next key: `spec`, then `template`, then `spec`, then `containers`. The path `spec.template.spec.containers` holds a one-element list with the container's entry. The Pod path `spec.containers` is absent. |
| `PatchDocument.BuildPatchRoundTrip` | handler.go:169-183 | Reading the containers back from the document gives exactly the one container it was built from, with its name and resources. |
| `Restarts.Wrap32` | handler.go:35-38 | The `int32` result is congruent to its argument modulo 2^32. It equals the argument when the argument is in `int32` range. |
| `Restarts.WrapAdd` | handler.go:38 | Wrapping after each `+=` gives the same result as wrapping the exact sum once. |
| `Restarts.CountRestarts` | handler.go:35-40 | The nested loop returns the exact total of all restart counts over all statuses of all pods, wrapped to `int32`. |
| `Restarts.StatusRestartsAppend` | handler.go:37-39 | The total over two concatenated status lists is the sum of their totals. |
| `Restarts.TotalRestartsAppend` | handler.go:36-40 | The total over two concatenated pod lists is the sum of their totals. |
| `Restarts.NoStatusesNoRestarts` | handler.go:35-40 | With no pods, or with pods that have no container statuses, the total is 0. |
| `Restarts.TotalRestartsNonNegative` | handler.go:36-40 | When no restart count is negative, the total is not negative. |
| `Restarts.StatusRestartsNonNegative` | handler.go:37-39 | The same for the statuses of one pod. |
| `Handlers.StatusCode` | handler.go:128-195 | An invalid override is answered with 400. Every other failure of the core is answered with 500. |
| `Handlers.Info` | handler.go:53-76 | A failed read gives `GetFailed`. No containers gives `NoContainers`. Otherwise the limit and the request are present exactly when the first container's map has the key, with that value. `memInfoHandler` (handler.go:82-104) is the same with the memory key. |
| `Handlers.WithFirstResources` | handler.go:139 | Only the first container's resources change. Its name, the Deployment name, the selector labels and every other container stay. |
| `Handlers.InfoReadsFirstContainerOnly` | handler.go:61-64 | The info result does not depend on the containers after the first. |
| `Handlers.CpuInfoAfterCpuOverride` | handler.go:61-69 | After a set, parseable CPU override on the first container, the CPU info reports the parsed quantity as both limit and request. |
| `Handlers.MemInfoAfterMemoryOverride` | handler.go:89-97 | The same for a memory override and the memory info. |
| `Handlers.HandlePatch` | handler.go:128-203 | A failed read, no containers or an invalid override ends with that failure, and no patch call is made. Otherwise exactly one strategic-merge patch call is made, for the Deployment's name in the namespace. It carries `BuildPatch` of the first container's name with the merged resources. The response is ok when the call succeeds and `PatchFailed` when it does not. |
| `Handlers.HandleRestarts` | handler.go:20-43 | A failed read gives `GetFailed`. A failed pod list gives `ListFailed`. Otherwise the handler reports the wrapped total of restart counts of the pods listed for the Deployment's selector labels. |
| `Startup.ResolveTarget` | main.go:84-90 | When both `NAMESPACE` and `POD_NAME` are set, both are used unchanged. When either is missing, both become `ippr`. Both results are never empty. |
| `Startup.KubeconfigPath` | main.go:52-57 | An empty home gives `.kube/config`. Any other home gives that home without its trailing separators, followed by `/.kube/config` (`/.kube/config` when the home is only separators). |
| `Startup.SelectClientConfig` | main.go:23-47 | The in-cluster configuration is chosen exactly when `KUBERNETES_SERVICE_HOST` is set. Otherwise the kubeconfig in the home directory is chosen. When the home directory is unavailable, the result is `HomeDirUnavailable`. |
| `Startup.InClusterIgnoresHome` | main.go:24-36 | Inside the cluster, the home directory has no effect on the result. |

## Left out

- HTTP plumbing is not modelled. This covers the POST method check (handler.go:114-117), JSON decoding of the body (handler.go:119-123; fields the body omits decode to ""), JSON encoding of responses, headers, logging and `homeHandler` template rendering (handler.go:206-214). Outcomes are modelled as `Result` values with `StatusCode`.
- The `json.Marshal` error path (handler.go:185-189) is not modelled. The document is modelled as a value tree (`PatchDocument.Json`). Its encoding and the `omitempty` handling of empty maps are not modelled.
- middleware.go is not part of this model. It only wraps the response writer, measures wall-clock time and logs.
- The Kubernetes client calls (`Get`, `List`, `Patch`), `context.TODO()` and client bootstrap (`rest.InClusterConfig`, `clientcmd.BuildConfigFromFlags`, `kubernetes.NewForConfig`) are foreign network calls. They are inputs and outputs of the model.
- Startup.SelectClientConfig: returns the branch chosen, not a client, and does not model the errors of the bootstrap calls.
- Library internals are not modelled: the `resource.ParseQuantity` grammar, `Quantity.String()` formatting, `labels.Set(...).String()` (the selector is passed as its label map), and `os.UserHomeDir`.
- Handlers.Info: reports an absent key as `None`, where the library prints the zero quantity "0".
- Startup.KubeconfigPath: models `filepath.Clean` only for an empty home and for trailing separators. It does not model `.`/`..` elements or repeated inner separators.
- `ResourceRequirements.Claims` and the container and Deployment fields the handlers never read are not modelled.
- The Pod workload and its resize subresource exist only as a kubectl comment (main.go:101-106). They are not implemented in the source, so they are not modelled. `BuildPatch` only shows that the Pod path is absent.
- The `log.Fatalf` exit when `initKubeClient` fails (main.go:80-82) is not modelled. That ordering happens before `ResolveTarget` runs.
- A nil `Spec.Selector` (a nil-pointer dereference at handler.go:26) is not modelled. The API server requires a selector on apps/v1 Deployments.
- Concurrent requests and lost updates between them are not modelled.
