/** The request handlers of handler.go with the Kubernetes reads as inputs and the patch
    call as an output: `cpuInfoHandler`, `memInfoHandler`, `restartsHandler` and the
    read-merge-build-apply pipeline of `patchHandler`. */
module Handlers {
  import opened Results
  import opened Resources
  import opened ResourceMerge
  import opened PatchDocument
  import opened Restarts

  /** Why a request ends without its result. */
  datatype Failure =
    | GetFailed(cause: string)          // reading the Deployment failed
    | NoContainers                      // the pod template has no containers
    | InvalidOverride(error: MergeError) // an override field does not parse
    | ListFailed(cause: string)         // listing the selected pods failed
    | PatchFailed(cause: string)        // the orchestrator rejected the patch

  /** The HTTP status each failure is answered with. */
  function StatusCode(f: Failure): (code: int)
    ensures code == 400 <==> f.InvalidOverride?
    ensures code == 400 || code == 500
  {
    if f.InvalidOverride? then 400 else 500
  }

  /** The `limit` and `request` an info handler reports for one resource name; `None` is an
      absent key, which the library reports as the zero quantity. */
  datatype ResourceInfo = ResourceInfo(limit: Option<Quantity>, request: Option<Quantity>)

  /** The first container's limit and request for `name`, or why there is none:
      `cpuInfoHandler` is `Info(fetched, Cpu)` and `memInfoHandler` is `Info(fetched, Memory)`. */
  function Info(fetched: Result<Deployment, string>, name: ResourceName): (r: Result<ResourceInfo, Failure>)
    ensures fetched.Failure? ==> r == Failure(GetFailed(fetched.error))
    ensures fetched.Success? ==> (r.Success? <==> fetched.value.containers != [])
    ensures fetched.Success? && fetched.value.containers == [] ==> r == Failure(NoContainers)
    ensures r.Success? ==> var first := fetched.value.containers[0].resources;
      && (r.value.limit.Some? <==> name in OrEmpty(first.limits))
      && (r.value.request.Some? <==> name in OrEmpty(first.requests))
      && (r.value.limit.Some? ==> r.value.limit.value == OrEmpty(first.limits)[name])
      && (r.value.request.Some? ==> r.value.request.value == OrEmpty(first.requests)[name])
  {
    if fetched.Failure? then Failure(GetFailed(fetched.error))
    else if fetched.value.containers == [] then Failure(NoContainers)
    else
      var first := fetched.value.containers[0].resources;
      Success(ResourceInfo(Lookup(first.limits, name), Lookup(first.requests, name)))
  }

  /** The Deployment with the resources of its first container replaced, as the in-place
      update of `patchHandler` leaves its local copy. */
  function WithFirstResources(dep: Deployment, resources: Requirements): (d: Deployment)
    requires dep.containers != []
    ensures d.name == dep.name && d.matchLabels == dep.matchLabels && |d.containers| == |dep.containers|
    ensures d.containers[0] == Container(dep.containers[0].name, resources)
    ensures d.containers[1..] == dep.containers[1..]
  {
    dep.(containers := [dep.containers[0].(resources := resources)] + dep.containers[1..])
  }

  /** The info handlers read the first container only. */
  lemma InfoReadsFirstContainerOnly(dep: Deployment, rest: seq<Container>, name: ResourceName)
    requires dep.containers != []
    ensures Info(Success(dep), name) == Info(Success(dep.(containers := [dep.containers[0]] + rest)), name)
  {
  }

  /** After a set, parseable CPU override the CPU info reports the parsed quantity as both
      limit and request. */
  lemma CpuInfoAfterCpuOverride(dep: Deployment, data: PatchData, parse: Parser, q: Quantity)
    requires dep.containers != []
    requires data.cpu != "" && parse(data.cpu) == Some(q) && !BadMemory(data, parse)
    ensures Merge(dep.containers[0].resources, data, parse).Success?
    ensures Info(Success(WithFirstResources(dep, Merge(dep.containers[0].resources, data, parse).value)), Cpu)
         == Success(ResourceInfo(Some(q), Some(q)))
  {
    CpuOverrideSetsBoth(dep.containers[0].resources, data, parse, q);
  }

  /** Likewise for memory. */
  lemma MemInfoAfterMemoryOverride(dep: Deployment, data: PatchData, parse: Parser, q: Quantity)
    requires dep.containers != []
    requires data.memory != "" && parse(data.memory) == Some(q) && !BadCpu(data, parse)
    ensures Merge(dep.containers[0].resources, data, parse).Success?
    ensures Info(Success(WithFirstResources(dep, Merge(dep.containers[0].resources, data, parse).value)), Memory)
         == Success(ResourceInfo(Some(q), Some(q)))
  {
    MemoryOverrideSetsBoth(dep.containers[0].resources, data, parse, q);
  }

  /** `k8sTypes.StrategicMergePatchType`, the only patch type the handler uses. */
  datatype PatchType = StrategicMergePatch

  /** One call of `Deployments(namespace).Patch(name, patchType, doc)`. */
  datatype PatchCall = PatchCall(namespace: string, name: string, patchType: PatchType, doc: Json)

  const PatchedMessage: string := "Deployment patched successfully"

  /** `patchHandler` after the body is decoded. `fetched` is what the Deployment read
      returned, `patchError` what the patch call would return; `calls` is the list of
      patch calls made. Every failure before the call leaves `calls` empty. */
  method HandlePatch(namespace: string, fetched: Result<Deployment, string>, data: PatchData,
                     parse: Parser, patchError: Option<string>)
    returns (response: Result<string, Failure>, calls: seq<PatchCall>)
    ensures fetched.Failure? ==> response == Failure(GetFailed(fetched.error)) && calls == []
    ensures fetched.Success? && fetched.value.containers == [] ==> response == Failure(NoContainers) && calls == []
    ensures fetched.Success? && fetched.value.containers != [] ==>
      var first := fetched.value.containers[0];
      match Merge(first.resources, data, parse)
      case Failure(e) => response == Failure(InvalidOverride(e)) && calls == []
      case Success(merged) =>
        && calls == [PatchCall(namespace, fetched.value.name, StrategicMergePatch, BuildPatch(Container(first.name, merged)))]
        && response == (if patchError.None? then Success(PatchedMessage) else Failure(PatchFailed(patchError.value)))
  {
    calls := [];
    if fetched.Failure? {
      return Failure(GetFailed(fetched.error)), calls;
    }
    var dep := fetched.value;
    if |dep.containers| == 0 {
      return Failure(NoContainers), calls;
    }
    var container := dep.containers[0];
    var merged := MergeResources(container.resources, data, parse);
    if merged.Failure? {
      return Failure(InvalidOverride(merged.error)), calls;
    }
    var doc := BuildPatch(Container(container.name, merged.value));
    calls := calls + [PatchCall(namespace, dep.name, StrategicMergePatch, doc)];
    if patchError.Some? {
      return Failure(PatchFailed(patchError.value)), calls;
    }
    response := Success(PatchedMessage);
  }

  /** `restartsHandler`: read the Deployment, list the pods its selector matches and sum
      their restart counts. `listPods` stands for the pod list call. */
  method HandleRestarts(fetched: Result<Deployment, string>, listPods: map<string, string> -> Result<seq<Pod>, string>)
    returns (response: Result<int32, Failure>)
    ensures fetched.Failure? ==> response == Failure(GetFailed(fetched.error))
    ensures fetched.Success? ==>
      match listPods(fetched.value.matchLabels)
      case Failure(e) => response == Failure(ListFailed(e))
      case Success(pods) => response == Success(Wrap32(TotalRestarts(pods)))
  {
    if fetched.Failure? {
      return Failure(GetFailed(fetched.error));
    }
    var listed := listPods(fetched.value.matchLabels);
    if listed.Failure? {
      return Failure(ListFailed(listed.error));
    }
    var count := CountRestarts(listed.value);
    response := Success(count);
  }
}
