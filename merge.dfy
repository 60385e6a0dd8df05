/** The resource merge of `patchHandler`: an override of CPU and/or memory is parsed and
    written into both the requests and the limits of the first container. */
module ResourceMerge {
  import opened Results
  import opened Resources

  /** The decoded request body; a field the body leaves out decodes to "". */
  datatype PatchData = PatchData(cpu: string, memory: string)

  /** Why an override is rejected (answered with status 400). */
  datatype MergeError = InvalidCpu(raw: string) | InvalidMemory(raw: string)

  /** `resource.ParseQuantity`: `None` is a parse error. */
  type Parser = string -> Option<Quantity>

  /** The CPU field is set and does not parse. */
  predicate BadCpu(data: PatchData, parse: Parser)
  {
    data.cpu != "" && parse(data.cpu).None?
  }

  /** The memory field is set and does not parse. */
  predicate BadMemory(data: PatchData, parse: Parser)
  {
    data.memory != "" && parse(data.memory).None?
  }

  /** The keys a request addresses: cpu when its CPU field is set, memory when its memory field is. */
  function Addressed(data: PatchData): set<ResourceName>
  {
    (if data.cpu != "" then {Cpu} else {}) + (if data.memory != "" then {Memory} else {})
  }

  /** The entry one override field contributes: nothing for "", the parsed value under `key`, or `err`. */
  function FieldOverride(key: ResourceName, raw: string, parse: Parser, err: MergeError): Result<ResourceList, MergeError>
  {
    if raw == "" then Success(map[])
    else match parse(raw)
      case None => Failure(err)
      case Some(q) => Success(map[key := q])
  }

  /** The entries a request writes into both maps, or the first field that does not parse
      (CPU is examined before memory). */
  function Overrides(data: PatchData, parse: Parser): (r: Result<ResourceList, MergeError>)
    ensures r.Failure? <==> BadCpu(data, parse) || BadMemory(data, parse)
    ensures BadCpu(data, parse) ==> r == Failure(InvalidCpu(data.cpu))
    ensures !BadCpu(data, parse) && BadMemory(data, parse) ==> r == Failure(InvalidMemory(data.memory))
    ensures r.Success? ==> r.value.Keys == Addressed(data)
    ensures r.Success? && data.cpu != "" ==> r.value[Cpu] == parse(data.cpu).value
    ensures r.Success? && data.memory != "" ==> r.value[Memory] == parse(data.memory).value
  {
    match FieldOverride(Cpu, data.cpu, parse, InvalidCpu(data.cpu))
    case Failure(e) => Failure(e)
    case Success(cpu) =>
      match FieldOverride(Memory, data.memory, parse, InvalidMemory(data.memory))
      case Failure(e) => Failure(e)
      case Success(memory) => Success(cpu + memory)
  }

  /** The merged resources: both maps exist, every addressed key holds its parsed value in
      both maps, and every other key keeps what it had. */
  function Merge(current: Requirements, data: PatchData, parse: Parser): (r: Result<Requirements, MergeError>)
    ensures r.Failure? <==> Overrides(data, parse).Failure?
    ensures r.Failure? ==> r.error == Overrides(data, parse).error
    ensures r.Success? ==> r.value.requests.Some? && r.value.limits.Some?
    ensures r.Success? ==>
      && r.value.requests.value.Keys == OrEmpty(current.requests).Keys + Addressed(data)
      && r.value.limits.value.Keys == OrEmpty(current.limits).Keys + Addressed(data)
    ensures r.Success? ==> forall k :: k in Addressed(data) ==>
      r.value.requests.value[k] == r.value.limits.value[k] == Overrides(data, parse).value[k]
    ensures r.Success? ==> forall k :: k in OrEmpty(current.requests) && k !in Addressed(data) ==>
      r.value.requests.value[k] == OrEmpty(current.requests)[k]
    ensures r.Success? ==> forall k :: k in OrEmpty(current.limits) && k !in Addressed(data) ==>
      r.value.limits.value[k] == OrEmpty(current.limits)[k]
  {
    match Overrides(data, parse)
    case Failure(e) => Failure(e)
    case Success(w) => Success(Requirements(Some(OrEmpty(current.requests) + w), Some(OrEmpty(current.limits) + w)))
  }

  /** The merge as `patchHandler` performs it: nil maps are made empty, then each set field
      is parsed and assigned to both maps, returning early on the first parse error. */
  method MergeResources(current: Requirements, data: PatchData, parse: Parser)
    returns (result: Result<Requirements, MergeError>)
    ensures result == Merge(current, data, parse)
  {
    var requests := current.requests;
    var limits := current.limits;
    if requests.None? {
      requests := Some(map[]);
    }
    if limits.None? {
      limits := Some(map[]);
    }
    // the entries written so far, as `Overrides` collects them
    ghost var written: ResourceList := map[];

    if data.cpu != "" {
      var cpu := parse(data.cpu);
      if cpu.None? {
        return Failure(InvalidCpu(data.cpu));
      }
      requests := Some(requests.value[Cpu := cpu.value]);
      limits := Some(limits.value[Cpu := cpu.value]);
      written := map[Cpu := cpu.value];
    }
    assert requests.value == OrEmpty(current.requests) + written;
    assert limits.value == OrEmpty(current.limits) + written;

    if data.memory != "" {
      var memory := parse(data.memory);
      if memory.None? {
        return Failure(InvalidMemory(data.memory));
      }
      requests := Some(requests.value[Memory := memory.value]);
      limits := Some(limits.value[Memory := memory.value]);
      written := written[Memory := memory.value];
    }
    assert requests.value == OrEmpty(current.requests) + written;
    assert limits.value == OrEmpty(current.limits) + written;
    assert Overrides(data, parse).value == written;
    assert Overrides(data, parse) == Success(written);

    result := Success(Requirements(requests, limits));
  }

  /** A set, parseable CPU field puts the parsed quantity into both the cpu request and the cpu limit. */
  lemma CpuOverrideSetsBoth(current: Requirements, data: PatchData, parse: Parser, q: Quantity)
    requires data.cpu != "" && parse(data.cpu) == Some(q)
    requires !BadMemory(data, parse)
    ensures var r := Merge(current, data, parse);
      r.Success? && r.value.requests.value[Cpu] == q && r.value.limits.value[Cpu] == q
  {
  }

  /** Likewise for memory. */
  lemma MemoryOverrideSetsBoth(current: Requirements, data: PatchData, parse: Parser, q: Quantity)
    requires data.memory != "" && parse(data.memory) == Some(q)
    requires !BadCpu(data, parse)
    ensures var r := Merge(current, data, parse);
      r.Success? && r.value.requests.value[Memory] == q && r.value.limits.value[Memory] == q
  {
  }

  /** A key no set field addresses is present afterwards exactly when it was before, with the same value. */
  lemma UnaddressedKeyKept(current: Requirements, data: PatchData, parse: Parser, k: ResourceName)
    requires Merge(current, data, parse).Success?
    requires k !in Addressed(data)
    ensures var r := Merge(current, data, parse).value;
      && (k in r.requests.value <==> k in OrEmpty(current.requests))
      && (k in r.limits.value <==> k in OrEmpty(current.limits))
      && (k in OrEmpty(current.requests) ==> r.requests.value[k] == OrEmpty(current.requests)[k])
      && (k in OrEmpty(current.limits) ==> r.limits.value[k] == OrEmpty(current.limits)[k])
  {
  }

  /** The merge removes no entry: the key sets only grow, and by at most cpu and memory. */
  lemma KeysGrowByAtMostCpuAndMemory(current: Requirements, data: PatchData, parse: Parser)
    requires Merge(current, data, parse).Success?
    ensures var r := Merge(current, data, parse).value;
      && OrEmpty(current.requests).Keys <= r.requests.value.Keys <= OrEmpty(current.requests).Keys + {Cpu, Memory}
      && OrEmpty(current.limits).Keys <= r.limits.value.Keys <= OrEmpty(current.limits).Keys + {Cpu, Memory}
  {
  }

  /** An override with both fields "" leaves the resources as they were, except that nil maps become empty. */
  lemma EmptyOverrideIsNoOp(current: Requirements, parse: Parser)
    ensures Merge(current, PatchData("", ""), parse)
         == Success(Requirements(Some(OrEmpty(current.requests)), Some(OrEmpty(current.limits))))
  {
    assert Overrides(PatchData("", ""), parse) == Success(map[]);
    assert OrEmpty(current.requests) + map[] == OrEmpty(current.requests);
    assert OrEmpty(current.limits) + map[] == OrEmpty(current.limits);
  }

  /** Whatever nil maps the input has, a successful merge writes both maps. */
  lemma MergeFillsNilMaps(current: Requirements, data: PatchData, parse: Parser)
    requires current.requests.None? && current.limits.None?
    requires Merge(current, data, parse).Success?
    ensures var r := Merge(current, data, parse).value;
      r.requests.value.Keys == r.limits.value.Keys == Addressed(data)
  {
  }

  /** An unparseable CPU field rejects the request whatever the memory field says:
      the memory field is never examined. */
  lemma InvalidCpuIgnoresMemory(current: Requirements, data: PatchData, parse: Parser, memory: string)
    requires BadCpu(data, parse)
    ensures Merge(current, data, parse) == Merge(current, data.(memory := memory), parse) == Failure(InvalidCpu(data.cpu))
  {
  }

  /** An unparseable memory field rejects the request even when the CPU field was valid:
      the CPU already written is discarded. */
  lemma InvalidMemoryDiscardsCpu(current: Requirements, data: PatchData, parse: Parser)
    requires !BadCpu(data, parse) && BadMemory(data, parse)
    ensures Merge(current, data, parse) == Failure(InvalidMemory(data.memory))
  {
  }

  /** `{cpu: "500m"}` on `{requests: {memory: 256Mi}, limits: {memory: 512Mi}}`: the cpu keys
      are written and both memory entries stay, the memory limit included. */
  lemma CpuOnMemoryOnlyExample(parse: Parser, half: Quantity, mem256: Quantity, mem512: Quantity)
    requires parse("500m") == Some(half)
    ensures Merge(Requirements(Some(map[Memory := mem256]), Some(map[Memory := mem512])), PatchData("500m", ""), parse)
         == Success(Requirements(Some(map[Memory := mem256, Cpu := half]), Some(map[Memory := mem512, Cpu := half])))
  {
    assert map[Cpu := half] + map[] == map[Cpu := half];
    assert map[Memory := mem256] + map[Cpu := half] == map[Memory := mem256, Cpu := half];
    assert map[Memory := mem512] + map[Cpu := half] == map[Memory := mem512, Cpu := half];
  }
}
