/** The strategic-merge-patch document `patchHandler` sends for a Deployment: a nested
    object `spec.template.spec.containers` holding a single container entry. */
module PatchDocument {
  import opened Results
  import opened Resources

  /** The value tree of the nested `map[string]any` literal. The container's resources go
      in as a typed value, as the Go literal does; their JSON encoding is not modelled. */
  datatype Json =
    | Object(fields: map<string, Json>)
    | Array(items: seq<Json>)
    | Text(text: string)
    | ResourcesValue(resources: Requirements)

  /** Where a Deployment's pod template keeps its containers. */
  const ContainersPath: seq<string> := ["spec", "template", "spec", "containers"]

  /** Where a Pod keeps its containers; a Deployment patch must not address it. */
  const PodContainersPath: seq<string> := ["spec", "containers"]

  /** The value found by following `path` through nested objects. */
  function At(j: Json, path: seq<string>): Option<Json>
    decreases |path|
  {
    if path == [] then Some(j)
    else match j
      case Object(fields) => if path[0] in fields then At(fields[path[0]], path[1..]) else None
      case _ => None
  }

  /** The entry for one container: its name and its resources. */
  function Entry(c: Container): Json
  {
    Object(map["name" := Text(c.name), "resources" := ResourcesValue(c.resources)])
  }

  /** The patch document for the container `c`. Each level holds only the next key, and the
      container list holds `c`'s entry alone. */
  function BuildPatch(c: Container): (doc: Json)
    ensures At(doc, ContainersPath) == Some(Array([Entry(c)]))
    ensures At(doc, PodContainersPath) == None
    ensures doc.Object? && doc.fields.Keys == {"spec"}
    ensures At(doc, ["spec"]).value.Object? && At(doc, ["spec"]).value.fields.Keys == {"template"}
    ensures At(doc, ["spec", "template"]).value.Object?
      && At(doc, ["spec", "template"]).value.fields.Keys == {"spec"}
    ensures At(doc, ["spec", "template", "spec"]).value.Object?
      && At(doc, ["spec", "template", "spec"]).value.fields.Keys == {"containers"}
  {
    Object(map["spec" :=
      Object(map["template" :=
        Object(map["spec" :=
          Object(map["containers" := Array([Entry(c)])])])])])
  }

  /** Reads back the containers a Deployment patch addresses. */
  function PatchedContainers(doc: Json): Option<seq<Container>>
  {
    match At(doc, ContainersPath)
    case Some(Array(items)) => EntriesOf(items)
    case _ => None
  }

  /** Reads back a list of container entries; `None` when one is malformed. */
  function EntriesOf(items: seq<Json>): (r: Option<seq<Container>>)
    ensures r.Some? ==> |r.value| == |items|
  {
    if items == [] then Some([])
    else
      var head, tail := EntryOf(items[0]), EntriesOf(items[1..]);
      if head.Some? && tail.Some? then Some([head.value] + tail.value) else None
  }

  /** Reads back one container entry. */
  function EntryOf(j: Json): Option<Container>
  {
    match j
    case Object(f) =>
      if "name" in f && "resources" in f && f["name"].Text? && f["resources"].ResourcesValue?
      then Some(Container(f["name"].text, f["resources"].resources))
      else None
    case _ => None
  }

  /** The document addresses exactly one container: the one it was built from, with its
      name and its resources unchanged. */
  lemma BuildPatchRoundTrip(c: Container)
    ensures PatchedContainers(BuildPatch(c)) == Some([c])
  {
    assert EntryOf(Entry(c)) == Some(c);
    assert [Entry(c)][1..] == [];
    assert EntriesOf([]) == Some([]);
    assert EntriesOf([Entry(c)]) == Some([c] + []);
    assert [c] + [] == [c];
    assert At(BuildPatch(c), ContainersPath) == Some(Array([Entry(c)]));
  }
}
