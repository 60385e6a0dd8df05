/** The Kubernetes objects the handlers read: resource lists, containers and Deployments. */
module Resources {
  import opened Results

  /** A `resource.Quantity`. Its grammar and canonical form belong to the Kubernetes
      library, so the model treats it as an opaque value. */
  type Quantity(00)

  /** `corev1.ResourceName` is a string type; keys other than cpu and memory may occur. */
  type ResourceName = string

  const Cpu: ResourceName := "cpu"
  const Memory: ResourceName := "memory"

  /** `corev1.ResourceList`. */
  type ResourceList = map<ResourceName, Quantity>

  /** `corev1.ResourceRequirements`; `None` is a nil map. */
  datatype Requirements = Requirements(requests: Option<ResourceList>, limits: Option<ResourceList>)

  /** The parts of a `corev1.Container` the handlers use. */
  datatype Container = Container(name: string, resources: Requirements)

  /** The parts of an `appsv1.Deployment` the handlers use: its name, the labels of its
      selector and the containers of its pod template. */
  datatype Deployment = Deployment(name: string, matchLabels: map<string, string>, containers: seq<Container>)

  /** A nil map reads as an empty one. */
  function OrEmpty(m: Option<ResourceList>): ResourceList
  {
    if m.None? then map[] else m.value
  }

  /** Looking a key up in a possibly nil map. */
  function Lookup(m: Option<ResourceList>, key: ResourceName): Option<Quantity>
  {
    var l := OrEmpty(m);
    if key in l then Some(l[key]) else None
  }
}
