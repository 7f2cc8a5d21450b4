/**
 * The inventory facts handed to the emitter: one record per observed
 * namespace, deployment or pod, and the cluster snapshot that groups them.
 */
module Inventory {
  import opened Resources

  /** The text form of a time-based UUID. */
  type Uid = string

  /** The zero value of a UUID, held by the generator before its first call. */
  const NO_UID: Uid := ""

  const CREATED := "created"
  const DELETED := "deleted"
  const MODIFIED := "modified"

  const NAMESPACE_KIND := "namespace"
  const DEPLOYMENT_KIND := "deployment"
  const POD_KIND := "pod"

  datatype Namespace = Namespace(name: string, event: string, kind: string, uid: Uid)

  datatype Deployment = Deployment(
    name: string,
    namespace: string,
    labels: Labels,
    replicasDesired: int32,
    event: string,
    kind: string,
    uid: Uid)

  datatype Pod = Pod(
    name: string,
    namespace: string,
    labels: Labels,
    images: seq<string>,
    event: string,
    kind: string,
    uid: Uid)

  datatype Cluster = Cluster(
    uid: Uid,
    name: string,
    version: string,
    namespaces: seq<Namespace>,
    deployments: map<string, seq<Deployment>>,
    pods: map<string, seq<Pod>>)

  /** The image reference of each container, in container order. */
  function ImagesOf(containers: seq<Container>): (images: seq<string>)
    ensures |images| == |containers|
    ensures forall i :: 0 <= i < |containers| ==> images[i] == containers[i].image
  {
    if containers == [] then [] else [containers[0].image] + ImagesOf(containers[1..])
  }

  /** The fact a namespace handler or the snapshot builds from a namespace object. */
  function NamespaceFact(ns: NamespaceRecord, event: string, uid: Uid): Namespace {
    Namespace(ns.name, event, NAMESPACE_KIND, uid)
  }

  /** The fact built from a deployment object; it dereferences `Spec.Replicas`. */
  function DeploymentFact(d: DeploymentRecord, event: string, uid: Uid): Deployment
    requires d.replicas.Some?
  {
    Deployment(d.name, d.namespace, d.labels, d.replicas.value, event, DEPLOYMENT_KIND, uid)
  }

  /** The fact built from a pod object. */
  function PodFact(p: PodRecord, event: string, uid: Uid): Pod {
    Pod(p.name, p.namespace, p.labels, ImagesOf(p.containers), event, POD_KIND, uid)
  }

  // The same facts with their identifier cleared: what a fact says about
  // the resource, apart from which identifier it happened to receive.

  function NamespaceWithoutUid(n: Namespace): Namespace { n.(uid := NO_UID) }
  function DeploymentWithoutUid(d: Deployment): Deployment { d.(uid := NO_UID) }
  function PodWithoutUid(p: Pod): Pod { p.(uid := NO_UID) }

  function MapSeq<A, B>(s: seq<A>, f: A -> B): (r: seq<B>)
    ensures |r| == |s|
    ensures forall i :: 0 <= i < |s| ==> r[i] == f(s[i])
  {
    seq(|s|, i requires 0 <= i < |s| => f(s[i]))
  }

  function MapValues<K, A, B>(m: map<K, A>, f: A -> B): (r: map<K, B>)
    ensures r.Keys == m.Keys
    ensures forall k :: k in m ==> r[k] == f(m[k])
  {
    map k | k in m :: f(m[k])
  }

  function NamespacesWithoutUid(s: seq<Namespace>): seq<Namespace> { MapSeq(s, NamespaceWithoutUid) }
  function DeploymentsWithoutUid(s: seq<Deployment>): seq<Deployment> { MapSeq(s, DeploymentWithoutUid) }
  function PodsWithoutUid(s: seq<Pod>): seq<Pod> { MapSeq(s, PodWithoutUid) }

  /** A cluster whose facts carry no identifiers; the cluster's own uid is kept. */
  function FactsWithoutUid(c: Cluster): Cluster {
    c.(namespaces := NamespacesWithoutUid(c.namespaces),
       deployments := MapValues(c.deployments, DeploymentsWithoutUid),
       pods := MapValues(c.pods, PodsWithoutUid))
  }
}
