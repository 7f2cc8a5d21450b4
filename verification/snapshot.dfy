/**
 * The snapshot builder, `Initialize`: list every namespace and, per
 * namespace, its deployments and its pods, and assemble one Cluster value.
 *
 * `Assemble` states what the builder computes, one namespace at a time,
 * with identifiers left out; `Initialize` is the builder itself.
 */
module Snapshot {
  import opened Resources
  import opened Inventory
  import opened Uids

  const CLUSTER_NAME_LABEL := "cluster-name"

  /** One listed namespace with the outcomes of listing its deployments and its pods. */
  datatype NamespaceEntry = NamespaceEntry(
    ns: NamespaceRecord,
    deployments: Listing<DeploymentRecord>,
    pods: Listing<PodRecord>)

  /** What the builder has collected after some namespaces: the loop's state. */
  datatype Progress = Progress(
    namespaces: seq<Namespace>,
    deployments: map<string, seq<Deployment>>,
    pods: map<string, seq<Pod>>,
    clusterPods: seq<Pod>)

  /** Every listed deployment has `Spec.Replicas` set, which the builder dereferences. */
  predicate ReplicasPresent(entries: seq<NamespaceEntry>) {
    forall i, d :: 0 <= i < |entries| && d in entries[i].deployments.Items() ==> d.replicas.Some?
  }

  /** No two listed namespaces share a name, as the API server guarantees. */
  predicate UniqueNames(entries: seq<NamespaceEntry>) {
    forall i, j :: 0 <= i < j < |entries| ==> entries[i].ns.name != entries[j].ns.name
  }

  function Lookup<T>(m: map<string, seq<T>>, k: string): seq<T> {
    if k in m then m[k] else []
  }

  function DeploymentFacts(ds: seq<DeploymentRecord>): (r: seq<Deployment>)
    requires forall d :: d in ds ==> d.replicas.Some?
  {
    seq(|ds|, i requires 0 <= i < |ds| => DeploymentFact(ds[i], CREATED, NO_UID))
  }

  function PodFacts(ps: seq<PodRecord>): (r: seq<Pod>) {
    seq(|ps|, i requires 0 <= i < |ps| => PodFact(ps[i], CREATED, NO_UID))
  }

  /** Appending to `m[name]`, where a missing key reads as the empty list; nothing to add adds no key. */
  function AddDeployments(m: map<string, seq<Deployment>>, name: string, facts: seq<Deployment>)
    : map<string, seq<Deployment>>
  {
    if facts == [] then m else m[name := Lookup(m, name) + facts]
  }

  /** One pass of the namespace loop. `clusterPods` is carried over, never reset. */
  function Step(p: Progress, e: NamespaceEntry): Progress
    requires forall d :: d in e.deployments.Items() ==> d.replicas.Some?
  {
    var clusterPods := p.clusterPods + PodFacts(e.pods.Items());
    Progress(
      p.namespaces + [NamespaceFact(e.ns, CREATED, NO_UID)],
      AddDeployments(p.deployments, e.ns.name, DeploymentFacts(e.deployments.Items())),
      p.pods[e.ns.name := clusterPods],
      clusterPods)
  }

  function Assemble(entries: seq<NamespaceEntry>): Progress
    requires ReplicasPresent(entries)
    decreases |entries|
  {
    if entries == [] then Progress([], map[], map[], [])
    else Step(Assemble(entries[..|entries| - 1]), entries[|entries| - 1])
  }

  /** The Cluster value the builder emits, facts without identifiers. */
  function SnapshotOf(entries: seq<NamespaceEntry>, uid: Uid, name: string, version: string): Cluster
    requires ReplicasPresent(entries)
  {
    var p := Assemble(entries);
    Cluster(uid, name, version, p.namespaces, p.deployments, p.pods)
  }

  /** The pod facts of all the given namespaces, in listing order. */
  function AllPods(entries: seq<NamespaceEntry>): (r: seq<Pod>)
    ensures forall j :: 0 <= j < |r| ==> r[j].event == CREATED && r[j].kind == POD_KIND
    decreases |entries|
  {
    if entries == [] then []
    else AllPods(entries[..|entries| - 1]) + PodFacts(entries[|entries| - 1].pods.Items())
  }

  /** The deployment facts of every listed namespace called `name`, in listing order. */
  function DeploymentsNamed(entries: seq<NamespaceEntry>, name: string): (r: seq<Deployment>)
    requires ReplicasPresent(entries)
    ensures (forall i :: 0 <= i < |entries| ==> entries[i].ns.name != name) ==> r == []
    ensures forall j :: 0 <= j < |r| ==> r[j].event == CREATED && r[j].kind == DEPLOYMENT_KIND
    decreases |entries|
  {
    if entries == [] then []
    else
      var last := entries[|entries| - 1];
      DeploymentsNamed(entries[..|entries| - 1], name)
        + (if last.ns.name == name then DeploymentFacts(last.deployments.Items()) else [])
  }

  /**
   * `GetClusterName`: the `cluster-name` label of the first listed node, or
   * the empty string when the label is absent. Indexing the first node of an
   * empty list panics, hence the precondition.
   */
  function GetClusterName(nodes: Listing<NodeRecord>): (name: string)
    requires nodes.Items() != []
    ensures CLUSTER_NAME_LABEL in nodes.Items()[0].labels ==> name == nodes.Items()[0].labels[CLUSTER_NAME_LABEL]
    ensures CLUSTER_NAME_LABEL !in nodes.Items()[0].labels ==> name == ""
  {
    var node := nodes.Items()[0];
    if CLUSTER_NAME_LABEL in node.labels then node.labels[CLUSTER_NAME_LABEL] else ""
  }

  // Properties of the assembled snapshot.

  lemma PrefixReplicas(entries: seq<NamespaceEntry>, k: nat)
    requires ReplicasPresent(entries) && k <= |entries|
    ensures ReplicasPresent(entries[..k])
  {
  }

  /** One namespace fact per listed namespace, in listing order, tagged created/namespace. */
  lemma {:induction false} NamespacesInListingOrder(entries: seq<NamespaceEntry>)
    requires ReplicasPresent(entries)
    ensures |Assemble(entries).namespaces| == |entries|
    ensures forall i :: 0 <= i < |entries| ==>
      var n := Assemble(entries).namespaces[i];
      n.name == entries[i].ns.name && n.event == CREATED && n.kind == NAMESPACE_KIND
  {
    if entries != [] {
      var init := entries[..|entries| - 1];
      PrefixReplicas(entries, |entries| - 1);
      NamespacesInListingOrder(init);
      assert forall i :: 0 <= i < |init| ==> init[i] == entries[i];
    }
  }

  /** Every listed namespace, and only those, is a key of `Pods`, even one without pods. */
  lemma {:induction false} PodKeysAreListedNamespaces(entries: seq<NamespaceEntry>)
    requires ReplicasPresent(entries)
    ensures Assemble(entries).pods.Keys == set i | 0 <= i < |entries| :: entries[i].ns.name
  {
    if entries != [] {
      var init := entries[..|entries| - 1];
      PrefixReplicas(entries, |entries| - 1);
      PodKeysAreListedNamespaces(init);
      var before := set i | 0 <= i < |init| :: init[i].ns.name;
      var after := set i | 0 <= i < |entries| :: entries[i].ns.name;
      assert after == before + {entries[|entries| - 1].ns.name} by {
        forall n | n in after ensures n in before + {entries[|entries| - 1].ns.name} {
          var i :| 0 <= i < |entries| && entries[i].ns.name == n;
          if i < |init| { assert init[i] == entries[i]; }
        }
        forall n | n in before ensures n in after {
          var i :| 0 <= i < |init| && init[i].ns.name == n;
          assert entries[i] == init[i];
        }
      }
    }
  }

  /** The shared pod list holds the pods of every namespace seen so far. */
  lemma {:induction false} ClusterPodsAccumulate(entries: seq<NamespaceEntry>)
    requires ReplicasPresent(entries)
    ensures Assemble(entries).clusterPods == AllPods(entries)
  {
    if entries != [] {
      PrefixReplicas(entries, |entries| - 1);
      ClusterPodsAccumulate(entries[..|entries| - 1]);
    }
  }

  /**
   * `Pods[ns_k]` holds the pods of namespaces 1..k, not only those of ns_k,
   * where k is the last position at which that name is listed.
   */
  lemma {:induction false} PodsOfNamespaceAccumulate(entries: seq<NamespaceEntry>, k: nat)
    requires ReplicasPresent(entries)
    requires k < |entries|
    requires forall j :: k < j < |entries| ==> entries[j].ns.name != entries[k].ns.name
    ensures entries[k].ns.name in Assemble(entries).pods
    ensures Assemble(entries).pods[entries[k].ns.name] == AllPods(entries[..k + 1])
  {
    var init := entries[..|entries| - 1];
    PrefixReplicas(entries, |entries| - 1);
    if k == |entries| - 1 {
      ClusterPodsAccumulate(init);
      assert entries[..k + 1] == entries;
    } else {
      assert init[k] == entries[k];
      assert forall j :: k < j < |init| ==> init[j] == entries[j];
      PodsOfNamespaceAccumulate(init, k);
      assert init[..k + 1] == entries[..k + 1];
    }
  }

  /**
   * `Deployments` has a key exactly for the names whose listings yielded at
   * least one deployment, holding those deployments' facts in listing order.
   */
  lemma {:induction false} DeploymentsGroupedByNamespace(entries: seq<NamespaceEntry>, name: string)
    requires ReplicasPresent(entries)
    ensures name in Assemble(entries).deployments <==> DeploymentsNamed(entries, name) != []
    ensures name in Assemble(entries).deployments ==>
      Assemble(entries).deployments[name] == DeploymentsNamed(entries, name)
  {
    if entries != [] {
      PrefixReplicas(entries, |entries| - 1);
      DeploymentsGroupedByNamespace(entries[..|entries| - 1], name);
    }
  }

  /** With unique names, the facts gathered under a name are those of its own namespace. */
  lemma {:induction false} DeploymentsNamedUnique(entries: seq<NamespaceEntry>, k: nat)
    requires ReplicasPresent(entries) && UniqueNames(entries)
    requires k < |entries|
    ensures DeploymentsNamed(entries, entries[k].ns.name) == DeploymentFacts(entries[k].deployments.Items())
  {
    var init := entries[..|entries| - 1];
    PrefixReplicas(entries, |entries| - 1);
    if k == |entries| - 1 {
      assert forall i :: 0 <= i < |init| ==> init[i].ns.name != entries[k].ns.name by {
        forall i | 0 <= i < |init| ensures init[i].ns.name != entries[k].ns.name {
          assert init[i] == entries[i];
        }
      }
    } else {
      assert init[k] == entries[k];
      assert UniqueNames(init) by {
        forall i, j | 0 <= i < j < |init| ensures init[i].ns.name != init[j].ns.name {
          assert init[i] == entries[i] && init[j] == entries[j];
        }
      }
      DeploymentsNamedUnique(init, k);
    }
  }

  /**
   * For every listed namespace (names being unique), `Deployments` has its
   * name as a key exactly when it has deployments, and then holds one fact
   * per deployment in listing order with the deployment's own name,
   * namespace, labels and desired replicas, tagged created/deployment.
   */
  lemma DeploymentsOfNamespace(entries: seq<NamespaceEntry>, k: nat)
    requires ReplicasPresent(entries) && UniqueNames(entries)
    requires k < |entries|
    ensures var ds := entries[k].deployments.Items();
      && (entries[k].ns.name in Assemble(entries).deployments <==> ds != [])
      && (ds != [] ==>
           var facts := Assemble(entries).deployments[entries[k].ns.name];
           && |facts| == |ds|
           && forall j :: 0 <= j < |ds| ==>
                && facts[j].name == ds[j].name
                && facts[j].namespace == ds[j].namespace
                && facts[j].labels == ds[j].labels
                && Some(facts[j].replicasDesired) == ds[j].replicas
                && facts[j].event == CREATED
                && facts[j].kind == DEPLOYMENT_KIND)
  {
    DeploymentsGroupedByNamespace(entries, entries[k].ns.name);
    DeploymentsNamedUnique(entries, k);
  }

  /**
   * The maps are keyed by listed namespaces only: every `Deployments` key
   * is a `Pods` key, and those are the names of the namespace facts.
   */
  lemma KeysAreListedNamespaces(entries: seq<NamespaceEntry>)
    requires ReplicasPresent(entries)
    ensures var p := Assemble(entries);
      && p.deployments.Keys <= p.pods.Keys
      && p.pods.Keys == set i | 0 <= i < |p.namespaces| :: p.namespaces[i].name
  {
    var p := Assemble(entries);
    PodKeysAreListedNamespaces(entries);
    NamespacesInListingOrder(entries);
    forall n | n in p.deployments ensures n in p.pods {
      DeploymentsGroupedByNamespace(entries, n);
    }
    assert (set i | 0 <= i < |p.namespaces| :: p.namespaces[i].name)
        == (set i | 0 <= i < |entries| :: entries[i].ns.name);
  }

  // The shared pod list is never reset, so a namespace's entry in `Pods`
  // also holds the pods of the namespaces listed before it. The map is
  // keyed by namespace, which asks for each namespace's own pods.

  /** `Pods` as the map is evidently meant: each namespace's own pods. */
  function IntendedPods(entries: seq<NamespaceEntry>): map<string, seq<Pod>>
    decreases |entries|
  {
    if entries == [] then map[]
    else
      var last := entries[|entries| - 1];
      IntendedPods(entries[..|entries| - 1])[last.ns.name := PodFacts(last.pods.Items())]
  }

  /** Under the intended map, a namespace's entry holds exactly its own pods, in listing order. */
  lemma {:induction false} IntendedPodsOfNamespace(entries: seq<NamespaceEntry>, k: nat)
    requires k < |entries|
    requires forall j :: k < j < |entries| ==> entries[j].ns.name != entries[k].ns.name
    ensures entries[k].ns.name in IntendedPods(entries)
    ensures IntendedPods(entries)[entries[k].ns.name] == PodFacts(entries[k].pods.Items())
  {
    var init := entries[..|entries| - 1];
    if k < |entries| - 1 {
      assert init[k] == entries[k];
      assert forall j :: k < j < |init| ==> init[j] == entries[j];
      IntendedPodsOfNamespace(init, k);
    }
  }

  /**
   * Namespace "a" with one pod, then namespace "b" whose pod listing
   * fails: the builder files a's pod under "b" too, where the intended
   * map has no pods.
   */
  lemma PodsLeakIntoLaterNamespace(p: PodRecord)
    ensures var entries := [
        NamespaceEntry(NamespaceRecord("a"), Listed([]), Listed([p])),
        NamespaceEntry(NamespaceRecord("b"), Listed([]), ListFailed)];
      && Assemble(entries).pods["b"] == [PodFact(p, CREATED, NO_UID)]
      && IntendedPods(entries)["b"] == []
  {
    var entries := [
      NamespaceEntry(NamespaceRecord("a"), Listed([]), Listed([p])),
      NamespaceEntry(NamespaceRecord("b"), Listed([]), ListFailed)];
    PodsOfNamespaceAccumulate(entries, 1);
    assert entries[..2] == entries;
    assert entries[..1][..0] == [];
    assert PodFacts([p]) == [PodFact(p, CREATED, NO_UID)];
    assert AllPods(entries[..1]) == PodFacts([p]);
    assert AllPods(entries) == AllPods(entries[..1]) + PodFacts([]);
    IntendedPodsOfNamespace(entries, 1);
  }

  // The builder itself.

  /** The loop state with identifiers cleared, to compare with `Assemble`. */
  function ViewOf(c: Cluster, clusterPods: seq<Pod>): Progress {
    Progress(
      NamespacesWithoutUid(c.namespaces),
      MapValues(c.deployments, DeploymentsWithoutUid),
      MapValues(c.pods, PodsWithoutUid),
      PodsWithoutUid(clusterPods))
  }

  lemma MapValuesUpdate<A>(m: map<string, seq<A>>, k: string, v: seq<A>, f: seq<A> -> seq<A>)
    ensures MapValues(m[k := v], f) == MapValues(m, f)[k := f(v)]
  {
  }

  lemma DeploymentFactsSnoc(ds: seq<DeploymentRecord>, j: nat)
    requires j < |ds| && forall d :: d in ds ==> d.replicas.Some?
    ensures DeploymentFacts(ds[..j + 1]) == DeploymentFacts(ds[..j]) + [DeploymentFact(ds[j], CREATED, NO_UID)]
  {
  }

  lemma PodFactsSnoc(ps: seq<PodRecord>, k: nat)
    requires k < |ps|
    ensures PodFacts(ps[..k + 1]) == PodFacts(ps[..k]) + [PodFact(ps[k], CREATED, NO_UID)]
  {
  }

  lemma MapSeqSnoc<A>(s: seq<A>, x: A, f: A -> A)
    ensures MapSeq(s + [x], f) == MapSeq(s, f) + [f(x)]
  {
  }

  lemma LookupWithoutUid(m: map<string, seq<Deployment>>, k: string)
    ensures DeploymentsWithoutUid(Lookup(m, k)) == Lookup(MapValues(m, DeploymentsWithoutUid), k)
  {
  }

  /** How many identifiers the facts of `entries` take: one per namespace, deployment and pod. */
  function FactCount(entries: seq<NamespaceEntry>): nat {
    if entries == [] then 0
    else
      var e := entries[|entries| - 1];
      FactCount(entries[..|entries| - 1]) + 1 + |e.deployments.Items()| + |e.pods.Items()|
  }

  /** The identifiers of a list of deployment facts, in order. */
  function DeploymentIds(ds: seq<Deployment>): seq<Uid> {
    seq(|ds|, i requires 0 <= i < |ds| => ds[i].uid)
  }

  /** The identifiers of a list of pod facts, in order. */
  function PodIds(ps: seq<Pod>): seq<Uid> {
    seq(|ps|, i requires 0 <= i < |ps| => ps[i].uid)
  }

  ghost predicate Within(ids: seq<Uid>, pool: seq<Uid>) {
    forall x :: x in ids ==> x in pool
  }

  /** Every fact of `c` carries an identifier from `pool`. */
  ghost predicate ClusterIdsIn(c: Cluster, pool: seq<Uid>) {
    && (forall i :: 0 <= i < |c.namespaces| ==> c.namespaces[i].uid in pool)
    && (forall n :: n in c.deployments ==> Within(DeploymentIds(c.deployments[n]), pool))
    && (forall n :: n in c.pods ==> Within(PodIds(c.pods[n]), pool))
  }

  lemma AppendAssoc(a: seq<Uid>, b: seq<Uid>, c: seq<Uid>)
    ensures a + b + c == a + (b + c)
  {
  }

  lemma TakeSnoc<T>(s: seq<T>, i: nat)
    requires i < |s|
    ensures s[..i + 1] == s[..i] + [s[i]]
  {
  }

  lemma DropPrefix(issued: seq<Uid>, id: Uid, drawn: seq<Uid>)
    ensures (issued + [id] + drawn)[|issued| + 1..] == drawn
  {
  }

  lemma PrefixOfAppend(issued: seq<Uid>, more: seq<Uid>)
    ensures issued <= issued + more
  {
  }

  lemma DeploymentIdsAppend(a: seq<Deployment>, b: seq<Deployment>)
    ensures DeploymentIds(a + b) == DeploymentIds(a) + DeploymentIds(b)
  {
  }

  lemma PodIdsAppend(a: seq<Pod>, b: seq<Pod>)
    ensures PodIds(a + b) == PodIds(a) + PodIds(b)
  {
  }

  /**
   * `Initialize`: one namespace fact per listed namespace, the deployment
   * facts grouped by the namespace they were listed under, and under each
   * namespace's name the pods listed so far. The cluster's identifier is the
   * first one drawn from `gen`; every fact then takes one more, so each fact
   * identifier was issued during this call. The version is an input (its
   * discovery call is not part of this model); the name comes from the node
   * listing.
   */
  method Initialize(gen: UidGenerator, namespaces: Listing<NamespaceEntry>, version: string,
                    nodes: Listing<NodeRecord>) returns (cluster: Cluster)
    requires gen.Valid()
    requires nodes.Items() != []
    requires ReplicasPresent(namespaces.Items())
    modifies gen
    ensures gen.Valid()
    ensures old(gen.issued) <= gen.issued
    ensures |gen.issued| == old(|gen.issued|) + 1 + FactCount(namespaces.Items())
    ensures cluster.uid == gen.issued[old(|gen.issued|)]
    ensures ClusterIdsIn(cluster, gen.issued[old(|gen.issued|) + 1..])
    ensures FactsWithoutUid(cluster)
         == SnapshotOf(namespaces.Items(), cluster.uid, GetClusterName(nodes), version)
  {
    ghost var start := |gen.issued|;
    var uid := gen.NewUid();
    cluster := Cluster(uid, GetClusterName(nodes), version, [], map[], map[]);
    var clusterPods: seq<Pod> := [];
    var entries := namespaces.Items();
    ghost var done: seq<NamespaceEntry> := [];
    ghost var drawn: seq<Uid> := [];
    var i := 0;
    while i < |entries|
      invariant 0 <= i <= |entries| && done == entries[..i] && ReplicasPresent(done)
      invariant gen.Valid()
      invariant gen.issued == old(gen.issued) + [cluster.uid] + drawn
      invariant |drawn| == FactCount(done)
      invariant ClusterIdsIn(cluster, drawn) && Within(PodIds(clusterPods), drawn)
      invariant cluster.name == GetClusterName(nodes) && cluster.version == version
      invariant ViewOf(cluster, clusterPods) == Assemble(done)
    {
      var e := entries[i];
      TakeSnoc(entries, i);
      ghost var next := done + [e];
      PrefixReplicas(entries, i + 1);
      assert next[..|next| - 1] == done;
      assert Assemble(next) == Step(Assemble(done), e);
      assert FactCount(next) == FactCount(done) + 1 + |e.deployments.Items()| + |e.pods.Items()|;
      ghost var more;
      cluster, clusterPods, more := AddNamespace(gen, cluster, clusterPods, e, drawn);
      AppendAssoc(old(gen.issued) + [cluster.uid], drawn, more);
      done := next;
      drawn := drawn + more;
      i := i + 1;
    }
    assert done == entries;
    DropPrefix(old(gen.issued), cluster.uid, drawn);
    PrefixOfAppend(old(gen.issued), [cluster.uid] + drawn);
  }

  /**
   * What one namespace pass adds, identifiers included: one namespace fact,
   * the new deployment facts appended under the namespace's name, the new
   * pod facts appended to the shared list, and nothing else. `drawn` lists
   * the identifiers drawn for them, in drawing order.
   */
  ghost predicate NamespacePass(cluster: Cluster, clusterPods: seq<Pod>, e: NamespaceEntry,
                                cluster': Cluster, clusterPods': seq<Pod>, drawn: seq<Uid>)
  {
    var name := e.ns.name;
    var before := Lookup(cluster.deployments, name);
    var after := Lookup(cluster'.deployments, name);
    && |cluster'.namespaces| == |cluster.namespaces| + 1
    && cluster'.namespaces[..|cluster.namespaces|] == cluster.namespaces
    && (e.deployments.Items() == [] ==> cluster'.deployments == cluster.deployments)
    && (e.deployments.Items() != [] ==> cluster'.deployments == cluster.deployments[name := after])
    && |before| <= |after| && after[..|before|] == before
    && cluster'.pods == cluster.pods[name := clusterPods']
    && |clusterPods| <= |clusterPods'| && clusterPods'[..|clusterPods|] == clusterPods
    && drawn == [cluster'.namespaces[|cluster.namespaces|].uid]
                + DeploymentIds(after[|before|..]) + PodIds(clusterPods'[|clusterPods|..])
  }

  /**
   * One pass of the namespace loop of `Initialize`, for the namespace `e`.
   * The identifiers drawn are, in order, those of the namespace fact, of the
   * deployment facts appended under its name and of the pod facts appended
   * to the shared list. The ghost `pool` names identifiers the state
   * already draws from; afterwards the state draws from `pool + drawn`.
   */
  method AddNamespace(gen: UidGenerator, cluster: Cluster, clusterPods: seq<Pod>, e: NamespaceEntry,
                      ghost pool: seq<Uid>)
    returns (cluster': Cluster, clusterPods': seq<Pod>, ghost drawn: seq<Uid>)
    requires gen.Valid()
    requires forall d :: d in e.deployments.Items() ==> d.replicas.Some?
    requires ClusterIdsIn(cluster, pool) && Within(PodIds(clusterPods), pool)
    modifies gen
    ensures gen.Valid()
    ensures gen.issued == old(gen.issued) + drawn
    ensures |drawn| == 1 + |e.deployments.Items()| + |e.pods.Items()|
    ensures cluster'.uid == cluster.uid && cluster'.name == cluster.name && cluster'.version == cluster.version
    ensures NamespacePass(cluster, clusterPods, e, cluster', clusterPods', drawn)
    ensures ClusterIdsIn(cluster', pool + drawn) && Within(PodIds(clusterPods'), pool + drawn)
    ensures ViewOf(cluster', clusterPods') == Step(ViewOf(cluster, clusterPods), e)
  {
    ghost var before := ViewOf(cluster, clusterPods);
    ghost var issued0 := gen.issued;
    var nsUid := gen.NewUid();
    var nsFact := NamespaceFact(e.ns, CREATED, nsUid);
    var grouped := AppendDeployments(gen, cluster.deployments, e.ns.name, e.deployments.Items());
    clusterPods' := AppendPods(gen, clusterPods, e.pods.Items());
    cluster' := cluster.(namespaces := cluster.namespaces + [nsFact],
                         deployments := grouped,
                         pods := cluster.pods[e.ns.name := clusterPods']);
    assert ViewOf(cluster', clusterPods') == Step(before, e) by {
      ghost var after := Step(before, e);
      MapSeqSnoc(cluster.namespaces, nsFact, NamespaceWithoutUid);
      MapValuesUpdate(cluster.pods, e.ns.name, clusterPods', PodsWithoutUid);
      assert MapValues(cluster.pods[e.ns.name := clusterPods'], PodsWithoutUid) == after.pods;
    }

    ghost var oldDeps := Lookup(cluster.deployments, e.ns.name);
    ghost var newDeps := Lookup(grouped, e.ns.name)[|oldDeps|..];
    ghost var newPods := clusterPods'[|clusterPods|..];
    assert Lookup(grouped, e.ns.name) == oldDeps + newDeps;
    assert clusterPods' == clusterPods + newPods;
    drawn := [nsUid] + DeploymentIds(newDeps) + PodIds(newPods);
    assert gen.issued == issued0 + [nsUid] + DeploymentIds(newDeps) + PodIds(newPods);
    AppendAssoc(issued0 + [nsUid], DeploymentIds(newDeps), PodIds(newPods));
    AppendAssoc(issued0, [nsUid], DeploymentIds(newDeps) + PodIds(newPods));
    AppendAssoc([nsUid], DeploymentIds(newDeps), PodIds(newPods));
    IdsStayIssued(cluster, clusterPods, cluster', clusterPods', e.ns.name, newDeps, newPods, pool);
  }

  /** Facts added by one namespace pass carry identifiers from the pool extended with those drawn. */
  lemma IdsStayIssued(cluster: Cluster, clusterPods: seq<Pod>, cluster': Cluster, clusterPods': seq<Pod>,
                      name: string, newDeps: seq<Deployment>, newPods: seq<Pod>, pool: seq<Uid>)
    requires ClusterIdsIn(cluster, pool) && Within(PodIds(clusterPods), pool)
    requires |cluster'.namespaces| == |cluster.namespaces| + 1
    requires cluster'.namespaces[..|cluster.namespaces|] == cluster.namespaces
    requires cluster'.deployments == cluster.deployments
          || cluster'.deployments == cluster.deployments[name := Lookup(cluster'.deployments, name)]
    requires Lookup(cluster'.deployments, name) == Lookup(cluster.deployments, name) + newDeps
    requires cluster'.pods == cluster.pods[name := clusterPods']
    requires clusterPods' == clusterPods + newPods
    ensures var pool' := pool + ([cluster'.namespaces[|cluster.namespaces|].uid]
                                  + DeploymentIds(newDeps) + PodIds(newPods));
      ClusterIdsIn(cluster', pool') && Within(PodIds(clusterPods'), pool')
  {
    var nsId := cluster'.namespaces[|cluster.namespaces|].uid;
    var pool' := pool + ([nsId] + DeploymentIds(newDeps) + PodIds(newPods));
    forall i | 0 <= i < |cluster'.namespaces| ensures cluster'.namespaces[i].uid in pool' {
      if i < |cluster.namespaces| {
        assert cluster'.namespaces[i] == cluster.namespaces[i];
      }
    }
    DeploymentIdsAppend(Lookup(cluster.deployments, name), newDeps);
    assert Within(DeploymentIds(Lookup(cluster'.deployments, name)), pool');
    forall n | n in cluster'.deployments ensures Within(DeploymentIds(cluster'.deployments[n]), pool') {
      if n != name {
        assert cluster'.deployments[n] == cluster.deployments[n];
      }
    }
    PodIdsAppend(clusterPods, newPods);
    assert Within(PodIds(clusterPods'), pool');
  }

  /**
   * The deployment loop of `Initialize`: append one fact per deployment
   * under `name`; the identifiers drawn are those of the appended facts, in order.
   */
  method AppendDeployments(gen: UidGenerator, grouped: map<string, seq<Deployment>>, name: string,
                           deployments: seq<DeploymentRecord>) returns (result: map<string, seq<Deployment>>)
    requires gen.Valid()
    requires forall d :: d in deployments ==> d.replicas.Some?
    modifies gen
    ensures gen.Valid()
    ensures deployments == [] ==> result == grouped
    ensures deployments != [] ==> result == grouped[name := Lookup(result, name)]
    ensures |Lookup(result, name)| == |Lookup(grouped, name)| + |deployments|
    ensures Lookup(result, name)[..|Lookup(grouped, name)|] == Lookup(grouped, name)
    ensures gen.issued == old(gen.issued) + DeploymentIds(Lookup(result, name)[|Lookup(grouped, name)|..])
    ensures MapValues(result, DeploymentsWithoutUid)
         == AddDeployments(MapValues(grouped, DeploymentsWithoutUid), name, DeploymentFacts(deployments))
  {
    ghost var added: seq<Deployment> := [];
    result := grouped;
    var j := 0;
    assert DeploymentFacts(deployments[..0]) == [];
    while j < |deployments|
      invariant 0 <= j <= |deployments|
      invariant gen.Valid()
      invariant |added| == j
      invariant result == if j == 0 then grouped else grouped[name := Lookup(grouped, name) + added]
      invariant DeploymentsWithoutUid(added) == DeploymentFacts(deployments[..j])
      invariant gen.issued == old(gen.issued) + DeploymentIds(added)
    {
      var depUid := gen.NewUid();
      var fact := DeploymentFact(deployments[j], CREATED, depUid);
      assert Lookup(result, name) == Lookup(grouped, name) + added;
      ghost var list := Lookup(grouped, name) + (added + [fact]);
      assert Lookup(result, name) + [fact] == list;
      result := result[name := Lookup(result, name) + [fact]];
      assert result == grouped[name := list] by {
        if j > 0 {
          UpdateTwice(grouped, name, Lookup(grouped, name) + added, list);
        }
      }
      assert DeploymentsWithoutUid(added + [fact]) == DeploymentFacts(deployments[..j + 1]) by {
        MapSeqSnoc(added, fact, DeploymentWithoutUid);
        DeploymentFactsSnoc(deployments, j);
      }
      assert gen.issued == old(gen.issued) + DeploymentIds(added + [fact]) by {
        DeploymentIdsAppend(added, [fact]);
        assert DeploymentIds([fact]) == [depUid];
        AppendAssoc(old(gen.issued), DeploymentIds(added), [depUid]);
      }
      added := added + [fact];
      j := j + 1;
    }
    assert deployments[..j] == deployments;
    assert Lookup(result, name) == Lookup(grouped, name) + added;
    assert Lookup(result, name)[|Lookup(grouped, name)|..] == added;
    GroupedWithoutUid(grouped, name, added);
  }

  lemma UpdateTwice(m: map<string, seq<Deployment>>, k: string, v: seq<Deployment>, w: seq<Deployment>)
    ensures m[k := v][k := w] == m[k := w]
  {
  }

  /** Clearing identifiers commutes with appending facts under a name. */
  lemma GroupedWithoutUid(grouped: map<string, seq<Deployment>>, name: string, added: seq<Deployment>)
    ensures MapValues(if added == [] then grouped else grouped[name := Lookup(grouped, name) + added],
                      DeploymentsWithoutUid)
         == AddDeployments(MapValues(grouped, DeploymentsWithoutUid), name, DeploymentsWithoutUid(added))
  {
    if added != [] {
      MapValuesUpdate(grouped, name, Lookup(grouped, name) + added, DeploymentsWithoutUid);
      LookupWithoutUid(grouped, name);
      MapSeqAppend(Lookup(grouped, name), added, DeploymentWithoutUid);
    }
  }

  lemma MapSeqAppend<A>(s: seq<A>, t: seq<A>, f: A -> A)
    ensures MapSeq(s + t, f) == MapSeq(s, f) + MapSeq(t, f)
  {
  }

  /**
   * The pod loop of `Initialize`: append one fact per pod to the shared pod
   * list; the identifiers drawn are those of the appended facts, in order.
   */
  method AppendPods(gen: UidGenerator, clusterPods: seq<Pod>, pods: seq<PodRecord>) returns (result: seq<Pod>)
    requires gen.Valid()
    modifies gen
    ensures gen.Valid()
    ensures |result| == |clusterPods| + |pods| && result[..|clusterPods|] == clusterPods
    ensures gen.issued == old(gen.issued) + PodIds(result[|clusterPods|..])
    ensures PodsWithoutUid(result) == PodsWithoutUid(clusterPods) + PodFacts(pods)
  {
    ghost var added: seq<Pod> := [];
    result := clusterPods;
    var k := 0;
    assert PodFacts(pods[..0]) == [];
    while k < |pods|
      invariant 0 <= k <= |pods|
      invariant gen.Valid()
      invariant result == clusterPods + added && |added| == k
      invariant gen.issued == old(gen.issued) + PodIds(added)
      invariant PodsWithoutUid(result) == PodsWithoutUid(clusterPods) + PodFacts(pods[..k])
    {
      var images := ImagesFromContainers(pods[k].containers);
      var podUid := gen.NewUid();
      var fact := Pod(pods[k].name, pods[k].namespace, pods[k].labels, images, CREATED, POD_KIND, podUid);
      assert PodWithoutUid(fact) == PodFact(pods[k], CREATED, NO_UID);
      PodFactsSnoc(pods, k);
      MapSeqSnoc(result, fact, PodWithoutUid);
      assert gen.issued == old(gen.issued) + PodIds(added + [fact]) by {
        PodIdsAppend(added, [fact]);
        assert PodIds([fact]) == [podUid];
        AppendAssoc(old(gen.issued), PodIds(added), [podUid]);
      }
      result := result + [fact];
      added := added + [fact];
      k := k + 1;
    }
    assert pods[..k] == pods;
    assert result[|clusterPods|..] == added;
  }

  /** `imagesFromContainers`: the image of each container, in container order. */
  method ImagesFromContainers(containers: seq<Container>) returns (images: seq<string>)
    ensures |images| == |containers|
    ensures forall i :: 0 <= i < |containers| ==> images[i] == containers[i].image
    ensures images == ImagesOf(containers)
  {
    images := [];
    var i := 0;
    while i < |containers|
      invariant 0 <= i <= |containers|
      invariant |images| == i
      invariant forall j :: 0 <= j < i ==> images[j] == containers[j].image
    {
      images := images + [containers[i].image];
      i := i + 1;
    }
  }
}
