/**
 * The resource watchers and their lifecycle: the handler each watcher runs
 * for a change notification, and `StartWatchers`/`StopWatchers`, which pick
 * the watchers to run and signal the stale ones to stop.
 */
module Watchers {
  import opened Resources
  import opened Inventory
  import opened Uids

  /** A change notification as the informer delivers it to a handler. */
  datatype Change<T> = Added(obj: T) | Updated(oldObj: T, newObj: T) | Deleted(obj: T) {
    /** The object a handler reads: the new one for an update. */
    function Current(): T {
      if Updated? then newObj else obj
    }
  }

  /** A notification of one of the three watched resource kinds. */
  datatype Notification =
    | OnNamespace(ns: Change<NamespaceRecord>)
    | OnDeployment(dep: Change<DeploymentRecord>)
    | OnPod(pod: Change<PodRecord>)
  {
    predicate IsAdd() {
      match this
      case OnNamespace(c) => c.Added?
      case OnDeployment(c) => c.Added?
      case OnPod(c) => c.Added?
    }

    predicate IsUpdate() {
      match this
      case OnNamespace(c) => c.Updated?
      case OnDeployment(c) => c.Updated?
      case OnPod(c) => c.Updated?
    }

    predicate IsDelete() {
      match this
      case OnNamespace(c) => c.Deleted?
      case OnDeployment(c) => c.Deleted?
      case OnPod(c) => c.Deleted?
    }

    /** The `Kind` tag of the watcher that receives this notification. */
    function WatchedKind(): string {
      match this
      case OnNamespace(_) => NAMESPACE_KIND
      case OnDeployment(_) => DEPLOYMENT_KIND
      case OnPod(_) => POD_KIND
    }
  }

  /** One inventory fact, as a handler hands it to the emitter. */
  datatype Fact = NamespaceEvent(namespace: Namespace) | DeploymentEvent(deployment: Deployment) | PodEvent(pod: Pod) {
    function Event(): string {
      match this
      case NamespaceEvent(n) => n.event
      case DeploymentEvent(d) => d.event
      case PodEvent(p) => p.event
    }

    function Kind(): string {
      match this
      case NamespaceEvent(n) => n.kind
      case DeploymentEvent(d) => d.kind
      case PodEvent(p) => p.kind
    }

    function Id(): Uid {
      match this
      case NamespaceEvent(n) => n.uid
      case DeploymentEvent(d) => d.uid
      case PodEvent(p) => p.uid
    }
  }

  /** The deployment handlers dereference `Spec.Replicas` of the object they receive. */
  predicate Dereferenceable(n: Notification) {
    n.OnDeployment? && !n.dep.Updated? ==> n.dep.Current().replicas.Some?
  }

  /** Whether the watcher registered a handler for this change (only pods handle updates). */
  predicate Handled(n: Notification) {
    n.OnPod? || !n.IsUpdate()
  }

  /**
   * The handler bodies of the three watchers: the fact each one builds for a
   * notification with the identifier `uid`, or None where no handler is
   * registered.
   */
  function Translate(n: Notification, uid: Uid): (r: Option<Fact>)
    requires Dereferenceable(n)
    ensures n.IsAdd() ==> r.Some? && r.value.Event() == CREATED
    ensures n.IsDelete() ==> r.Some? && r.value.Event() == DELETED
    ensures n.IsUpdate() ==> (r.Some? <==> n.OnPod?)
    ensures n.IsUpdate() && r.Some? ==> r.value.Event() == MODIFIED
    ensures r.Some? ==> r.value.Kind() == n.WatchedKind() && r.value.Id() == uid
    ensures r.Some? && n.OnNamespace? ==> r.value.NamespaceEvent? && r.value.namespace.name == n.ns.obj.name
    ensures r.Some? && n.OnDeployment? ==>
      var d := n.dep.Current();
      && r.value.DeploymentEvent?
      && r.value.deployment.name == d.name && r.value.deployment.namespace == d.namespace
      && r.value.deployment.labels == d.labels && Some(r.value.deployment.replicasDesired) == d.replicas
    ensures r.Some? && n.OnPod? ==>
      var p := n.pod.Current();
      && r.value.PodEvent?
      && r.value.pod.name == p.name && r.value.pod.namespace == p.namespace
      && r.value.pod.labels == p.labels && r.value.pod.images == ImagesOf(p.containers)
  {
    match n
    case OnNamespace(Added(ns)) => Some(NamespaceEvent(NamespaceFact(ns, CREATED, uid)))
    case OnNamespace(Deleted(ns)) => Some(NamespaceEvent(NamespaceFact(ns, DELETED, uid)))
    case OnNamespace(Updated(_, _)) => None
    case OnDeployment(Added(d)) => Some(DeploymentEvent(DeploymentFact(d, CREATED, uid)))
    case OnDeployment(Deleted(d)) => Some(DeploymentEvent(DeploymentFact(d, DELETED, uid)))
    case OnDeployment(Updated(_, _)) => None
    case OnPod(Added(p)) => Some(PodEvent(PodFact(p, CREATED, uid)))
    case OnPod(Deleted(p)) => Some(PodEvent(PodFact(p, DELETED, uid)))
    case OnPod(Updated(_, p)) => Some(PodEvent(PodFact(p, MODIFIED, uid)))
  }

  /**
   * One handler call: a handled notification draws a fresh identifier and
   * yields the fact that is emitted; an unhandled one does nothing.
   */
  method HandleNotification(gen: UidGenerator, n: Notification) returns (fact: Option<Fact>)
    requires gen.Valid() && Dereferenceable(n)
    modifies gen
    ensures gen.Valid()
    ensures Handled(n) ==> fact == Translate(n, gen.last) && gen.issued == old(gen.issued) + [gen.last]
    ensures Handled(n) ==> fact.Some? && fact.value.Id() != old(gen.last)
    ensures !Handled(n) ==> fact.None? && gen.issued == old(gen.issued) && gen.last == old(gen.last)
  {
    if Handled(n) {
      var uid := gen.NewUid();
      fact := Translate(n, uid);
    } else {
      fact := None;
    }
  }

  // Watcher lifecycle.

  /** The resource names for which a watcher exists. */
  const WATCHABLE: set<string> := {"namespaces", "pods", "deployments"}

  /**
   * A stop channel. Every channel is made afresh, so a channel is told apart
   * by the position in the resource list at which it was made.
   */
  type Handle = nat

  datatype Config = Config(
    remoteEndpoint: string,
    resourcesWatch: seq<string>,
    newResources: seq<string>,
    staleResources: seq<string>)

  /** A started watcher: the resource it watches and the channel that stops it. */
  datatype Launch = Launch(resource: string, done: Handle)

  /** The resources to start: the newly requested ones if there are any, else the standing list. */
  function WatchList(config: Config): (resources: seq<string>)
    ensures |config.newResources| > 0 ==> resources == config.newResources
    ensures |config.newResources| == 0 ==> resources == config.resourcesWatch
  {
    if |config.newResources| > 0 then config.newResources else config.resourcesWatch
  }

  /** The map `StartWatchers` returns: each watchable name to the channel made for it last. */
  function DoneChannels(resources: seq<string>): map<string, Handle>
    decreases |resources|
  {
    if resources == [] then map[]
    else
      var i := |resources| - 1;
      var before := DoneChannels(resources[..i]);
      if resources[i] in WATCHABLE then before[resources[i] := i] else before
  }

  /** The watchers `StartWatchers` starts, in order: one per watchable entry. */
  function Launches(resources: seq<string>): seq<Launch>
    decreases |resources|
  {
    if resources == [] then []
    else
      var i := |resources| - 1;
      Launches(resources[..i]) + if resources[i] in WATCHABLE then [Launch(resources[i], i)] else []
  }

  /**
   * `StartWatchers`: for every watchable name in the chosen list, make a
   * stop channel, record it under the name and start that name's watcher.
   */
  method StartWatchers(config: Config) returns (doneChannels: map<string, Handle>, launched: seq<Launch>)
    ensures doneChannels == DoneChannels(WatchList(config))
    ensures launched == Launches(WatchList(config))
  {
    var resources: seq<string>;
    if |config.newResources| > 0 {
      resources := config.newResources;
    } else {
      resources := config.resourcesWatch;
    }
    doneChannels := map[];
    launched := [];
    var i := 0;
    while i < |resources|
      invariant 0 <= i <= |resources|
      invariant doneChannels == DoneChannels(resources[..i])
      invariant launched == Launches(resources[..i])
    {
      assert resources[..i + 1][..i] == resources[..i];
      var resource := resources[i];
      if resource == "namespaces" || resource == "pods" || resource == "deployments" {
        var done: Handle := i;
        doneChannels := doneChannels[resource := done];
        launched := launched + [Launch(resource, done)];
      }
      i := i + 1;
    }
    assert resources[..i] == resources;
  }

  /**
   * What a call of `StopWatchers` gets done. `signals` are the stop signals
   * delivered, in list order, and `blocked` says that the call hangs on the
   * next stale name. The channels are unbuffered and each watcher takes one
   * stop signal and returns, so a send blocks forever when the name has no
   * channel (a nil channel), or when its watcher has already been stopped:
   * by an earlier call (`stopped`) or earlier in this call.
   */
  ghost predicate StopOutcome(doneChannels: map<string, Handle>, stale: seq<string>, stopped: set<Handle>,
                              signals: seq<Handle>, blocked: bool)
  {
    && |signals| <= |stale|
    && (forall i :: 0 <= i < |signals| ==>
          stale[i] in doneChannels && signals[i] == doneChannels[stale[i]] && signals[i] !in stopped)
    && (forall i, j :: 0 <= i < j < |signals| ==> signals[i] != signals[j])
    && (blocked <==> |signals| < |stale|)
    && (blocked ==> var next := stale[|signals|];
          next !in doneChannels || doneChannels[next] in stopped || doneChannels[next] in signals)
  }

  /**
   * `StopWatchers`: send a stop signal on the channel of every stale name,
   * in list order. `stopped` holds the channels whose watcher took a stop
   * signal in an earlier call; the call returns with `blocked` set where the
   * source would hang for good on a send nobody receives.
   */
  method StopWatchers(doneChannels: map<string, Handle>, config: Config, stopped: set<Handle>)
    returns (signals: seq<Handle>, blocked: bool)
    ensures StopOutcome(doneChannels, config.staleResources, stopped, signals, blocked)
  {
    var stale := config.staleResources;
    signals := [];
    blocked := false;
    var i := 0;
    while i < |stale| && !blocked
      invariant 0 <= i <= |stale| && |signals| == i
      invariant forall j :: 0 <= j < i ==>
        stale[j] in doneChannels && signals[j] == doneChannels[stale[j]] && signals[j] !in stopped
      invariant forall j, k :: 0 <= j < k < i ==> signals[j] != signals[k]
      invariant blocked ==>
        && i < |stale|
        && (stale[i] !in doneChannels || doneChannels[stale[i]] in stopped || doneChannels[stale[i]] in signals)
      decreases |stale| - i, !blocked
    {
      var name := stale[i];
      if name !in doneChannels || doneChannels[name] in stopped || doneChannels[name] in signals {
        // nil channel, or a watcher that has returned: the send never completes
        blocked := true;
      } else {
        signals := signals + [doneChannels[name]];
        i := i + 1;
      }
    }
  }

  // Properties of the lifecycle.

  /** The returned map has a key for exactly the watchable names of the list. */
  lemma {:induction false} DoneChannelKeys(resources: seq<string>)
    ensures DoneChannels(resources).Keys == set r | r in resources && r in WATCHABLE
  {
    if resources != [] {
      var i := |resources| - 1;
      DoneChannelKeys(resources[..i]);
      assert resources == resources[..i] + [resources[i]];
    }
  }

  /** A name's channel is the one made at its last position in the list. */
  lemma {:induction false} DoneChannelIsLastMade(resources: seq<string>, r: string)
    requires r in DoneChannels(resources)
    ensures r in WATCHABLE
    ensures var h := DoneChannels(resources)[r];
      h < |resources| && resources[h] == r && forall j :: h < j < |resources| ==> resources[j] != r
  {
    var i := |resources| - 1;
    if !(resources[i] == r && r in WATCHABLE) {
      DoneChannelIsLastMade(resources[..i], r);
    }
  }

  /** A watcher is started for each watchable position, with the channel made there, and for nothing else. */
  lemma {:induction false} LaunchesAreWatchablePositions(resources: seq<string>, l: Launch)
    ensures l in Launches(resources) <==>
      l.done < |resources| && resources[l.done] == l.resource && l.resource in WATCHABLE
  {
    if resources != [] {
      var i := |resources| - 1;
      LaunchesAreWatchablePositions(resources[..i], l);
    }
  }

  /**
   * Stopping is isolated: when the list names each resource once and the
   * stale list names each of them once, a first stop call completes, and a
   * started watcher receives a stop signal exactly when its resource is stale.
   */
  lemma StopIsolation(config: Config, l: Launch, signals: seq<Handle>, blocked: bool)
    requires var rs := WatchList(config);
      && (forall i, j :: 0 <= i < j < |rs| ==> rs[i] != rs[j])
      && (forall r :: r in config.staleResources ==> r in DoneChannels(rs))
    requires var stale := config.staleResources;
      forall i, j :: 0 <= i < j < |stale| ==> stale[i] != stale[j]
    requires StopOutcome(DoneChannels(WatchList(config)), config.staleResources, {}, signals, blocked)
    requires l in Launches(WatchList(config))
    ensures !blocked
    ensures l.done in signals <==> l.resource in config.staleResources
  {
    var rs := WatchList(config);
    var stale := config.staleResources;
    var dc := DoneChannels(rs);
    if blocked {
      var next := stale[|signals|];
      assert dc[next] in signals;
      var i :| 0 <= i < |signals| && signals[i] == dc[next];
      DoneChannelIsLastMade(rs, next);
      DoneChannelIsLastMade(rs, stale[i]);
      assert false;
    }
    LaunchesAreWatchablePositions(rs, l);
    if l.resource in stale {
      var i :| 0 <= i < |stale| && stale[i] == l.resource;
      DoneChannelIsLastMade(rs, l.resource);
      assert signals[i] == l.done;
    }
    if l.done in signals {
      var i :| 0 <= i < |signals| && signals[i] == l.done;
      DoneChannelIsLastMade(rs, stale[i]);
      assert stale[i] == l.resource;
    }
  }

  /**
   * A stale name listed twice hangs the stop call: the second send finds no
   * watcher left to receive it, so no name after it is ever signalled.
   */
  lemma RepeatedStopBlocks(doneChannels: map<string, Handle>, stale: seq<string>, stopped: set<Handle>,
                           signals: seq<Handle>, blocked: bool, i: nat, j: nat)
    requires i < j < |stale| && stale[i] == stale[j]
    requires StopOutcome(doneChannels, stale, stopped, signals, blocked)
    ensures blocked && |signals| <= j
  {
  }

  /** A watcher stopped by an earlier call cannot be stopped again: the call hangs on it. */
  lemma StopOfStoppedBlocks(doneChannels: map<string, Handle>, stale: seq<string>, stopped: set<Handle>,
                            signals: seq<Handle>, blocked: bool, i: nat)
    requires i < |stale| && stale[i] in doneChannels && doneChannels[stale[i]] in stopped
    requires StopOutcome(doneChannels, stale, stopped, signals, blocked)
    ensures blocked && |signals| <= i
  {
  }

  /**
   * A watchable name listed twice starts two watchers, but the map keeps
   * only the second channel: the first watcher can never be stopped.
   */
  lemma RepeatedNameOrphansWatcher(resources: seq<string>, i: nat, j: nat)
    requires i < j < |resources| && resources[i] == resources[j] && resources[i] in WATCHABLE
    ensures Launch(resources[i], i) in Launches(resources)
    ensures forall r :: r in DoneChannels(resources) ==> DoneChannels(resources)[r] != i
  {
    LaunchesAreWatchablePositions(resources, Launch(resources[i], i));
    forall r | r in DoneChannels(resources) ensures DoneChannels(resources)[r] != i {
      DoneChannelIsLastMade(resources, r);
    }
  }
}
