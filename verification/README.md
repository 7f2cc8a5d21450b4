# Cluster inventory engine: a verified model

This project models the hand-written inventory logic of the watch proxy's
`kubecluster` package in Dafny. The package reports Kubernetes namespaces,
deployments and pods to a remote collector as inventory facts. The model
covers five parts:

- **Snapshot builder (`Initialize`).** It lists every namespace, and for each
  one its deployments and its pods. It then assembles one `Cluster` value from
  the results. That value holds the namespace facts in listing order. It also
  holds a `Deployments` map and a `Pods` map, both keyed by namespace name.
- **Watcher handlers.** There is one handler per watched resource kind. Each
  turns an add, update or delete notification into one fact tagged with a
  fixed `Event` and `Kind`.
- **Watcher lifecycle (`StartWatchers`, `StopWatchers`).** `StartWatchers`
  picks the resource list to watch and makes a stop channel for each
  supported name. It then starts that name's watcher. `StopWatchers` sends on
  the channel of each stale name. The channels are unbuffered and each
  watcher receives once, so a send to a name with no channel or to a watcher
  already stopped hangs the call.
- **Identifier generator (`NewUID`).** It remembers the last identifier it
  issued. It keeps drawing time-based candidates until one differs from that
  identifier.
- **Small helpers.** `imagesFromContainers` and `GetClusterName`.

Files and modules:

- `resources.dfy` (`Resources`): the API objects the code reads and the
  result of a list call. A failed list call has no items, because the typed
  client returns an empty list object together with the error.
- `inventory.dfy` (`Inventory`): the facts and the cluster, and the builders
  that both the snapshot and the handlers use. It also holds a view of a fact
  with its identifier cleared.
- `uids.dfy` (`Uids`): the class `UidGenerator`. Its `last` field stands for
  `lastUUID`. The UUID library is modelled as a candidate stream `source`.
  The assumption `Advances(source, window)` says the candidate changes
  within `window` draws. That assumption is what ends the retry loop.
- `snapshot.dfy` (`Snapshot`): `Assemble` is the snapshot builder's result,
  defined one namespace at a time and without identifiers. It comes with
  lemmas about it. `Initialize` is the imperative builder, proved to produce
  `Assemble`'s result up to identifiers.
- `watchers.dfy` (`Watchers`): the handler translation `Translate`, one
  handler call, `StartWatchers` and `StopWatchers`, and lemmas relating them.

Inputs that the model takes as parameters:

- the list results;
- the discovered server version;
- the node list used to read the cluster name;
- the candidate stream of the UUID library.

## Model

| member | source | states |
|---|---|---|
| `Inventory.ImagesOf` | kubecluster/kubecluster.go:357-365 | one image per container, in container order: the result has the input's length and element i is container i's image (empty for no containers) |
| `Snapshot.ImagesFromContainers` | kubecluster/kubecluster.go:357-365 | the appending loop returns exactly the containers' images in order, the same length as the input |
| `Uids.UidGenerator.constructor` | kubecluster/kubecluster.go:25-28 | the generator starts with the zero identifier as its last value and nothing issued |
| `Uids.UidGenerator.NewUid` | kubecluster/kubecluster.go:368-381 | the returned id differs from the previous last id and becomes the new last id; it is the first drawn candidate that differs (all skipped candidates equal the old last id); at most window+1 candidates are drawn; the issued history keeps no two consecutive ids equal |
| `Snapshot.GetClusterName` | kubecluster/kubecluster.go:172-181 | needs a non-empty node list; returns the first node's `cluster-name` label, or "" when the label is absent |
| `Snapshot.Initialize` | kubecluster/kubecluster.go:30-99 | the cluster's facts, identifiers cleared, equal the assembled snapshot of the listed namespaces; its name comes from the node list, its version is the given one, and its id is the first id issued in the call; the call issues exactly one id for the cluster and one per namespace, deployment and pod fact, keeps the earlier history as a prefix, and every fact's id is one issued after the cluster's; the generator stays valid |
| `Snapshot.AddNamespace` | kubecluster/kubecluster.go:48-95 | one pass of the namespace loop advances the loop state by exactly one `Step` for that namespace, keeps the earlier facts in place, and issues exactly the ids of the new namespace, deployment and pod facts, in that order |
| `Snapshot.AppendDeployments` | kubecluster/kubecluster.go:59-76 | appends one created/deployment fact per listed deployment under the namespace's key, keeping the facts already there and adding no key when there are none; the ids issued are exactly those of the appended facts, in order |
| `Snapshot.AppendPods` | kubecluster/kubecluster.go:78-93 | appends one created/pod fact per listed pod to the shared pod list, in listing order, keeping the list's earlier facts; the ids issued are exactly those of the appended facts, in order |
| `Snapshot.NamespacesInListingOrder` | kubecluster/kubecluster.go:44-57 | one namespace fact per listed namespace, in listing order, each with that name, `Event` "created" and `Kind` "namespace"; a failed listing gives none |
| `Snapshot.PodKeysAreListedNamespaces` | kubecluster/kubecluster.go:82-94 | `Pods` has a key for every listed namespace, even one with no pods or a failed pod listing, and for nothing else |
| `Snapshot.AllPods` | kubecluster/kubecluster.go:82-93 | every pod fact of the snapshot is tagged `Event` "created" and `Kind` "pod" |
| `Snapshot.ClusterPodsAccumulate` | kubecluster/kubecluster.go:35-93 | the shared pod list after k namespaces is the concatenation of the pod facts of namespaces 1..k |
| `Snapshot.PodsOfNamespaceAccumulate` | kubecluster/kubecluster.go:35-94 | `Pods[ns_k]` is the concatenation of the pod facts of namespaces 1..k, not only those of ns_k (k being the last position of that name) |
| `Snapshot.DeploymentsNamed` | kubecluster/kubecluster.go:63-75 | the deployment facts gathered under a name are tagged created/deployment and are empty for a name that is not listed |
| `Snapshot.DeploymentsGroupedByNamespace` | kubecluster/kubecluster.go:59-75 | `Deployments` has a key exactly for the names whose listings gave at least one deployment, holding those facts in listing order |
| `Snapshot.DeploymentsNamedUnique` | kubecluster/kubecluster.go:59-75 | with unique namespace names, the facts gathered under a name are those of that namespace's own deployments |
| `Snapshot.DeploymentsOfNamespace` | kubecluster/kubecluster.go:59-75 | with unique namespace names, a namespace has a `Deployments` key exactly when it has deployments, and then one fact per deployment in order, with the deployment's name, namespace, labels and desired replicas, tagged created/deployment |
| `Snapshot.KeysAreListedNamespaces` | kubecluster/kubecluster.go:48-94 | every `Deployments` key is a `Pods` key, and the `Pods` keys are exactly the names of the namespace facts |
| `Snapshot.IntendedPodsOfNamespace` | kubecluster/kubecluster.go:82-94 | corrected definition: each namespace's entry holds exactly its own pods, in listing order |
| `Snapshot.PodsLeakIntoLaterNamespace` | kubecluster/kubecluster.go:35-94 | as written, namespace "a" with one pod followed by "b" with a failed pod listing files a's pod under "b", where the corrected map holds none |
| `Watchers.Translate` | kubecluster/kubecluster.go:193-344 | add gives "created" and delete gives "deleted" for all three kinds; update gives "modified" for pods only, built from the new object; namespace and deployment updates give no fact; `Kind` is the watcher's constant; the fact copies the object's fields and carries the given id |
| `Watchers.HandleNotification` | kubecluster/kubecluster.go:193-344 | a handled notification draws one fresh id, different from the previous one, and yields the translated fact; an unhandled one draws no id and yields nothing |
| `Watchers.WatchList` | kubecluster/kubecluster.go:105-112 | the newly requested resources when there are any, otherwise the standing watch list |
| `Watchers.StartWatchers` | kubecluster/kubecluster.go:102-148 | returns the channel map and the started watchers that the list prescribes: one per watchable entry, in order |
| `Watchers.StopWatchers` | kubecluster/kubecluster.go:151-159 | sends on the channel of each stale name in list order, each to a distinct watcher that is still running; the call hangs (`blocked`) exactly when it stops short, and then at a name with no channel (a nil-channel send), a watcher stopped before the call, or a watcher already signalled in this call (the channels made at lines 122, 130 and 137 are unbuffered, and each watcher receives once, at lines 234, 285 and 350) |
| `Watchers.RepeatedStopBlocks` | kubecluster/kubecluster.go:122-159 | a stale name listed twice makes the call hang, no later than its second occurrence |
| `Watchers.StopOfStoppedBlocks` | kubecluster/kubecluster.go:122-159 | a stale name whose watcher an earlier call already stopped makes the call hang at or before that name |
| `Watchers.DoneChannelKeys` | kubecluster/kubecluster.go:116-143 | the channel map's keys are exactly the names in the list that are "namespaces", "pods" or "deployments" |
| `Watchers.DoneChannelIsLastMade` | kubecluster/kubecluster.go:119-143 | a name's channel is the one made at its last position in the list, and the name is watchable |
| `Watchers.LaunchesAreWatchablePositions` | kubecluster/kubecluster.go:119-143 | a watcher is started for each watchable position with the channel made there, and for nothing else; unsupported names start nothing |
| `Watchers.StopIsolation` | kubecluster/kubecluster.go:102-159 | on the first stop after a start, when each resource is listed once and the stale names are distinct and have channels, the call does not hang and a started watcher gets a stop signal exactly when its resource is stale, so stopping one kind leaves the others running |
| `Watchers.RepeatedNameOrphansWatcher` | kubecluster/kubecluster.go:119-143 | a watchable name listed twice starts two watchers, but the map keeps only the later channel, so the earlier watcher can never be stopped |

## Left out

- `Version` (kubecluster/kubecluster.go:162-170) is a discovery call that dereferences a result that may be nil. The version is a parameter of `Initialize`.
- Goroutines, channels, `controller.Run`, the `<-done`/`close(stop)` handshake and the informer resync periods are left out. They are concurrency and library machinery. A stop channel is modelled as a handle, and a sent stop signal as an entry in an output sequence.
- The mutex around `NewUID` is left out. The generator is modelled sequentially.
- The UUID library's time-based generation is left out. It is replaced by the candidate stream `source` and the `Advances` assumption.
- Identifiers are modelled as their text form, not as 16 bytes.
- `emitter.EmitChanges` and all logging are left out. `Initialize` and `HandleNotification` return the value that would be emitted.
- A delete notification carrying the informer's tombstone object is not modelled. The handler's type assertion would panic on it.
- `Snapshot.Initialize`: states which id the cluster receives and that every fact's id is one issued after it, but not which issued id each individual fact receives. `AddNamespace`, `AppendDeployments` and `AppendPods` pin the ids of each pass down exactly.
- `Snapshot.GetClusterName` needs a non-empty node list. A failed or empty node listing makes the source panic at `nodes.Items[0]`.
- A nil `Spec.Replicas` is not modelled. The source dereferences it, so the model requires it to be present (`ReplicasPresent`, `Dereferenceable`).
- A send that blocks forever is modelled as the flag `blocked` and the end of the signals sent. What happens to the rest of the program while the call hangs is not modelled.
- `Watchers.StopWatchers` takes the set of watchers stopped by earlier calls as a parameter (`stopped`). The model does not thread that set from one call to the next.
- The two nested loops of `Initialize` are written as the helper methods `AppendDeployments` and `AppendPods`, called from `AddNamespace`.
- The generated custom-resource client (`custom/client/...`) is not part of this model. It is library plumbing.

## Findings

| source | as written | input that shows it | evidently intended | confidence | as-written member | corrected member |
|---|---|---|---|---|---|---|
| kubecluster/kubecluster.go:35-94 | `clusterPods` is declared once before the namespace loop and never reset, so `Pods[ns]` receives the pods of every namespace listed up to and including `ns` | namespace "a" with one pod, then namespace "b" whose pod listing fails: `Pods["b"]` holds a's pod | `Pods[ns]` holds only the pods of `ns`, as a map keyed by namespace suggests | not executed; high | `Snapshot.PodsLeakIntoLaterNamespace` | `Snapshot.IntendedPodsOfNamespace` |

`Initialize` and `Assemble` keep the code's behaviour, because that is what the
collector receives. `IntendedPods` is the corrected map.
