# pod-rescheduler utilities — a Dafny model

This project models the two pieces of decision logic in the `utils` package
of the pod rescheduler:

- **Workload-group key derivation.** A pod created by a controller carries a
  name-generation prefix (`GenerateName`, e.g. `web-`). The group key is that
  prefix with its last byte removed (`web`); a pod with an empty prefix
  belongs to no group (the Go function returns a nil pointer, modelled as
  `None`). Go strings are byte sequences, so strings are modelled as
  `seq<byte>`: `len` and slicing count bytes.
- **The pending-action set (`PodSet`).** A set of pod identities with
  `NewPodSet`, `Add`, `Remove`, `Has` and `HasId`, where a pod's identity is
  exactly its object name. The Go type guards a `map[string]struct{}` with a
  mutex whose only job is to make each call atomic, so each call on a set
  made by `NewPodSet` is modelled as one pure transition on a `set` of names
  (`HasId` is membership in it; what membership means after a sequence of
  calls is stated by `PodSetHistory.ReplayHasId`).
  Because every call is atomic, any concurrent use is equivalent to some
  sequence of calls; the module `PodSetHistory` replays such sequences and
  proves what the resulting set contains.

Files: `wrappers.dfy` (`Option`), `pods.dfy` (bytes, strings, the pod
record), `group_name.dfy` (utils/utils.go), `pod_set.dfy` and
`pod_set_history.dfy` (utils/podset.go).

The code strips whichever byte comes last; it does not check that the byte
is a separator. The model follows the code: `GroupName.LastByteIgnored`
states that prefixes differing only in their last byte (`web-` and `web.`)
fall into the same group.

## Model

| member | source | states |
|---|---|---|
| GroupName.PodGroupName | utils/utils.go:9-15 | the key is nil exactly when the prefix is empty; otherwise it is one byte shorter and the prefix is the key followed by the prefix's last byte |
| GroupName.GetPodGroupName | utils/utils.go:5-7 | a pod has no group exactly when its name-generation prefix is empty; otherwise its key followed by one byte is that prefix |
| GroupName.GroupNameOfExtension | utils/utils.go:10-12 | inverse direction: any key followed by any byte derives back to that key |
| GroupName.GroupNameIsPrefix | utils/utils.go:11 | a non-empty prefix always yields a key, and the key is a prefix of it |
| GroupName.OneByteGivesEmptyKey | utils/utils.go:10-12 | a one-byte prefix yields a present but empty key, not nil |
| GroupName.GroupNameIgnoresName | utils/utils.go:5-7 | the key depends on the name-generation prefix only: pods with equal prefixes get equal key strings (the pointers Go returns are distinct) |
| GroupName.LastByteIgnored | utils/utils.go:11 | two non-empty prefixes give the same key exactly when they agree on everything but the last byte |
| PodSets.NewPodSet | utils/podset.go:14-19 | a new set contains no id |
| PodSets.PodIdentityIsName | utils/podset.go:44-46 | records the definition of identity: two pods share an identity exactly when they share a name |
| PodSets.HasId | utils/podset.go:37-42 | an id is found exactly when taking it out would shrink the set, and then by exactly one |
| PodSets.Has | utils/podset.go:33-35 | a pod is found exactly when adding it would change nothing, and absent exactly when removing it would change nothing |
| PodSets.Add | utils/podset.go:21-25 | afterwards the pod is present; the membership of every other name is unchanged |
| PodSets.Remove | utils/podset.go:27-31 | afterwards the pod is absent; the membership of every other name is unchanged |
| PodSets.AddIdempotent | utils/podset.go:24 | adding the same pod twice gives the same set as adding it once |
| PodSets.RemoveAbsentIsNoOp | utils/podset.go:30 | removing a pod that is absent leaves the set unchanged |
| PodSets.SameNameIndistinguishable | utils/podset.go:33-46 | pods with equal names cannot be told apart by `Has`, `Add` or `Remove` |
| PodSetHistory.ReplayHasId | utils/podset.go:21-42 | after any sequence of calls, a name is present exactly when the last call naming it was an add, or no call named it and it was present before |
| PodSetHistory.FreshReplayHasId | utils/podset.go:14-42 | starting from a new set, a name is present exactly when the last call naming it was an add |
| PodSetHistory.ReplayConcat | utils/podset.go:21-31 | a law of the history model rather than of the set: performing two call sequences one after another equals performing their concatenation |
| PodSetHistory.ReplayOnlyOwnCallsMatter | utils/podset.go:21-31 | calls on other pods never change a name's membership: it equals the outcome of that name's own calls alone |
| PodSetHistory.SameProjectionsSameSet | utils/podset.go:21-31 | any two interleavings that keep each pod's own calls in the same order yield the same set |
| PodSetHistory.StepsOnDistinctPodsCommute | utils/podset.go:21-31 | calls on pods with different names commute |
| PodSetHistory.SwapDistinctAdjacent | utils/podset.go:21-31 | anywhere inside a longer history, swapping two adjacent calls on differently named pods leaves the final set unchanged |

## Left out

- main.go: kubeconfig and flag parsing, client construction, listing nodes, deployments, replica sets and pods, a fixed pod lookup, printing and the ten-second sleep loop are I/O with no decision logic.
- GroupName.PodGroupName: each non-nil result in Go is a freshly allocated `*string` (the address of the parameter's own variable), so two calls never return equal pointers; the model compares the pointed-to key strings, not the pointers, and `GroupName.GroupNameIgnoresName` is about equal key strings only.
- PodSets.Add: only sets made by `NewPodSet` are modelled. A zero-value `PodSet` has a nil map, on which `Add` panics (assignment to entry in nil map) while `Remove` and `HasId` succeed; a nil `*PodSet` receiver panics in every method at the lock. Neither state exists in the model.
- The `sync.Mutex` in `PodSet`: each call is one atomic transition; linearizability of the Go implementation is not verified.
- `corev1.Pod` beyond `Name` and `GenerateName`; a nil `*Pod` argument (which panics in Go on dereference) cannot be expressed, since a pod is a value.
- Byte strings only: removing the last byte of a prefix whose last character is multi-byte UTF-8 leaves a partial character; the model, like Go, does not care.
- Colocation analysis, replica-count gating, target-node selection, eviction and readiness polling: the repository's code contains none of these, so they are not modelled.
