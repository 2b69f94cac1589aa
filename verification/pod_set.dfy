/**
 * The set of pods with an action in flight. The Go type guards a
 * `map[string]struct{}` with a mutex; the lock only makes each call atomic,
 * so here each operation is one pure state transition on a set of ids.
 */
module PodSets {
  import opened Pods

  /** A pod's identity in the set: its object name and nothing else. */
  type PodId = GoString

  datatype PodSet = PodSet(ids: set<PodId>)

  /** The key under which a pod is stored. */
  function PodIdOf(pod: Pod): (id: PodId) {
    pod.name
  }

  /**
   * Records the definition of identity: two pods share an identity exactly
   * when they share a name, so no other field takes part.
   */
  lemma PodIdentityIsName(p: Pod, q: Pod)
    ensures PodIdOf(p) == PodIdOf(q) <==> p.name == q.name
  {
  }

  /** A freshly created set: no id is present. */
  function NewPodSet(): (s: PodSet)
    ensures forall id :: !HasId(s, id)
  {
    PodSet({})
  }

  /** Looks `id` up: it is present exactly when taking it out would shrink the set by one. */
  function HasId(s: PodSet, id: PodId): (found: bool)
    ensures found <==> s.ids - {id} != s.ids
    ensures found ==> |s.ids - {id}| == |s.ids| - 1
  {
    id in s.ids
  }

  /**
   * Looks a pod up by its identity: it is present exactly when adding it
   * would change nothing, and absent exactly when removing it would change nothing.
   */
  function Has(s: PodSet, pod: Pod): (found: bool)
    ensures found <==> s.ids + {pod.name} == s.ids
    ensures !found <==> s.ids - {pod.name} == s.ids
  {
    HasId(s, PodIdOf(pod))
  }

  /** Records `pod`; the membership of every other id is unchanged. */
  function Add(s: PodSet, pod: Pod): (r: PodSet)
    ensures Has(r, pod)
    ensures forall id :: id != pod.name ==> HasId(r, id) == HasId(s, id)
  {
    PodSet(s.ids + {PodIdOf(pod)})
  }

  /** Forgets `pod`; the membership of every other id is unchanged. */
  function Remove(s: PodSet, pod: Pod): (r: PodSet)
    ensures !Has(r, pod)
    ensures forall id :: id != pod.name ==> HasId(r, id) == HasId(s, id)
  {
    PodSet(s.ids - {PodIdOf(pod)})
  }

  /** Adding a pod that is already present leaves the set as it was. */
  lemma AddIdempotent(s: PodSet, pod: Pod)
    ensures Add(Add(s, pod), pod) == Add(s, pod)
  {
  }

  /** Removing a pod that is absent leaves the set as it was. */
  lemma RemoveAbsentIsNoOp(s: PodSet, pod: Pod)
    requires !Has(s, pod)
    ensures Remove(s, pod) == s
  {
  }

  /** Pods with equal names are indistinguishable to every operation. */
  lemma SameNameIndistinguishable(s: PodSet, p: Pod, q: Pod)
    requires p.name == q.name
    ensures Has(s, p) == Has(s, q) == HasId(s, p.name)
    ensures Add(s, p) == Add(s, q)
    ensures Remove(s, p) == Remove(s, q)
  {
  }
}
