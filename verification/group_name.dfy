/**
 * Workload-group key derivation: a pod created by a controller carries the
 * controller's name-generation prefix, and the group key is that prefix
 * without its last byte. A pod without a prefix belongs to no group.
 */
module GroupName {
  import opened Wrappers
  import opened Pods

  /** The group key derived from a name-generation prefix (nil when the prefix is empty). */
  function PodGroupName(generateName: GoString): (key: Option<GoString>)
    ensures key.None? <==> |generateName| == 0
    ensures key.Some? ==> |key.value| == |generateName| - 1
    ensures key.Some? ==> key.value + [generateName[|generateName| - 1]] == generateName
  {
    if |generateName| > 0 then
      Some(generateName[0..|generateName| - 1])
    else
      None
  }

  /** The group key of a pod: read from its name-generation prefix alone. */
  function GetPodGroupName(pod: Pod): (key: Option<GoString>)
    ensures key.None? <==> pod.generateName == []
    ensures key.Some? ==> pod.generateName == key.value + [pod.generateName[|pod.generateName| - 1]]
  {
    PodGroupName(pod.generateName)
  }

  /** Appending any byte to a key and deriving the group name gives the key back. */
  lemma GroupNameOfExtension(key: GoString, last: byte)
    ensures PodGroupName(key + [last]) == Some(key)
  {
    assert (key + [last])[0..|key|] == key;
  }

  /**
   * The key is a prefix of the name-generation prefix it was derived from
   * (a corollary of the contract of `PodGroupName`, stated on its own).
   */
  lemma GroupNameIsPrefix(generateName: GoString)
    requires |generateName| > 0
    ensures PodGroupName(generateName).Some?
    ensures PodGroupName(generateName).value <= generateName
  {
  }

  /** A one-byte prefix yields a present but empty key, not nil. */
  lemma OneByteGivesEmptyKey(generateName: GoString)
    requires |generateName| == 1
    ensures PodGroupName(generateName) == Some([])
  {
  }

  /** Two pods with the same name-generation prefix get the same key, whatever their names. */
  lemma GroupNameIgnoresName(p: Pod, q: Pod)
    requires p.generateName == q.generateName
    ensures GetPodGroupName(p) == GetPodGroupName(q)
  {
  }

  /**
   * The stripped byte is not inspected: prefixes that differ only in their
   * last byte fall into the same group.
   */
  lemma LastByteIgnored(a: GoString, b: GoString)
    requires |a| > 0 && |b| > 0
    ensures PodGroupName(a) == PodGroupName(b) <==> a[..|a| - 1] == b[..|b| - 1]
  {
  }
}
