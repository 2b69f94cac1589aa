/**
 * Histories of calls on one pod set. Because every call holds the set's
 * lock while it touches the map, any concurrent use is equivalent to some
 * sequence of atomic `Add`/`Remove` calls; this module replays such
 * sequences and characterises the resulting set.
 */
module PodSetHistory {
  import opened Wrappers
  import opened Pods
  import opened PodSets

  datatype Op = AddOp(pod: Pod) | RemoveOp(pod: Pod)

  function Step(s: PodSet, op: Op): (r: PodSet) {
    match op
    case AddOp(p) => Add(s, p)
    case RemoveOp(p) => Remove(s, p)
  }

  /** The set after performing `ops` in order, starting from `s`. */
  function Replay(s: PodSet, ops: seq<Op>): (r: PodSet)
    decreases |ops|
  {
    if ops == [] then s else Step(Replay(s, ops[..|ops| - 1]), ops[|ops| - 1])
  }

  /**
   * Reference definition: what the most recent call naming `id` said about
   * it (`Some(true)` for an add, `Some(false)` for a remove), or `None` when
   * no call names it.
   */
  function LastWord(ops: seq<Op>, id: PodId): (word: Option<bool>)
    decreases |ops|
  {
    if ops == [] then None
    else if ops[|ops| - 1].pod.name == id then Some(ops[|ops| - 1].AddOp?)
    else LastWord(ops[..|ops| - 1], id)
  }

  /** The calls of `ops` that name `id`, in their original order. */
  function Project(ops: seq<Op>, id: PodId): (r: seq<Op>)
    decreases |ops|
  {
    if ops == [] then []
    else if ops[|ops| - 1].pod.name == id then Project(ops[..|ops| - 1], id) + [ops[|ops| - 1]]
    else Project(ops[..|ops| - 1], id)
  }

  /** An id is present after a history exactly when its last call was an add, or it was present before and no call named it. */
  lemma {:induction false} ReplayHasId(s: PodSet, ops: seq<Op>, id: PodId)
    ensures HasId(Replay(s, ops), id) <==>
      match LastWord(ops, id)
      case Some(added) => added
      case None => HasId(s, id)
    decreases |ops|
  {
    if ops != [] {
      ReplayHasId(s, ops[..|ops| - 1], id);
    }
  }

  /** Starting from a new set, an id is present exactly when the last call naming it was an add. */
  lemma FreshReplayHasId(ops: seq<Op>, id: PodId)
    ensures HasId(Replay(NewPodSet(), ops), id) <==> LastWord(ops, id) == Some(true)
  {
    ReplayHasId(NewPodSet(), ops, id);
  }

  /** Performing two histories one after the other is performing their concatenation. */
  lemma {:induction false} ReplayConcat(s: PodSet, a: seq<Op>, b: seq<Op>)
    ensures Replay(s, a + b) == Replay(Replay(s, a), b)
    decreases |b|
  {
    if b == [] {
      assert a + b == a;
    } else {
      assert (a + b)[..|a + b| - 1] == a + b[..|b| - 1];
      ReplayConcat(s, a, b[..|b| - 1]);
    }
  }

  /** Filtering a history down to the calls that name `id` keeps its last word about `id`. */
  lemma {:induction false} LastWordOfProject(ops: seq<Op>, id: PodId)
    ensures LastWord(Project(ops, id), id) == LastWord(ops, id)
    decreases |ops|
  {
    if ops != [] {
      var init := ops[..|ops| - 1];
      LastWordOfProject(init, id);
      if ops[|ops| - 1].pod.name == id {
        var pr := Project(init, id) + [ops[|ops| - 1]];
        assert pr[..|pr| - 1] == Project(init, id);
      }
    }
  }

  /**
   * Calls on other pods never disturb an id: its membership after a history
   * is its membership after the calls that name it alone.
   */
  lemma ReplayOnlyOwnCallsMatter(s: PodSet, ops: seq<Op>, id: PodId)
    ensures HasId(Replay(s, ops), id) == HasId(Replay(s, Project(ops, id)), id)
  {
    ReplayHasId(s, ops, id);
    ReplayHasId(s, Project(ops, id), id);
    LastWordOfProject(ops, id);
  }

  /** `a` and `b` make the same calls on every pod, in the same order per pod. */
  ghost predicate SameCallsPerPod(a: seq<Op>, b: seq<Op>) {
    forall id :: Project(a, id) == Project(b, id)
  }

  /**
   * Interleavings that agree, pod by pod, on the order of each pod's own
   * calls produce the same set.
   */
  lemma SameProjectionsSameSet(s: PodSet, a: seq<Op>, b: seq<Op>)
    requires SameCallsPerPod(a, b)
    ensures Replay(s, a) == Replay(s, b)
  {
    forall id
      ensures id in Replay(s, a).ids <==> id in Replay(s, b).ids
    {
      ReplayOnlyOwnCallsMatter(s, a, id);
      ReplayOnlyOwnCallsMatter(s, b, id);
    }
  }

  /** Calls on pods with different names commute. */
  lemma StepsOnDistinctPodsCommute(s: PodSet, x: Op, y: Op)
    requires x.pod.name != y.pod.name
    ensures Step(Step(s, x), y) == Step(Step(s, y), x)
  {
  }

  /** Replaying a two-call history performs the first call, then the second. */
  lemma ReplayPair(s: PodSet, x: Op, y: Op)
    ensures Replay(s, [x, y]) == Step(Step(s, x), y)
  {
    assert [x, y][..1] == [x];
    assert [x][..0] == [];
    assert Replay(s, [x]) == Step(s, x);
  }

  /**
   * Anywhere in a history, swapping two adjacent calls on pods with
   * different names leaves the final set unchanged.
   */
  lemma SwapDistinctAdjacent(s: PodSet, a: seq<Op>, x: Op, y: Op, b: seq<Op>)
    requires x.pod.name != y.pod.name
    ensures Replay(s, a + [x, y] + b) == Replay(s, a + [y, x] + b)
  {
    var mid := Replay(s, a);
    var xy := Replay(s, a + [x, y]);
    var yx := Replay(s, a + [y, x]);
    ReplayConcat(s, a, [x, y]);
    ReplayConcat(s, a, [y, x]);
    ReplayPair(mid, x, y);
    ReplayPair(mid, y, x);
    StepsOnDistinctPodsCommute(mid, x, y);
    assert xy == yx;
    ReplayConcat(s, a + [x, y], b);
    ReplayConcat(s, a + [y, x], b);
  }
}
