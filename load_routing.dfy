/** Routing of load-completion notifications: the completion whose ID is the
    long sample's load ID fills the long-sample slot, every other completion
    appends its ID to the selection queue. The status argument is not used. */
module LoadRouting {

  /** mBigFartID's value while the long sample is not loaded. */
  const NotLoaded: int := -1

  /** The state the completion listener writes: the queue of regular IDs and
      the long sample's ID. */
  datatype Registry = Registry(queue: seq<int>, bigId: int)

  /** One `onLoadComplete(sampleId)` while the loader's big load ID is pendingBig. */
  function Complete(r: Registry, pendingBig: int, sampleId: int): (r': Registry)
    ensures r.queue <= r'.queue && |r'.queue| <= |r.queue| + 1
    ensures r'.queue == r.queue || r'.bigId == r.bigId
    ensures r'.queue == r.queue + Without([sampleId], pendingBig)
    ensures r'.bigId == if sampleId == pendingBig then sampleId else r.bigId
  {
    if sampleId == pendingBig then r.(bigId := sampleId)
    else r.(queue := r.queue + [sampleId])
  }

  /** A sequence of completions, in arrival order. */
  function CompleteAll(r: Registry, pendingBig: int, ids: seq<int>): (r': Registry)
    ensures r.queue <= r'.queue && |r'.queue| <= |r.queue| + |ids|
    decreases |ids|
  {
    if ids == [] then r else CompleteAll(Complete(r, pendingBig, ids[0]), pendingBig, ids[1..])
  }

  /** ids without the occurrences of t, in their order. */
  function Without(ids: seq<int>, t: int): (w: seq<int>)
    ensures forall x :: x in w ==> x in ids && x != t
    decreases |ids|
  {
    if ids == [] then []
    else (if ids[0] == t then [] else [ids[0]]) + Without(ids[1..], t)
  }

  /** Every completion except the big one is appended exactly once, in arrival
      order; the long-sample slot takes the big ID if it arrives and is
      otherwise untouched. */
  lemma {:induction false} CompleteAllEffect(r: Registry, t: int, ids: seq<int>)
    ensures CompleteAll(r, t, ids).queue == r.queue + Without(ids, t)
    ensures CompleteAll(r, t, ids).bigId == if t in ids then t else r.bigId
    decreases |ids|
  {
    if ids != [] {
      var r1 := Complete(r, t, ids[0]);
      CompleteAllEffect(r1, t, ids[1..]);
      assert ids == [ids[0]] + ids[1..];
      if ids[0] != t {
        assert r1.queue + Without(ids[1..], t) == r.queue + ([ids[0]] + Without(ids[1..], t));
      }
    }
  }

  /** Without removes exactly the occurrences of t. */
  lemma {:induction false} WithoutCount(ids: seq<int>, t: int)
    ensures multiset(Without(ids, t)) == multiset(ids)[t := 0]
    ensures |Without(ids, t)| == |ids| - multiset(ids)[t]
    decreases |ids|
  {
    if ids != [] {
      WithoutCount(ids[1..], t);
      assert ids == [ids[0]] + ids[1..];
      assert multiset(ids) == multiset{ids[0]} + multiset(ids[1..]);
    }
  }

  /** The order in which the completions arrive does not change which IDs are
      queued, nor whether the long sample is loaded. */
  lemma CompletionOrderIrrelevant(r: Registry, t: int, ids1: seq<int>, ids2: seq<int>)
    requires multiset(ids1) == multiset(ids2)
    ensures multiset(CompleteAll(r, t, ids1).queue) == multiset(CompleteAll(r, t, ids2).queue)
    ensures CompleteAll(r, t, ids1).bigId == CompleteAll(r, t, ids2).bigId
  {
    CompleteAllEffect(r, t, ids1);
    CompleteAllEffect(r, t, ids2);
    WithoutCount(ids1, t);
    WithoutCount(ids2, t);
    assert (t in ids1) == (t in multiset(ids1));
    assert (t in ids2) == (t in multiset(ids2));
  }

  /** All loads complete, in any order, the big one exactly once: every other
      ID is queued and the long sample is loaded. */
  lemma AllLoadsComplete(t: int, ids: seq<int>)
    requires t != NotLoaded
    requires multiset(ids)[t] == 1
    ensures multiset(CompleteAll(Registry([], NotLoaded), t, ids).queue) == multiset(ids)[t := 0]
    ensures |CompleteAll(Registry([], NotLoaded), t, ids).queue| == |ids| - 1
    ensures CompleteAll(Registry([], NotLoaded), t, ids).bigId == t
  {
    CompleteAllEffect(Registry([], NotLoaded), t, ids);
    WithoutCount(ids, t);
    assert t in multiset(ids);
  }
}
