/** The anti-repetition queue of loaded regular sound IDs (a LinkedList of
    integers in the app) and the selection step applied by each play. */
module SelectionQueue {

  /** A play may pick any of the first Window IDs of the queue: the skewed
      random skip is drawn from [0, Window). */
  const Window: nat := 5

  /** The queue after `remove(k)` and `addLast` of the removed ID: the ID at
      index k goes to the tail and every other ID keeps its relative order. */
  function MoveToTail(q: seq<int>, k: nat): (r: seq<int>)
    requires k < |q|
    ensures |r| == |q|
    ensures r[|q| - 1] == q[k]
    ensures forall i :: 0 <= i < k ==> r[i] == q[i]
    ensures forall i :: k <= i < |q| - 1 ==> r[i] == q[i + 1]
    ensures multiset(r) == multiset(q)
  {
    assert q == q[..k] + [q[k]] + q[k + 1..];
    q[..k] + q[k + 1..] + [q[k]]
  }

  /** Every skip of a run of plays names a position of the queue (plays keep
      the length of the queue, so one bound serves all of them). */
  predicate SkipsInRange(q: seq<int>, skips: seq<nat>)
  {
    forall i :: 0 <= i < |skips| ==> skips[i] < |q|
  }

  /** The IDs played, in order, by successive plays with the given skips. */
  function Played(q: seq<int>, skips: seq<nat>): (p: seq<int>)
    requires SkipsInRange(q, skips)
    ensures |p| == |skips|
    ensures forall i :: 0 <= i < |p| ==> p[i] in q
    decreases |skips|
  {
    if skips == [] then []
    else
      var q' := MoveToTail(q, skips[0]);
      assert forall x :: x in q' ==> x in multiset(q);
      [q[skips[0]]] + Played(q', skips[1..])
  }

  /** The queue left behind by successive plays with the given skips; it is
      always a permutation of the queue before them. */
  function After(q: seq<int>, skips: seq<nat>): (r: seq<int>)
    requires SkipsInRange(q, skips)
    ensures |r| == |q|
    ensures multiset(r) == multiset(q)
    decreases |skips|
  {
    if skips == [] then q else After(MoveToTail(q, skips[0]), skips[1..])
  }

  /** n skips of zero: the plays of a queue shorter than Window in SoundController. */
  function Zeros(n: nat): (z: seq<nat>)
    ensures |z| == n
    ensures forall i :: 0 <= i < n ==> z[i] == 0
  {
    seq(n, i => 0)
  }

  /** A play with skip 0 moves the head to the tail. */
  lemma RotateHead(q: seq<int>)
    requires |q| > 0
    ensures MoveToTail(q, 0) == q[1..] + [q[0]]
  {
  }

  /** Rotating the head to the tail and then the first n - 1 IDs is rotating
      the first n IDs. */
  lemma RotateSplit(q: seq<int>, n: nat)
    requires 0 < n <= |q|
    ensures (q[1..] + [q[0]])[..n - 1] == q[1..n]
    ensures (q[1..] + [q[0]])[n - 1..] + q[1..n] == q[n..] + q[..n]
  {
    var q' := q[1..] + [q[0]];
    assert q'[n - 1..] == q[n..] + [q[0]];
    assert q[..n] == [q[0]] + q[1..n];
  }

  /** Round robin: n plays with skip 0 play the first n IDs in queue order. */
  lemma {:induction false} RoundRobinPlays(q: seq<int>, n: nat)
    requires n <= |q|
    ensures SkipsInRange(q, Zeros(n))
    ensures Played(q, Zeros(n)) == q[..n]
    decreases n
  {
    if n > 0 {
      var q' := MoveToTail(q, 0);
      assert Zeros(n)[0] == 0 && Zeros(n)[1..] == Zeros(n - 1);
      assert Played(q, Zeros(n)) == [q[0]] + Played(q', Zeros(n - 1));
      RoundRobinPlays(q', n - 1);
      RotateHead(q);
      RotateSplit(q, n);
      assert q[..n] == [q[0]] + q[1..n];
    }
  }

  /** Round robin: n plays with skip 0 rotate the first n IDs, in order, to
      the tail. */
  lemma {:induction false} RoundRobinRotates(q: seq<int>, n: nat)
    requires n <= |q|
    ensures SkipsInRange(q, Zeros(n))
    ensures After(q, Zeros(n)) == q[n..] + q[..n]
    decreases n
  {
    if n == 0 {
      assert q[..0] == [] && q[0..] == q;
    } else {
      var q' := MoveToTail(q, 0);
      assert Zeros(n)[0] == 0 && Zeros(n)[1..] == Zeros(n - 1);
      assert After(q, Zeros(n)) == After(q', Zeros(n - 1));
      RoundRobinRotates(q', n - 1);
      RotateHead(q);
      RotateSplit(q, n);
    }
  }

  /** |q| round-robin plays play every ID of the queue exactly once, in queue
      order, and leave the queue as it was. */
  lemma RoundRobinFullCycle(q: seq<int>)
    ensures SkipsInRange(q, Zeros(|q|))
    ensures Played(q, Zeros(|q|)) == q
    ensures After(q, Zeros(|q|)) == q
  {
    RoundRobinPlays(q, |q|);
    RoundRobinRotates(q, |q|);
    assert q[..|q|] == q;
    assert q[|q|..] == [];
  }

  /** An ID whose first occurrence is at index p is not played by the next
      p - Window + 1 plays: each play takes an ID in front of it and moves it
      one place towards the window. */
  lemma {:induction false} NotPlayedBeforeReachingWindow(q: seq<int>, p: nat, skips: seq<nat>)
    requires p < |q|
    requires q[p] !in q[..p]
    requires forall i :: 0 <= i < |skips| ==> skips[i] < Window
    requires |skips| + Window <= p + 1
    ensures SkipsInRange(q, skips) && q[p] !in Played(q, skips)
    decreases |skips|
  {
    if skips != [] {
      var k := skips[0];
      var q' := MoveToTail(q, k);
      assert q[k] in q[..p];
      assert q'[p - 1] == q[p];
      assert q'[..p - 1] == q[..k] + q[k + 1..p];
      assert q[..p] == q[..k] + [q[k]] + q[k + 1..p];
      NotPlayedBeforeReachingWindow(q', p - 1, skips[1..]);
    }
  }

  /** Anti-repetition: when the played ID occurs once in the queue, none of the
      next |q| - Window plays plays it again. */
  lemma NoReplayWithinGap(q: seq<int>, k: nat, skips: seq<nat>)
    requires k < |q|
    requires multiset(q)[q[k]] == 1
    requires forall i :: 0 <= i < |skips| ==> skips[i] < Window
    requires |skips| + Window <= |q|
    ensures SkipsInRange(MoveToTail(q, k), skips)
    ensures q[k] !in Played(MoveToTail(q, k), skips)
  {
    var r := MoveToTail(q, k);
    var n := |q|;
    assert r == r[..n - 1] + [r[n - 1]];
    assert multiset(r) == multiset(r[..n - 1]) + multiset{q[k]};
    assert multiset(r[..n - 1])[q[k]] == 0;
    NotPlayedBeforeReachingWindow(r, n - 1, skips);
  }

  /** With exactly Window IDs loaded the skip may reach the tail, so the same
      ID can be played twice in a row. */
  lemma ReplayPossibleWithFive()
    ensures SkipsInRange([1, 2, 3, 4, 5], [4, 4])
    ensures Played([1, 2, 3, 4, 5], [4, 4]) == [5, 5]
  {
    assert MoveToTail([1, 2, 3, 4, 5], 4) == [1, 2, 3, 4, 5];
  }
}
