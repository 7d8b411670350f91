/** The queue a batch is made from: its one order, and the stories of it the batch takes. */
module BatchQueue {
  import opened CommitGraph

  datatype Option<T> = None | Some(value: T)

  datatype Aside = NotAside | NoBranch | Refused | Conflicts | Unmergeable

  /** One queued story. Times are instants, 0 the one a tracker that recorded none gives. */
  datatype Story = Story(id: string, queuedAt: int, started: int, target: string, minor: bool,
                         onTarget: bool, merge: Option<Commit>, why: Aside, byFixer: bool)

  function Ids(stories: seq<Story>): (ids: seq<string>)
    ensures |ids| == |stories|
    ensures forall i :: 0 <= i < |ids| ==> ids[i] == stories[i].id
  {
    seq(|stories|, i requires 0 <= i < |stories| => stories[i].id)
  }

  // ----- The order -----

  /** a's characters come before b's. */
  predicate TextBefore(a: string, b: string) {
    b != [] && (a == [] || a[0] < b[0] || (a[0] == b[0] && TextBefore(a[1..], b[1..])))
  }

  /** a is merged before b: queued earlier, then claimed earlier, then by id. */
  predicate Before(a: Story, b: Story) {
    if a.queuedAt != b.queuedAt then a.queuedAt < b.queuedAt
    else if a.started != b.started then a.started < b.started
    else TextBefore(a.id, b.id)
  }

  lemma TextOrder(a: string, b: string, c: string)
    ensures !TextBefore(a, a)
    ensures TextBefore(a, b) || TextBefore(b, a) || a == b
    ensures TextBefore(a, b) && TextBefore(b, c) ==> TextBefore(a, c)
  {
    if a != [] && b != [] {
      assert a == [a[0]] + a[1..] && b == [b[0]] + b[1..];
      TextOrder(a[1..], b[1..], if c != [] then c[1..] else c);
    }
  }

  lemma BeforeOrders(a: Story, b: Story, c: Story)
    ensures !Before(a, a)
    ensures Before(a, b) || Before(b, a) || a.id == b.id
    ensures Before(a, b) && Before(b, c) ==> Before(a, c)
    ensures !Before(b, a) && !Before(c, b) ==> !Before(c, a)
  {
    TextOrder(a.id, b.id, c.id);
    TextOrder(b.id, a.id, c.id);
    TextOrder(c.id, b.id, a.id);
    TextOrder(c.id, a.id, b.id);
    TextOrder(b.id, c.id, a.id);
    TextOrder(a.id, c.id, b.id);
  }

  ghost predicate Sorted(q: seq<Story>) {
    forall i, j :: 0 <= i < j < |q| ==> !Before(q[j], q[i])
  }

  ghost predicate DistinctIds(q: seq<Story>) {
    forall i, j :: 0 <= i < j < |q| ==> q[i].id != q[j].id
  }

  /** Puts a queue in the order a batch merges it, in place. */
  method SortOldestQueued(queue: array<Story>)
    modifies queue
    ensures Sorted(queue[..])
    ensures multiset(queue[..]) == multiset(old(queue[..]))
  {
    for n := 0 to queue.Length
      invariant Sorted(queue[..n])
      invariant multiset(queue[..]) == multiset(old(queue[..]))
    {
      SinkInto(queue, n);
    }
    assert queue[..queue.Length] == queue[..];
  }

  /** Moves the story at n down to its place among the sorted ones before it. */
  method SinkInto(queue: array<Story>, n: nat)
    requires n < queue.Length && Sorted(queue[..n])
    modifies queue
    ensures Sorted(queue[..n + 1])
    ensures multiset(queue[..]) == multiset(old(queue[..]))
  {
    hide TextBefore;
    var j := n;
    while j > 0 && Before(queue[j], queue[j - 1])
      invariant 0 <= j <= n
      invariant multiset(queue[..]) == multiset(old(queue[..]))
      invariant SortedBut(queue[..n + 1], j)
    {
      SwapSinks(queue[..n + 1], j);
      queue[j], queue[j - 1] := queue[j - 1], queue[j];
      j := j - 1;
    }
    SunkIsSorted(queue[..n + 1], j);
  }

  /** q is sorted, except that the one at j may belong further down. */
  ghost predicate SortedBut(q: seq<Story>, j: nat) {
    forall a, b :: 0 <= a < b < |q| && b != j ==> !Before(q[b], q[a])
  }

  lemma SwapSinks(q: seq<Story>, j: nat)
    requires 0 < j < |q| && SortedBut(q, j) && Before(q[j], q[j - 1])
    ensures SortedBut(q[j := q[j - 1]][j - 1 := q[j]], j - 1)
  {
    var q' := q[j := q[j - 1]][j - 1 := q[j]];
    forall a, b | 0 <= a < b < |q'| && b != j - 1 ensures !Before(q'[b], q'[a]) {
      BeforeOrders(q[j], q[j - 1], q[j]);
    }
  }

  lemma SunkIsSorted(q: seq<Story>, j: nat)
    requires j < |q| && SortedBut(q, j) && (j > 0 ==> !Before(q[j], q[j - 1]))
    ensures Sorted(q)
  {
    forall a | 0 <= a < j ensures !Before(q[j], q[a]) {
      if a < j - 1 {
        BeforeOrders(q[a], q[j - 1], q[j]);
      }
    }
  }

  /** Two sorted orders of the same stories begin with the same one. */
  lemma FirstsAgree(p: seq<Story>, q: seq<Story>)
    requires Sorted(p) && Sorted(q) && DistinctIds(p) && p != [] && q != []
    requires p[0] in q && q[0] in p
    ensures p[0] == q[0]
  {
    var i :| 0 <= i < |q| && q[i] == p[0];
    var j :| 0 <= j < |p| && p[j] == q[0];
    hide Before;
    BeforeOrders(p[0], q[0], p[0]);
  }

  /** The order of a queue of distinct ids never depends on the order it was read in. */
  lemma {:induction false} OneSortedOrder(p: seq<Story>, q: seq<Story>)
    requires Sorted(p) && Sorted(q) && DistinctIds(p)
    requires multiset(p) == multiset(q)
    ensures p == q
  {
    hide *;
    assert |p| == |multiset(p)| == |multiset(q)| == |q|;
    if p != [] {
      assert p[0] in multiset(q) && q[0] in multiset(p);
      FirstsAgree(p, q);
      Tail(p);
      Tail(q);
      OneSortedOrder(p[1..], q[1..]);
    }
  }

  lemma Tail(q: seq<Story>)
    requires q != []
    ensures Sorted(q) ==> Sorted(q[1..])
    ensures DistinctIds(q) ==> DistinctIds(q[1..])
    ensures q == [q[0]] + q[1..] && multiset(q[1..]) == multiset(q) - multiset{q[0]}
  {
    hide Before;
    assert q == [q[0]] + q[1..];
  }

  // ----- What the batch takes -----

  /** The stories of q that share the target of its first, in order. */
  function OnTargetOf(q: seq<Story>, target: string): seq<Story> {
    if q == [] then []
    else OnTargetOf(q[..|q| - 1], target) + if q[|q| - 1].target == target then [q[|q| - 1]] else []
  }

  /** `queued`, from the stories read: sorted, then filtered in place onto the oldest one's target. */
  method Queued(read: seq<Story>, one: bool) returns (kept: seq<Story>, ghost sorted: seq<Story>)
    ensures Sorted(sorted) && multiset(sorted) == multiset(read)
    ensures read == [] ==> kept == []
    ensures read != [] ==> sorted != [] && kept != []
    ensures read != [] && !one ==> kept == OnTargetOf(sorted, sorted[0].target)
    ensures read != [] && one ==> kept == [sorted[0]]
  {
    hide *;
    var queue := new Story[|read|](i requires 0 <= i < |read| => read[i]);
    assert queue[..] == read;
    SortOldestQueued(queue);
    sorted := queue[..];
    assert |sorted| == |multiset(sorted)| == |multiset(read)| == |read|;
    if queue.Length == 0 {
      return [], sorted;
    }
    var n := KeepOldestTarget(queue);
    if one && n > 1 {
      n := 1;
    }
    kept := queue[..n];
  }

  /** The stories of the queue that share its first one's target, moved to its front in their order. */
  method KeepOldestTarget(queue: array<Story>) returns (n: nat)
    requires queue.Length > 0
    modifies queue
    ensures 0 < n <= queue.Length && queue[0] == old(queue[0])
    ensures queue[..n] == OnTargetOf(old(queue[..]), old(queue[0]).target)
  {
    hide OnTargetOf;
    ghost var was := queue[..];
    var target := queue[0].target;
    OnTargetAdd([], queue[0], target);
    n := 0;
    for i := 0 to queue.Length
      invariant n <= i && queue[..n] == OnTargetOf(was[..i], target)
      invariant queue[i..] == was[i..]
      invariant i > 0 ==> n > 0 && queue[0] == was[0]
    {
      OnTargetAdd(was[..i], was[i], target);
      assert was[..i + 1] == was[..i] + [was[i]];
      assert queue[i] == queue[i..][0] == was[i];
      ghost var front := queue[..n];
      if queue[i].target == target {
        queue[n] := queue[i];
        n := n + 1;
        assert queue[..n] == front + [was[i]];
      }
    }
    assert was[..|was|] == was;
  }

  lemma OnTargetAdd(q: seq<Story>, s: Story, target: string)
    ensures OnTargetOf(q + [s], target) == OnTargetOf(q, target) + if s.target == target then [s] else []
    ensures OnTargetOf([], target) == []
  {
    assert (q + [s])[..|q|] == q;
  }

  /** OnTargetOf keeps exactly the stories of that target, each as often as it stood. */
  lemma {:induction false} OnTargetOfKeeps(q: seq<Story>, target: string, s: Story)
    ensures multiset(OnTargetOf(q, target))[s] == if s.target == target then multiset(q)[s] else 0
  {
    if q != [] {
      assert q == q[..|q| - 1] + [q[|q| - 1]];
      OnTargetOfKeeps(q[..|q| - 1], target, s);
    }
  }

  /** What it keeps of a sorted queue is in the queue's order still. */
  lemma {:induction false} OnTargetOfKeepsOrder(q: seq<Story>, target: string)
    requires Sorted(q)
    ensures Sorted(OnTargetOf(q, target))
  {
    hide Before;
    if q != [] {
      var front, last := q[..|q| - 1], q[|q| - 1];
      OnTargetOfKeepsOrder(front, target);
      var kept := OnTargetOf(front, target);
      forall i | 0 <= i < |kept| ensures !Before(last, kept[i]) {
        OnTargetOfKeeps(front, target, kept[i]);
        assert kept[i] in multiset(kept);
        assert kept[i] in front;
      }
    }
  }

  /** Two reads of one queue, whatever their order, make the same batch. */
  lemma BatchIsTheQueues(a: seq<Story>, b: seq<Story>, read: seq<Story>, target: string)
    requires multiset(a) == multiset(read) == multiset(b)
    requires Sorted(a) && Sorted(b) && DistinctIds(a)
    ensures OnTargetOf(a, target) == OnTargetOf(b, target)
  {
    OneSortedOrder(a, b);
  }
}
