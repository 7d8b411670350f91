/** Merging the queue into the batch, and what it becomes: two parts of one queue. */
module BatchMerge {
  import opened CommitGraph
  import opened BatchQueue
  import opened BatchPorts

  /** A story without what a landing writes on it. */
  function Bare(s: Story): Story {
    s.(onTarget := false, merge := None, why := NotAside, byFixer := false)
  }

  function Bares(stories: seq<Story>): (bare: seq<Story>)
    ensures |bare| == |stories|
  {
    if stories == [] then [] else Bares(stories[..|stories| - 1]) + [Bare(stories[|stories| - 1])]
  }

  lemma BaresAdd(stories: seq<Story>, s: Story)
    ensures Bares(stories + [s]) == Bares(stories) + [Bare(s)]
  {
    assert (stories + [s])[..|stories|] == stories;
  }

  /** The stories, bare and in order, whose answer is `merged` or is not. */
  function Part(stories: seq<Story>, whys: seq<Aside>, merged: bool): seq<Story>
    requires |stories| == |whys|
  {
    if stories == [] then []
    else
      var n := |stories| - 1;
      Part(stories[..n], whys[..n], merged) +
      if (whys[n] == NotAside) == merged then [Bare(stories[n])] else []
  }

  /** Whatever each story's answer, the two parts together are the whole. */
  lemma {:induction false} PartsMakeTheWhole(stories: seq<Story>, whys: seq<Aside>)
    requires |stories| == |whys|
    ensures multiset(Part(stories, whys, true)) + multiset(Part(stories, whys, false)) == multiset(Bares(stories))
  {
    if stories != [] {
      var n := |stories| - 1;
      PartsMakeTheWhole(stories[..n], whys[..n]);
    }
  }

  /** The merged and the set-aside stories of a report are, between them, its queue. */
  ghost predicate Partition(report: Report)
    reads report`queue, report`merged, report`setAside
  {
    multiset(Bares(report.merged)) + multiset(Bares(report.setAside)) == multiset(Bares(report.queue))
  }

  /** The worktree's commit holds every merged story, and adds to the base nothing signed but mw's own. */
  ghost predicate Sound(repo: Repo, report: Report)
    reads repo`graph, repo`head, repo`target, report`merged
  {
    && repo.Valid()
    && Clean(repo.graph, report.base, repo.head)
    && AllContained(repo.graph, repo.head, repo.ports.tips, report.merged)
  }

  /** The commit holds the branch of every one of the stories. */
  predicate AllContained(g: Graph, c: Commit, tips: map<string, Commit>, stories: seq<Story>) {
    forall s :: s in stories ==> s.id in tips && Contains(g, c, tips[s.id])
  }

  /** Every set-aside story says why, and one said to be on the target already is in the base. */
  ghost predicate Told(repo: Repo, report: Report)
    reads repo`graph, report`merged, report`setAside
  {
    && WhysTold(report.merged, report.setAside)
    && OnTargetIsTrue(repo.graph, report.base, repo.ports.tips, report.merged)
    && OnTargetIsTrue(repo.graph, report.base, repo.ports.tips, report.setAside)
  }

  predicate Conflicted(aside: seq<Story>) {
    exists s :: s in aside && s.why == Conflicts
  }

  predicate WhysTold(merged: seq<Story>, aside: seq<Story>) {
    && (forall s :: s in aside ==> s.why != NotAside)
    && (forall s :: s in merged ==> s.why == NotAside && s.merge.Some?)
  }

  predicate OnTargetIsTrue(g: Graph, base: Commit, tips: map<string, Commit>, stories: seq<Story>) {
    forall s :: s in stories && s.onTarget ==> s.id in tips && Contains(g, base, tips[s.id])
  }

  lemma GrowthKeepsOnTarget(g: Graph, g': Graph, base: Commit, tips: map<string, Commit>, stories: seq<Story>)
    requires Valid(g) && Valid(g') && Extends(g, g') && OnTargetIsTrue(g, base, tips, stories)
    ensures OnTargetIsTrue(g', base, tips, stories)
  {
    forall s | s in stories && s.onTarget ensures Contains(g', base, tips[s.id]) {
      GrowthKeeps(g, g', base, base, tips[s.id]);
    }
  }

  lemma MergeKeepsSound(g: Graph, g': Graph, base: Commit, head: Commit, head': Commit,
                        tips: map<string, Commit>, merged: seq<Story>)
    requires Valid(g) && Valid(g') && Extends(g, g') && Contains(g', head', head)
    requires AllContained(g, head, tips, merged)
    ensures AllContained(g', head', tips, merged)
  {
    forall s | s in merged ensures Contains(g', head', tips[s.id]) {
      GrowthKeeps(g, g', base, head, tips[s.id]);
      ContainsTransitive(g', head', head, tips[s.id]);
    }
  }

  lemma PartAdd(stories: seq<Story>, whys: seq<Aside>, s: Story, why: Aside, merged: bool)
    requires |stories| == |whys|
    ensures Part(stories + [s], whys + [why], merged) ==
            Part(stories, whys, merged) + if (why == NotAside) == merged then [Bare(s)] else []
  {
    assert (stories + [s])[..|stories|] == stories;
    assert (whys + [why])[..|whys|] == whys;
  }

  /** Why a story is set aside, or that it is merged, by what the ports say of it and of the batch at `head`. */
  ghost function WhyOf(ports: Answers, g: Graph, head: Commit, base: Commit, id: string): Aside
    requires base in g.reach && forall id :: id in ports.tips ==> ports.tips[id] in g.reach
  {
    if id !in ports.tips then NoBranch
    else if ports.tips[id] in ports.unread || SignedBeyond(g, ports.tips[id], base) then Refused
    else match ports.merges(head, ports.tips[id])
         case Made => NotAside
         case InConflict => Conflicts
         case NotMade => Unmergeable
  }

  /** heads are the batch as it stood at each story: one that merged moved it on, one set aside left it. */
  ghost predicate InOrder(ports: Answers, g: Graph, base: Commit, queue: seq<Story>, whys: seq<Aside>, heads: seq<Commit>)
  {
    && |whys| == |queue| && |heads| == |queue| + 1 && heads[0] == base && base in g.reach
    && (forall id :: id in ports.tips ==> ports.tips[id] in g.reach)
    && (forall i :: 0 <= i < |queue| ==> whys[i] == WhyOf(ports, g, heads[i], base, queue[i].id))
    && (forall i :: 0 <= i < |queue| ==> Moved(ports, g, queue[i].id, whys[i], heads[i], heads[i + 1]))
  }

  ghost predicate Moved(ports: Answers, g: Graph, id: string, why: Aside, head: Commit, head': Commit) {
    if why == NotAside then id in ports.tips && Contains(g, head', head) && Contains(g, head', ports.tips[id])
    else head' == head
  }

  lemma GrowthKeepsOrder(ports: Answers, g: Graph, g': Graph, base: Commit,
                         queue: seq<Story>, whys: seq<Aside>, heads: seq<Commit>)
    requires Valid(g) && Valid(g') && Extends(g, g') && InOrder(ports, g, base, queue, whys, heads)
    ensures InOrder(ports, g', base, queue, whys, heads)
  {
    forall i | 0 <= i < |queue|
      ensures whys[i] == WhyOf(ports, g', heads[i], base, queue[i].id)
      ensures Moved(ports, g', queue[i].id, whys[i], heads[i], heads[i + 1])
    {
      GrowthKeepsWhy(ports, g, g', heads[i], base, queue[i].id);
      if whys[i] == NotAside {
        GrowthKeeps(g, g', base, heads[i + 1], heads[i]);
        GrowthKeeps(g, g', base, heads[i + 1], ports.tips[queue[i].id]);
      }
    }
  }

  lemma GrowthKeepsWhy(ports: Answers, g: Graph, g': Graph, head: Commit, base: Commit, id: string)
    requires Valid(g) && Valid(g') && Extends(g, g') && base in g.reach
    requires forall id :: id in ports.tips ==> ports.tips[id] in g.reach
    ensures WhyOf(ports, g, head, base, id) == WhyOf(ports, g', head, base, id)
  {
    if id in ports.tips {
      var tip := ports.tips[id];
      assert g'.reach[tip] - g'.reach[base] == g.reach[tip] - g.reach[base];
      assert SignedBeyond(g', tip, base) <==> SignedBeyond(g, tip, base);
    }
  }

  lemma OrderAdd(ports: Answers, g: Graph, base: Commit, queue: seq<Story>, whys: seq<Aside>, heads: seq<Commit>,
                 s: Story, why: Aside, head: Commit)
    requires InOrder(ports, g, base, queue, whys, heads)
    requires why == WhyOf(ports, g, heads[|queue|], base, s.id)
    requires Moved(ports, g, s.id, why, heads[|queue|], head)
    ensures InOrder(ports, g, base, queue + [s], whys + [why], heads + [head])
  {
  }

  /** Merges the queue into the batch in order, or sets a story of it aside and says why. */
  method MergeAll(repo: Repo, report: Report) returns (ghost whys: seq<Aside>, ghost heads: seq<Commit>)
    requires repo.Valid() && report.base == repo.head
    requires report.merged == [] && report.setAside == []
    modifies repo`graph, repo`head, report`merged, report`setAside
    ensures Sound(repo, report) && Told(repo, report)
    ensures Extends(old(repo.graph), repo.graph)
    ensures InOrder(repo.ports, repo.graph, report.base, report.queue, whys, heads)
    ensures |whys| == |report.queue| && |heads| == |report.queue| + 1 && heads[|report.queue|] == repo.head
    ensures Bares(report.merged) == Part(report.queue, whys, true)
    ensures Bares(report.setAside) == Part(report.queue, whys, false)
    ensures Conflicted(report.setAside) <==> Conflicts in whys
    ensures Partition(report)
  {
    hide *;
    whys, heads := [], [repo.head];
    BeginsSound(repo, report);
    for i := 0 to |report.queue|
      invariant Sound(repo, report) && Told(repo, report)
      invariant Extends(old(repo.graph), repo.graph)
      invariant InOrder(repo.ports, repo.graph, report.base, report.queue[..i], whys, heads)
      invariant Conflicted(report.setAside) <==> Conflicts in whys
      invariant |whys| == i && |heads| == i + 1 && heads[i] == repo.head
      invariant Bares(report.merged) == Part(report.queue[..i], whys, true)
      invariant Bares(report.setAside) == Part(report.queue[..i], whys, false)
    {
      var s := report.queue[i];
      ghost var g := repo.graph;
      SoundMeans(repo, report);
      var why := MergeNext(repo, report, s);
      SoundMeans(repo, report);
      GrowthIsTransitive(old(repo.graph), g, repo.graph);
      GrowthKeepsOrder(repo.ports, g, repo.graph, report.base, report.queue[..i], whys, heads);
      GrowthKeepsWhy(repo.ports, g, repo.graph, heads[i], report.base, s.id);
      OrderAdd(repo.ports, repo.graph, report.base, report.queue[..i], whys, heads, s, why, repo.head);
      PartAdd(report.queue[..i], whys, s, why, true);
      PartAdd(report.queue[..i], whys, s, why, false);
      assert report.queue[..i + 1] == report.queue[..i] + [s];
      whys, heads := whys + [why], heads + [repo.head];
    }
    assert report.queue[..|report.queue|] == report.queue;
    PartsMakeTheWhole(report.queue, whys);
    PartitionMeans(report);
  }

  lemma BeginsSound(repo: Repo, report: Report)
    requires repo.Valid() && report.base == repo.head && report.merged == [] && report.setAside == []
    ensures Sound(repo, report) && Told(repo, report) && Extends(repo.graph, repo.graph)
    ensures InOrder(repo.ports, repo.graph, report.base, [], [], [repo.head]) && !Conflicted([])
    ensures Bares([]) == [] && Part([], [], true) == [] && Part([], [], false) == []
  {
  }

  lemma PartitionMeans(report: Report)
    ensures Partition(report) <==>
            multiset(Bares(report.merged)) + multiset(Bares(report.setAside)) == multiset(Bares(report.queue))
  {
  }

  /** The next story of the queue, put in the part of the report it belongs to. */
  method MergeNext(repo: Repo, report: Report, queued: Story) returns (why: Aside)
    requires Sound(repo, report) && Told(repo, report)
    modifies repo`graph, repo`head, report`merged, report`setAside
    ensures Sound(repo, report) && Told(repo, report)
    ensures Extends(old(repo.graph), repo.graph)
    ensures why == old(WhyOf(repo.ports, repo.graph, repo.head, report.base, queued.id))
    ensures Moved(repo.ports, repo.graph, queued.id, why, old(repo.head), repo.head)
    ensures Conflicted(report.setAside) <==> old(Conflicted(report.setAside)) || why == Conflicts
    ensures Bares(report.merged) == Bares(old(report.merged)) + if why == NotAside then [Bare(queued)] else []
    ensures Bares(report.setAside) == Bares(old(report.setAside)) + if why != NotAside then [Bare(queued)] else []
  {
    hide *;
    SoundMeans(repo, report);
    ToldMeans(repo, report);
    var s: Story;
    why, s := MergeOne(repo, report.base, queued);
    MergeKeepsSound(old(repo.graph), repo.graph, report.base, old(repo.head), repo.head, repo.ports.tips, report.merged);
    GrowthKeepsOnTarget(old(repo.graph), repo.graph, report.base, repo.ports.tips, report.merged);
    GrowthKeepsOnTarget(old(repo.graph), repo.graph, report.base, repo.ports.tips, report.setAside);
    AddsStory(repo.graph, report.base, repo.head, repo.ports.tips, report.merged, report.setAside, s);
    if why == NotAside {
      report.merged := report.merged + [s];
    } else {
      report.setAside := report.setAside + [s];
    }
    SoundMeans(repo, report);
    ToldMeans(repo, report);
  }

  /** A story added to its part of the report keeps all that is said of both. */
  lemma AddsStory(g: Graph, base: Commit, c: Commit, tips: map<string, Commit>,
                  merged: seq<Story>, aside: seq<Story>, s: Story)
    requires AllContained(g, c, tips, merged) && WhysTold(merged, aside)
    requires OnTargetIsTrue(g, base, tips, merged) && OnTargetIsTrue(g, base, tips, aside)
    requires s.onTarget ==> s.id in tips && Contains(g, base, tips[s.id])
    ensures Bares(merged + [s]) == Bares(merged) + [Bare(s)] && Bares(aside + [s]) == Bares(aside) + [Bare(s)]
    ensures OnTargetIsTrue(g, base, tips, merged + [s]) && OnTargetIsTrue(g, base, tips, aside + [s])
    ensures s.why == NotAside && s.merge.Some? ==> WhysTold(merged + [s], aside)
    ensures s.why != NotAside ==> WhysTold(merged, aside + [s])
    ensures Conflicted(aside + [s]) <==> Conflicted(aside) || s.why == Conflicts
    ensures s.id in tips && Contains(g, c, tips[s.id]) ==> AllContained(g, c, tips, merged + [s])
  {
    BaresAdd(merged, s);
    BaresAdd(aside, s);
  }

  lemma SoundMeans(repo: Repo, report: Report)
    ensures Sound(repo, report) <==>
            && repo.Valid() && CommitGraph.Valid(repo.graph) && report.base in repo.graph.reach
            && (forall id :: id in repo.ports.tips ==> repo.ports.tips[id] in repo.graph.reach)
            && Clean(repo.graph, report.base, repo.head)
            && AllContained(repo.graph, repo.head, repo.ports.tips, report.merged)
  {
  }

  lemma ToldMeans(repo: Repo, report: Report)
    ensures Told(repo, report) <==>
            && WhysTold(report.merged, report.setAside)
            && OnTargetIsTrue(repo.graph, report.base, repo.ports.tips, report.merged)
            && OnTargetIsTrue(repo.graph, report.base, repo.ports.tips, report.setAside)
  {
  }

  /** One story of the queue: merged, or set aside with the batch as it stood. */
  method MergeOne(repo: Repo, base: Commit, queued: Story) returns (why: Aside, s: Story)
    requires repo.Valid() && Clean(repo.graph, base, repo.head)
    modifies repo`graph, repo`head
    ensures repo.Valid() && Clean(repo.graph, base, repo.head) && Extends(old(repo.graph), repo.graph)
    ensures Contains(repo.graph, repo.head, old(repo.head))
    ensures Bare(s) == Bare(queued) && s.why == why && !s.byFixer
    ensures why == old(WhyOf(repo.ports, repo.graph, repo.head, base, queued.id))
    ensures Moved(repo.ports, repo.graph, queued.id, why, old(repo.head), repo.head)
    ensures s.onTarget <==> old(repo.BranchIn(queued.id, base))
    ensures s.onTarget ==> s.id in repo.ports.tips && Contains(repo.graph, base, repo.ports.tips[s.id])
    ensures why != NotAside ==> repo.graph == old(repo.graph) && repo.head == old(repo.head) && s.merge == None
    ensures why == NotAside ==>
              && s.id in repo.ports.tips && Contains(repo.graph, repo.head, repo.ports.tips[s.id])
              && s.merge == Some(repo.head)
  {
    s := Bare(queued);
    if s.id !in repo.ports.tips {
      return NoBranch, s.(why := NoBranch);
    }
    var tip := repo.ports.tips[s.id];
    var none := repo.NothingAhead(s.id, base);
    s := s.(onTarget := none);
    if !repo.ReadsUnsigned(tip, base) {
      return Refused, s.(why := Refused);
    }
    var answer := repo.Merge(tip);
    GrowthKeeps(old(repo.graph), repo.graph, base, base, tip);
    match answer {
      case Made =>
        why, s := NotAside, s.(merge := Some(repo.head));
      case InConflict =>
        why, s := Conflicts, s.(why := Conflicts);
      case NotMade =>
        why, s := Unmergeable, s.(why := Unmergeable);
    }
  }
}
