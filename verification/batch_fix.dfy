/** The one fixer a batch may be given: starting it, waiting for it, and what its work is held to. */
module BatchFix {
  import opened CommitGraph
  import opened BatchQueue
  import opened BatchSlots
  import opened BatchPorts
  import opened BatchMerge

  /** The set-aside stories the batch still does not hold, in order. */
  function LeftOf(aside: seq<Story>, holds: seq<bool>): seq<Story>
    requires |aside| == |holds|
  {
    if aside == [] then []
    else
      var n := |aside| - 1;
      LeftOf(aside[..n], holds[..n]) + if holds[n] then [] else [aside[n]]
  }

  /** The set-aside stories the fixer merged, in order, each merged at the commit it left. */
  function TakenOf(aside: seq<Story>, holds: seq<bool>, at: Commit): seq<Story>
    requires |aside| == |holds|
  {
    if aside == [] then []
    else
      var n := |aside| - 1;
      TakenOf(aside[..n], holds[..n], at) +
      if holds[n] then [aside[n].(merge := Some(at), byFixer := true, why := NotAside)] else []
  }

  /** Filters the stories set aside in place, each kept one written at or below the place it was read. */
  method TakeHeld(aside: array<Story>, holds: seq<bool>, at: Commit) returns (kept: nat, taken: seq<Story>)
    requires |holds| == aside.Length
    modifies aside
    ensures kept <= aside.Length
    ensures aside[..kept] == LeftOf(old(aside[..]), holds)
    ensures taken == TakenOf(old(aside[..]), holds, at)
  {
    hide TakenOf, LeftOf, Bare;
    NoneTaken(at);
    kept, taken := 0, [];
    ghost var was := aside[..];
    for i := 0 to aside.Length
      invariant kept <= i
      invariant aside[..kept] == LeftOf(was[..i], holds[..i])
      invariant taken == TakenOf(was[..i], holds[..i], at)
      invariant aside[i..] == was[i..]
    {
      OneTakenOrLeft(was[..i + 1], holds[..i + 1], at);
      assert was[..i + 1][..i] == was[..i] && holds[..i + 1][..i] == holds[..i];
      assert aside[i] == aside[i..][0] == was[i];
      ghost var front := aside[..kept];
      if holds[i] {
        taken := taken + [aside[i].(merge := Some(at), byFixer := true, why := NotAside)];
      } else {
        aside[kept] := aside[i];
        kept := kept + 1;
        assert aside[..kept] == front + [was[i]];
      }
    }
    assert was[..|was|] == was && holds[..|holds|] == holds;
  }

  /** What the fixer took and what it left are, bare, what was set aside. */
  lemma {:induction false} TakenAndLeft(aside: seq<Story>, holds: seq<bool>, at: Commit)
    requires |aside| == |holds|
    ensures multiset(Bares(TakenOf(aside, holds, at))) + multiset(Bares(LeftOf(aside, holds))) == multiset(Bares(aside))
  {
    hide Bares, Bare, TakenOf, LeftOf;
    NoneTaken(at);
    if aside == [] {
      assert holds == [];
    } else {
      var n := |aside| - 1;
      var taken, left := TakenOf(aside[..n], holds[..n], at), LeftOf(aside[..n], holds[..n]);
      TakenAndLeft(aside[..n], holds[..n], at);
      OneTakenOrLeft(aside, holds, at);
      BaresAdd(aside[..n], aside[n]);
      assert aside == aside[..n] + [aside[n]];
      BaresAdd(taken, aside[n].(merge := Some(at), byFixer := true, why := NotAside));
      BaresAdd(left, aside[n]);
    }
  }

  lemma NoneTaken(at: Commit)
    ensures TakenOf([], [], at) == [] && LeftOf([], []) == [] && Bares([]) == []
  {
  }

  lemma OneTakenOrLeft(aside: seq<Story>, holds: seq<bool>, at: Commit)
    requires |aside| == |holds| && aside != []
    ensures var n := |aside| - 1;
            var s := aside[n].(merge := Some(at), byFixer := true, why := NotAside);
            var taken, left := TakenOf(aside[..n], holds[..n], at), LeftOf(aside[..n], holds[..n]);
            && TakenOf(aside, holds, at) == (if holds[n] then taken + [s] else taken)
            && LeftOf(aside, holds) == (if holds[n] then left else left + [aside[n]])
            && Bare(s) == Bare(aside[n])
  {
  }

  lemma {:induction false} BaresConcat(a: seq<Story>, b: seq<Story>)
    ensures Bares(a + b) == Bares(a) + Bares(b)
  {
    if b == [] {
      assert a + b == a;
    } else {
      var n := |b| - 1;
      BaresConcat(a, b[..n]);
      assert a + b == (a + b[..n]) + [b[n]];
      BaresAdd(a + b[..n], b[n]);
    }
  }

  /** A story is taken when it was set aside and the fixer's commit holds its branch. */
  lemma {:induction false} TakenAreHeld(aside: seq<Story>, holds: seq<bool>, at: Commit, s: Story)
    requires |aside| == |holds| && s in TakenOf(aside, holds, at)
    ensures s.byFixer && s.why == NotAside && s.merge == Some(at)
    ensures exists i :: 0 <= i < |aside| && holds[i] && Bare(aside[i]) == Bare(s) && aside[i].onTarget == s.onTarget
  {
    var n := |aside| - 1;
    if s in TakenOf(aside[..n], holds[..n], at) {
      TakenAreHeld(aside[..n], holds[..n], at, s);
    } else {
      assert holds[n] && Bare(aside[n]) == Bare(s);
    }
  }

  lemma {:induction false} LeftWasAside(aside: seq<Story>, holds: seq<bool>, s: Story)
    requires |aside| == |holds| && s in LeftOf(aside, holds)
    ensures s in aside
  {
    var n := |aside| - 1;
    if s in LeftOf(aside[..n], holds[..n]) {
      LeftWasAside(aside[..n], holds[..n], s);
    }
  }

  /** The stories of the report are the queue's, and those merged have a branch the rig knows. */
  ghost predicate Known(repo: Repo, report: Report)
    reads repo`graph, repo`head, repo`target, report`queue, report`merged, report`setAside
  {
    && repo.Valid() && report.base in repo.graph.reach
    && Partition(report) && Told(repo, report)
    && Branched(repo.ports.tips, report.merged)
  }

  predicate Branched(tips: map<string, Commit>, stories: seq<Story>) {
    forall s :: s in stories ==> s.id in tips
  }

  lemma TakenBranched(g: Graph, c: Commit, tips: map<string, Commit>, stories: seq<Story>)
    ensures AllContained(g, c, tips, stories) ==> Branched(tips, stories)
  {
  }

  lemma HoldsListed()
    ensures forall held :: FixersHold(held) <==>
              held.FixerDropped? ||
              held in {FixerNotStarted, FixerSlotLost, FixerUnwaited, FixerStopped, FixerLeftUnread, FixerLeftDirty,
                       FixerHeadUnread, FixerSigned}
  {
  }

  lemma KnownMeans(repo: Repo, report: Report)
    ensures Known(repo, report) <==>
            && repo.Valid() && CommitGraph.Valid(repo.graph)
            && report.base in repo.graph.reach && repo.head in repo.graph.reach
            && (forall id :: id in repo.ports.tips ==> repo.ports.tips[id] in repo.graph.reach)
            && Partition(report) && Branched(repo.ports.tips, report.merged)
            && WhysTold(report.merged, report.setAside)
            && OnTargetIsTrue(repo.graph, report.base, repo.ports.tips, report.merged)
            && OnTargetIsTrue(repo.graph, report.base, repo.ports.tips, report.setAside)
  {
  }

  /** The holds a fixer comes to. */
  predicate FixersHold(held: Held) {
    held.FixerDropped? ||
    held in {FixerNotStarted, FixerSlotLost, FixerUnwaited, FixerStopped, FixerLeftUnread, FixerLeftDirty,
             FixerHeadUnread, FixerSigned}
  }

  /** Which of the stories the commit is seen to hold. */
  ghost function HeldAt(repo: Repo, stories: seq<Story>, at: Commit): (holds: seq<bool>)
    reads repo`graph
    ensures |holds| == |stories|
    ensures forall i :: 0 <= i < |stories| ==> holds[i] == repo.BranchIn(stories[i].id, at)
  {
    if stories == [] then []
    else
      var n := |stories| - 1;
      HeldAt(repo, stories[..n], at) + [repo.BranchIn(stories[n].id, at)]
  }

  method AllHeld(repo: Repo, stories: seq<Story>, at: Commit) returns (holds: seq<bool>)
    requires repo.Valid() && at in repo.graph.reach
    ensures holds == HeldAt(repo, stories, at)
  {
    holds := [];
    for i := 0 to |stories|
      invariant |holds| == i
      invariant forall k :: 0 <= k < i ==> holds[k] == repo.BranchIn(stories[k].id, at)
    {
      var h := repo.NothingAhead(stories[i].id, at);
      holds := holds + [h];
    }
  }

  /** The first of the stories whose branch the commit is not seen to hold. */
  method FirstDropped(repo: Repo, stories: seq<Story>, at: Commit) returns (dropped: Option<string>)
    requires repo.Valid() && at in repo.graph.reach
    ensures dropped.None? <==> (forall s :: s in stories ==> repo.BranchIn(s.id, at))
    ensures dropped.Some? ==> dropped.value in Ids(stories) && !repo.BranchIn(dropped.value, at)
    ensures dropped.None? ==> AllContained(repo.graph, at, repo.ports.tips, stories)
  {
    for i := 0 to |stories|
      invariant forall s :: s in stories[..i] ==> repo.BranchIn(s.id, at)
    {
      var held := repo.NothingAhead(stories[i].id, at);
      if !held {
        assert Ids(stories)[i] == stories[i].id;
        return Some(stories[i].id);
      }
      assert stories[..i + 1] == stories[..i] + [stories[i]];
    }
    assert stories[..|stories|] == stories;
    return None;
  }

  /** Nothing the fixer left holds the batch. */
  ghost predicate LeftWell(repo: Repo, report: Report)
    requires repo.Valid() && report.base in repo.graph.reach
    reads repo`graph, repo`head, repo`target, repo`dirty, report`merged
  {
    && !repo.ports.leftUnread && !repo.dirty && repo.head !in repo.ports.headUnread
    && repo.ReadsUnsigned(repo.head, report.base)
    && forall s :: s in report.merged ==> repo.BranchIn(s.id, repo.head)
  }

  /** Looks at the batch as the fixer left it: whether it may go on, and which stories it merged. */
  method AfterFixer(repo: Repo, report: Report) returns (goes: bool)
    requires Known(repo, report) && report.fixer.Some? && report.held == NotHeld
    modifies report`held, report`fixer, report`merged, report`setAside
    ensures Known(repo, report) && report.fixer.Some?
    ensures report.held !in {FixerNotStarted, FixerSlotLost, FixerUnwaited, FixerStopped}
    ensures report.fixer.value == old(report.fixer.value).(commit := report.fixer.value.commit, merged := report.fixer.value.merged)
    ensures goes <==> LeftWell(repo, report)
    ensures goes ==> report.held == NotHeld && Sound(repo, report) && Took(repo, old(report.merged), old(report.setAside), report)
    ensures goes ==>
              && report.fixer.value.commit == Some(repo.head) && old(report.merged) <= report.merged
              && report.fixer.value.merged == Ids(report.merged[|old(report.merged)|..])
    ensures !goes ==>
              && report.merged == old(report.merged) && report.setAside == old(report.setAside)
              && FixersHold(report.held) && HoldIsTrue(repo, report)
  {
    hide *;
    HoldsListed();
    KnownMeans(repo, report);
    LeftWellMeans(repo, report);
    HoldMeans(repo, report);
    goes := false;
    if repo.ports.leftUnread || repo.dirty {
      report.held := if repo.ports.leftUnread then FixerLeftUnread else FixerLeftDirty;
      HoldMeans(repo, report);
      return;
    }
    if repo.head in repo.ports.headUnread {
      report.held := FixerHeadUnread;
      HoldMeans(repo, report);
      return;
    }
    report.fixer := Some(report.fixer.value.(commit := Some(repo.head)));
    if !repo.ReadsUnsigned(repo.head, report.base) {
      report.held := FixerSigned;
      HoldMeans(repo, report);
      return;
    }
    ReadsCleanly(repo, report.base);
    var dropped := FirstDropped(repo, report.merged, repo.head);
    if dropped.Some? {
      report.held := FixerDropped(dropped.value);
      HoldMeans(repo, report);
      return;
    }
    SoundMeans(repo, report);
    ghost var had, was := report.merged, report.setAside;
    TakeSetAside(repo, report);
    TookIsHeld(repo, had, was, report);
    LeftWellMeans(repo, report);
    goes := true;
  }

  /** The report's two parts are what they were, with the stories set aside that the batch holds now merged. */
  ghost predicate Took(repo: Repo, merged: seq<Story>, aside: seq<Story>, report: Report)
    reads repo`graph, repo`head, report`merged, report`setAside
  {
    var holds := HeldAt(repo, aside, repo.head);
    report.setAside == LeftOf(aside, holds) && report.merged == merged + TakenOf(aside, holds, repo.head)
  }

  lemma TookMeans(repo: Repo, merged: seq<Story>, aside: seq<Story>, report: Report)
    ensures Took(repo, merged, aside, report) <==>
            && report.setAside == LeftOf(aside, HeldAt(repo, aside, repo.head))
            && report.merged == merged + TakenOf(aside, HeldAt(repo, aside, repo.head), repo.head)
  {
  }

  /** Of stories all held before, and those taken because they are held, all are held. */
  lemma TookIsHeld(repo: Repo, merged: seq<Story>, aside: seq<Story>, report: Report)
    requires Took(repo, merged, aside, report)
    requires forall s :: s in merged ==> repo.BranchIn(s.id, repo.head)
    ensures forall s :: s in report.merged ==> repo.BranchIn(s.id, repo.head)
  {
    hide LeftOf, TakenOf;
    var holds := HeldAt(repo, aside, repo.head);
    forall s | s in TakenOf(aside, holds, repo.head) ensures repo.BranchIn(s.id, repo.head) {
      TakenAreHeld(aside, holds, repo.head, s);
    }
  }

  /** The hold a fixer came to says what is so. */
  ghost predicate HoldIsTrue(repo: Repo, report: Report)
    requires repo.Valid() && report.base in repo.graph.reach
    reads repo`graph, repo`head, repo`target, repo`dirty, report`merged, report`held
  {
    match report.held
    case FixerLeftUnread => repo.ports.leftUnread
    case FixerLeftDirty => repo.dirty
    case FixerHeadUnread => repo.head in repo.ports.headUnread
    case FixerSigned => !repo.ReadsUnsigned(repo.head, report.base)
    case FixerDropped(id) => id in Ids(report.merged) && !repo.BranchIn(id, repo.head)
    case _ => true
  }

  lemma HoldMeans(repo: Repo, report: Report)
    requires repo.Valid() && report.base in repo.graph.reach && repo.head in repo.graph.reach
    ensures report.held in {FixerNotStarted, FixerSlotLost, FixerUnwaited, FixerStopped} ==> HoldIsTrue(repo, report)
    ensures report.held == FixerLeftUnread && repo.ports.leftUnread ==> HoldIsTrue(repo, report)
    ensures report.held == FixerLeftDirty && repo.dirty ==> HoldIsTrue(repo, report)
    ensures report.held == FixerHeadUnread && repo.head in repo.ports.headUnread ==> HoldIsTrue(repo, report)
    ensures report.held == FixerSigned && !repo.ReadsUnsigned(repo.head, report.base) ==> HoldIsTrue(repo, report)
    ensures report.held.FixerDropped? && report.held.id in Ids(report.merged) && !repo.BranchIn(report.held.id, repo.head) ==>
              HoldIsTrue(repo, report)
  {
  }

  lemma LeftWellMeans(repo: Repo, report: Report)
    requires repo.Valid() && report.base in repo.graph.reach && repo.head in repo.graph.reach
    ensures LeftWell(repo, report) <==>
            && !repo.ports.leftUnread && !repo.dirty && repo.head !in repo.ports.headUnread
            && repo.ReadsUnsigned(repo.head, report.base)
            && forall s :: s in report.merged ==> repo.BranchIn(s.id, repo.head)
  {
  }

  lemma ReadsCleanly(repo: Repo, base: Commit)
    requires repo.Valid() && base in repo.graph.reach && repo.ReadsUnsigned(repo.head, base)
    ensures Clean(repo.graph, base, repo.head)
  {
    UnsignedIsClean(repo.graph, base, repo.head);
  }

  /** Taking the held stories from those set aside keeps all that was said of both. */
  lemma TakingKeeps(g: Graph, base: Commit, at: Commit, tips: map<string, Commit>,
                    merged: seq<Story>, aside: seq<Story>, holds: seq<bool>)
    requires |holds| == |aside| && WhysTold(merged, aside)
    requires OnTargetIsTrue(g, base, tips, merged) && OnTargetIsTrue(g, base, tips, aside)
    requires AllContained(g, at, tips, merged)
    requires forall i :: 0 <= i < |holds| && holds[i] ==>
               aside[i].id in tips && Contains(g, at, tips[aside[i].id])
    ensures var taken, left := TakenOf(aside, holds, at), LeftOf(aside, holds);
            && WhysTold(merged + taken, left)
            && OnTargetIsTrue(g, base, tips, merged + taken) && OnTargetIsTrue(g, base, tips, left)
            && AllContained(g, at, tips, merged + taken)
            && multiset(Bares(merged + taken)) + multiset(Bares(left)) == multiset(Bares(merged)) + multiset(Bares(aside))
  {
    var taken, left := TakenOf(aside, holds, at), LeftOf(aside, holds);
    forall s | s in taken
      ensures s.id in tips && Contains(g, at, tips[s.id])
      ensures s.why == NotAside && s.merge.Some?
      ensures s.onTarget ==> Contains(g, base, tips[s.id])
    {
      TakenAreHeld(aside, holds, at, s);
    }
    forall s | s in left ensures s in aside {
      LeftWasAside(aside, holds, s);
    }
    TakenAndLeft(aside, holds, at);
    BaresConcat(merged, taken);
  }

  /** Moves the stories the fixer merged from those set aside to those merged. */
  method TakeSetAside(repo: Repo, report: Report)
    requires Known(repo, report) && report.fixer.Some? && Sound(repo, report)
    modifies report`fixer, report`merged, report`setAside
    ensures Known(repo, report) && Sound(repo, report)
    ensures Took(repo, old(report.merged), old(report.setAside), report)
    ensures old(report.merged) <= report.merged
    ensures report.fixer ==
            Some(old(report.fixer.value).(merged := Ids(report.merged[|old(report.merged)|..])))
  {
    hide *;
    ghost var was, had := report.setAside, report.merged;
    KnownMeans(repo, report);
    SoundMeans(repo, report);
    var holds := AllHeld(repo, report.setAside, repo.head);
    HeldAreContained(repo, was, repo.head);
    TakingKeeps(repo.graph, report.base, repo.head, repo.ports.tips, had, was, holds);
    PartitionMeans(report);
    var left, taken := TakeAll(report.setAside, holds, repo.head);
    report.merged := report.merged + taken;
    report.setAside := left;
    assert report.merged[|had|..] == taken;
    report.fixer := Some(report.fixer.value.(merged := Ids(taken)));
    TakenBranched(repo.graph, repo.head, repo.ports.tips, report.merged);
    KnownMeans(repo, report);
    SoundMeans(repo, report);
    PartitionMeans(report);
    TookMeans(repo, had, was, report);
  }

  lemma HeldAreContained(repo: Repo, stories: seq<Story>, at: Commit)
    ensures var holds := HeldAt(repo, stories, at);
            forall i :: 0 <= i < |stories| && holds[i] ==>
              stories[i].id in repo.ports.tips && Contains(repo.graph, at, repo.ports.tips[stories[i].id])
  {
  }

  /** The filter, over an array that holds the stories set aside. */
  method TakeAll(was: seq<Story>, holds: seq<bool>, at: Commit) returns (left: seq<Story>, taken: seq<Story>)
    requires |holds| == |was|
    ensures left == LeftOf(was, holds) && taken == TakenOf(was, holds, at)
  {
    var aside := new Story[|was|](i requires 0 <= i < |was| => was[i]);
    assert aside[..] == was;
    var kept;
    kept, taken := TakeHeld(aside, holds, at);
    left := aside[..kept];
  }

  /** Starts the batch's one fixer, waits for it, and says whether the batch may go on to be tested. */
  method Fix(repo: Repo, slot: BatchSlot, report: Report) returns (goes: bool)
    requires Known(repo, report) && Sound(repo, report) && report.fixer.None? && report.held == NotHeld
    requires slot.Valid() && !slot.yielded
    modifies repo`graph, repo`head, repo`dirty, repo`fixers, slot
    modifies report`held, report`fixer, report`merged, report`setAside
    ensures Known(repo, report) && slot.Valid() && !slot.yielded && report.fixer.Some?
    ensures report.fixer.value.tested == report.tested && report.fixer.value.started == repo.ports.fixerStarts
    ensures repo.fixers == old(repo.fixers) + if repo.ports.fixerStarts then 1 else 0
    ensures slot.troubles >= old(slot.troubles) && (slot.leaked && !old(slot.leaked) ==> slot.troubles > old(slot.troubles))
    ensures Extends(old(repo.graph), repo.graph)
    ensures goes <==> report.held == NotHeld
    ensures goes ==> Sound(repo, report)
    ensures goes <==>
              if repo.ports.fixerStarts
              then !slot.lost && repo.ports.fixerWaits && !repo.ports.fixerStopped && LeftWell(repo, report)
              else !report.tested
    ensures !goes ==> FixersHold(report.held) && HoldIsTrue(repo, report)
    ensures report.held == FixerNotStarted <==> !repo.ports.fixerStarts && report.tested
    ensures report.held == FixerSlotLost <==> repo.ports.fixerStarts && slot.lost
    ensures report.held == FixerUnwaited <==> repo.ports.fixerStarts && !slot.lost && !repo.ports.fixerWaits
    ensures report.held == FixerStopped <==>
              repo.ports.fixerStarts && !slot.lost && repo.ports.fixerWaits && repo.ports.fixerStopped
    ensures goes && repo.ports.fixerStarts ==> Took(repo, old(report.merged), old(report.setAside), report)
    ensures !goes || !repo.ports.fixerStarts ==>
              report.merged == old(report.merged) && report.setAside == old(report.setAside)
    ensures old(report.merged) <= report.merged
    ensures !repo.ports.fixerStarts ==>
              && repo.graph == old(repo.graph) && repo.head == old(repo.head) && repo.dirty == old(repo.dirty)
              && slot.lost == old(slot.lost) && slot.alone == old(slot.alone) && slot.leaked == old(slot.leaked)
  {
    hide *;
    HoldsListed();
    KnownMeans(repo, report);
    GrowthIsTransitive(repo.graph, repo.graph, repo.graph);
    report.fixer := Some(Fixing(report.tested, repo.ports.fixerStarts, None, []));
    if !repo.ports.fixerStarts {
      if report.tested {
        report.held := FixerNotStarted;
      }
      HoldMeans(repo, report);
      return !report.tested;
    }
    goes := AwaitFixer(repo, slot, report);
  }

  /** Waits for the fixer that was started, the slot shared meanwhile, and looks at what it left. */
  method AwaitFixer(repo: Repo, slot: BatchSlot, report: Report) returns (goes: bool)
    requires Known(repo, report) && report.fixer.Some? && report.held == NotHeld
    requires slot.Valid() && !slot.yielded
    modifies repo`graph, repo`head, repo`dirty, repo`fixers, slot
    modifies report`held, report`fixer, report`merged, report`setAside
    ensures Known(repo, report) && slot.Valid() && !slot.yielded && report.fixer.Some?
    ensures report.fixer.value == old(report.fixer.value).(commit := report.fixer.value.commit, merged := report.fixer.value.merged)
    ensures repo.fixers == old(repo.fixers) + 1
    ensures Extends(old(repo.graph), repo.graph)
    ensures goes <==> report.held == NotHeld
    ensures goes <==> !slot.lost && repo.ports.fixerWaits && !repo.ports.fixerStopped && LeftWell(repo, report)
    ensures goes ==> Sound(repo, report) && Took(repo, old(report.merged), old(report.setAside), report)
    ensures !goes ==>
              && report.merged == old(report.merged) && report.setAside == old(report.setAside)
              && FixersHold(report.held) && HoldIsTrue(repo, report)
    ensures report.held == FixerSlotLost <==> slot.lost
    ensures report.held == FixerUnwaited <==> !slot.lost && !repo.ports.fixerWaits
    ensures report.held == FixerStopped <==> !slot.lost && repo.ports.fixerWaits && repo.ports.fixerStopped
    ensures report.held != FixerNotStarted
    ensures slot.troubles >= old(slot.troubles) && (slot.leaked && !old(slot.leaked) ==> slot.troubles > old(slot.troubles))
    // The slot is offered to the rig's checks while the fixer runs, and taken back before its work is looked at.
    ensures slot.asked == old(slot.asked) + if slot.canYield && !old(slot.lost) then 1 else 0
    ensures old(report.merged) <= report.merged
  {
    hide *;
    HoldsListed();
    KnownMeans(repo, report);
    var mine := slot.Yield();
    repo.RunFixer();
    if mine {
      slot.Resume();
    }
    GrownBase(old(repo.graph), repo.graph, report.base);
    GrowthKeepsOnTarget(old(repo.graph), repo.graph, report.base, repo.ports.tips, report.merged);
    GrowthKeepsOnTarget(old(repo.graph), repo.graph, report.base, repo.ports.tips, report.setAside);
    KnownMeans(repo, report);
    if slot.lost || !repo.ports.fixerWaits || repo.ports.fixerStopped {
      report.held :=
        if slot.lost then FixerSlotLost else if !repo.ports.fixerWaits then FixerUnwaited else FixerStopped;
      HoldMeans(repo, report);
      return false;
    }
    goes := AfterFixer(repo, report);
  }
}
