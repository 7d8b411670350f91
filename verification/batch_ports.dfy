/** What a batch landing reaches the rig through, and the report it writes as it goes. */
module BatchPorts {
  import opened CommitGraph
  import opened BatchQueue
  import opened BatchSlots

  /** What a run of the batch's gate came to. */
  datatype Verdict = NoVerdict | HostStillBusy | NotStarted | Red | Green

  datatype PushAnswer = Accepted | TargetMoved | PushRefused | Fault(applied: bool)

  datatype Gated = Gated(at: Commit, verdict: Verdict, alone: bool)

  datatype Pushed = Pushed(commit: Commit, answer: PushAnswer, alone: bool)

  /** A version raise asked of the landing worktree. */
  datatype Bump = Bump(minor: bool, entries: seq<string>)

  datatype MergeAnswer = Made | InConflict | NotMade

  /** What the ports will answer, whatever the batch does: every answer a port may give is some value here. */
  datatype Answers = Answers(
    /** Each story's branch as the rig has it from the origin; nothing fetches while a batch is made. */
    tips: map<string, Commit>,
    /** What a story's changelog entry reads, for those that can be read. */
    notes: map<string, string>,
    /** Stories whose branch cannot be measured, commits whose messages or whose being HEAD cannot be read. */
    uncounted: set<string>, unread: set<Commit>, headUnread: set<Commit>,
    /** How the merge of a branch into a batch at a commit goes, and the n-th run of the tests at one. */
    merges: (Commit, Commit) -> MergeAnswer, tests: (Commit, nat) -> Verdict,
    /** The waits the n-th run of the tests makes, one after another: for the gate lock, and for a calm host. */
    waits: nat -> seq<Wait>,
    versionRaised: bool, mainRedToo: bool,
    /** Whether a fixer can be started, waited for, and is stopped by its harness. */
    fixerStarts: bool, fixerWaits: bool, fixerStopped: bool, leftUnread: bool,
    /** What the n-th push meets at the remote, and whether the wait before one is tried again is cut short. */
    pushes: nat -> PushAnswer, givesUp: bool)

  /** What the n-th push comes to: never forced, it is refused when the target has anything the batch has not. */
  function PushAnswerAt(ports: Answers, n: nat, forward: bool): PushAnswer {
    var answer := ports.pushes(n);
    if (answer == Accepted || answer == Fault(true)) && !forward then TargetMoved else answer
  }

  /** The rig as a batch landing changes it. */
  class Repo {
    const ports: Answers
    var graph: Graph
    /** The landing worktree: the commit checked out, and whether it holds uncommitted work. */
    var head: Commit
    var dirty: bool
    /** The target branch at the origin. */
    var target: Commit
    /** How many pushes there have been. */
    var pushed: nat
    /** What was asked of the gate, the remote, the version files and the fixer, in order. */
    ghost var gates: seq<Gated>
    ghost var pushes: seq<Pushed>
    ghost var bumps: seq<Bump>
    ghost var fixers: nat

    ghost predicate Valid()
      reads `graph, `head, `target
    {
      && CommitGraph.Valid(graph)
      && head in graph.reach && target in graph.reach
      && forall id :: id in ports.tips ==> ports.tips[id] in graph.reach
    }

    constructor (ports: Answers, graph: Graph, base: Commit)
      requires CommitGraph.Valid(graph) && base in graph.reach
      requires forall id :: id in ports.tips ==> ports.tips[id] in graph.reach
      ensures Valid() && this.ports == ports && this.graph == graph
      ensures head == base && target == base && !dirty
      ensures gates == [] && pushes == [] && bumps == [] && fixers == 0 && pushed == 0
    {
      this.ports, this.graph := ports, graph;
      head, dirty, target := base, false, base;
      gates, pushes, bumps, fixers, pushed := [], [], [], 0, 0;
    }

    /** The branch of a story is measured and has nothing that base does not. */
    predicate BranchIn(id: string, base: Commit)
      reads `graph
    {
      id in ports.tips && id !in ports.uncounted && Contains(graph, base, ports.tips[id])
    }

    /** Ahead, asked whether it is none. */
    method NothingAhead(id: string, base: Commit) returns (none: bool)
      requires Valid() && base in graph.reach
      ensures none <==> BranchIn(id, base)
    {
      if id !in ports.tips || id in ports.uncounted {
        return false;
      }
      AheadZeroIsContained(graph, ports.tips[id], base);
      none := Ahead(graph, ports.tips[id], base) == 0;
    }

    /** The commits of c beyond base can be read, and none is signed as a machine's work. */
    predicate ReadsUnsigned(c: Commit, base: Commit)
      requires c in graph.reach && base in graph.reach
      reads `graph
    {
      c !in ports.unread && !SignedBeyond(graph, c, base)
    }

    /** Merges tip into the worktree; a merge that cannot be made leaves it as it was. */
    method Merge(tip: Commit) returns (answer: MergeAnswer)
      requires Valid() && tip in graph.reach
      modifies `graph, `head
      ensures Valid() && Extends(old(graph), graph)
      ensures answer == ports.merges(old(head), tip)
      ensures answer != Made ==> graph == old(graph) && head == old(head)
      ensures answer == Made ==> Contains(graph, head, old(head)) && Contains(graph, head, tip)
      ensures forall base ::
                answer == Made && Clean(old(graph), base, old(head)) && !SignedBeyond(old(graph), tip, base) ==>
                Clean(graph, base, head)
    {
      answer := ports.merges(head, tip);
      if answer != Made || graph.reach[tip] <= graph.reach[head] {
      } else if graph.reach[head] <= graph.reach[tip] {
        forall base | Clean(graph, base, head) && !SignedBeyond(graph, tip, base)
          ensures Clean(graph, base, tip)
        {
          UnsignedIsClean(graph, base, tip);
        }
        head := tip;
      } else {
        forall base | Clean(graph, base, head) && !SignedBeyond(graph, tip, base)
          ensures Clean(Commit1(graph, graph.reach[head] + graph.reach[tip]), base, graph.next)
        {
          MergeKeepsClean(graph, base, head, tip);
        }
        CommitOwn(graph.reach[head] + graph.reach[tip]);
      }
    }

    /** Commits in the worktree what mw itself wrote. */
    method CommitOwn(parents: set<Commit>)
      requires Valid() && parents <= graph.reach.Keys && head in parents
      requires forall c :: c in parents ==> graph.reach[c] <= parents
      modifies `graph, `head
      ensures Valid() && Extends(old(graph), graph)
      ensures head == old(graph).next && graph == Commit1(old(graph), parents)
      ensures forall c :: c in parents ==> Contains(graph, head, c)
    {
      OwnCommit(graph, parents);
      graph, head := Commit1(graph, parents), graph.next;
    }

    /** Raises the version, in a commit of mw's own or in none. */
    method RaiseVersion(ghost asked: Bump)
      requires Valid()
      modifies `graph, `head, `bumps
      ensures Valid() && Extends(old(graph), graph) && bumps == old(bumps) + [asked]
      ensures Contains(graph, head, old(head))
      ensures forall base :: Clean(old(graph), base, old(head)) ==> Clean(graph, base, head)
    {
      bumps := bumps + [asked];
      var commits: bool := *;
      if commits {
        CommitOwn(graph.reach[head]);
      }
    }

    /** The fixer's whole run: it may commit anything, move the worktree anywhere and leave it dirty. What it commits
        is its own, and none of it mw's. */
    method RunFixer()
      requires Valid()
      modifies `graph, `head, `dirty, `fixers
      ensures Valid() && Extends(old(graph), graph) && fixers == old(fixers) + 1
      ensures graph.ours == old(graph).ours
      ensures graph.fixed == old(graph).fixed + (graph.reach.Keys - old(graph).reach.Keys)
    {
      assert CommitGraph.Valid(graph) && Extends(graph, graph) && head in graph.reach;
      var g: Graph, h: Commit :| CommitGraph.Valid(g) && Extends(graph, g) && h in g.reach && g.ours == graph.ours;
      assert Extends(graph, g);
      OnlyTheFixers(graph, g);
      graph, head := g, h;
      dirty := *;
      fixers := fixers + 1;
    }

    lemma OnlyTheFixers(g: Graph, g': Graph)
      requires CommitGraph.Valid(g) && CommitGraph.Valid(g') && Extends(g, g') && g'.ours == g.ours
      ensures g'.fixed == g.fixed + (g'.reach.Keys - g.reach.Keys)
    {
      forall c ensures c in g'.fixed <==> c in g.fixed + (g'.reach.Keys - g.reach.Keys) {
      }
    }

    /** One push. A fault at the remote may have taken it all the same. */
    method Push(ghost alone: bool) returns (answer: PushAnswer)
      requires Valid()
      modifies `target, `pushes, `pushed
      ensures Valid() && pushes == old(pushes) + [Pushed(head, answer, alone)] && pushed == old(pushed) + 1
      ensures answer == PushAnswerAt(ports, old(pushed), Contains(graph, head, old(target)))
      ensures target == if answer == Accepted || answer == Fault(true) then head else old(target)
      ensures target != old(target) ==> Contains(graph, head, old(target))
    {
      answer := PushAnswerAt(ports, pushed, Contains(graph, head, target));
      if answer == Accepted || answer == Fault(true) {
        target := head;
      }
      pushed := pushed + 1;
      pushes := pushes + [Pushed(head, answer, alone)];
    }
  }

  /** Why nothing of a batch landed. */
  datatype Held =
    | NotHeld
    | NothingMerged
    | ChangelogUnread
    | VersionNotRaised
    | MainIsRed
    | HostBusy
    | GateUnrun
    | GateNotStarted
    | GateRed
    | HeadUnread
    | TargetHasMoved
    | PushFailed
    | FixerNotStarted
    | FixerSlotLost
    | FixerUnwaited
    | FixerStopped
    | FixerLeftUnread
    | FixerLeftDirty
    | FixerHeadUnread
    | FixerSigned
    | FixerDropped(id: string)

  /** The one fixer a batch was given: whether the batch was tested before, and what it left and merged. */
  datatype Fixing = Fixing(tested: bool, started: bool, commit: Option<Commit>, merged: seq<string>)

  class Report {
    var queue: seq<Story>
    var merged: seq<Story>
    var setAside: seq<Story>
    const base: Commit
    var tested: bool
    var gateRuns: nat
    var fixer: Option<Fixing>
    var held: Held
    var landed: bool
    var commit: Option<Commit>

    constructor (queue: seq<Story>, base: Commit)
      ensures this.queue == queue && this.base == base
      ensures Fresh()
    {
      this.queue, this.base := queue, base;
      merged, setAside, tested, gateRuns, fixer := [], [], false, 0, None;
      held, landed, commit := NotHeld, false, None;
    }

    predicate Fresh()
      reads this
    {
      merged == [] && setAside == [] && !tested && gateRuns == 0 && fixer == None &&
      held == NotHeld && !landed && commit == None
    }
  }
}
