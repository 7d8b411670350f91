/** A batch landing from its merges to its push. */
module BatchLanding {
  import opened CommitGraph
  import opened BatchQueue
  import opened BatchSlots
  import opened BatchPorts
  import opened BatchMerge
  import opened BatchFix

  /** The rig's keys a landing reads: whether it raises a version, and whether it keeps a changelog. */
  datatype Rules = Rules(versioned: bool, changelog: bool)

  // ----- The version -----

  predicate AllOnTarget(merged: seq<Story>) {
    forall s :: s in merged ==> s.onTarget
  }

  /** A story the batch brings asks for the minor. */
  predicate AsksMinor(merged: seq<Story>) {
    exists s :: s in merged && s.minor && !s.onTarget
  }

  /** The entries of the stories the batch brings, in merge order, an empty one left out. */
  function EntriesOf(merged: seq<Story>, notes: map<string, string>): seq<string> {
    if merged == [] then []
    else
      var s := merged[|merged| - 1];
      EntriesOf(merged[..|merged| - 1], notes) +
      if !s.onTarget && s.id in notes && notes[s.id] != "" then [notes[s.id]] else []
  }

  /** The raise a batch asks for, none when it brings nothing new or the rig keeps no version. */
  function BumpsOf(rules: Rules, merged: seq<Story>, notes: map<string, string>): seq<Bump> {
    if !rules.versioned || AllOnTarget(merged) then []
    else [Bump(AsksMinor(merged), if rules.changelog then EntriesOf(merged, notes) else [])]
  }

  method Minor(merged: seq<Story>) returns (minor: bool)
    ensures minor == AsksMinor(merged)
  {
    minor := false;
    for i := 0 to |merged|
      invariant minor == AsksMinor(merged[..i])
    {
      assert merged[..i + 1] == merged[..i] + [merged[i]];
      if merged[i].minor && !merged[i].onTarget {
        minor := true;
      }
    }
    assert merged[..|merged|] == merged;
  }

  /** The changelog entries of the batch; one that cannot be read stops it. */
  method Entries(repo: Repo, merged: seq<Story>) returns (entries: seq<string>, unread: bool)
    ensures !unread ==> entries == EntriesOf(merged, repo.ports.notes)
    ensures unread <==> EntryUnread(merged, repo.ports.notes)
  {
    entries, unread := [], false;
    for i := 0 to |merged|
      invariant entries == EntriesOf(merged[..i], repo.ports.notes)
      invariant forall s :: s in merged[..i] && !s.onTarget ==> s.id in repo.ports.notes
    {
      var s := merged[i];
      assert merged[..i + 1][..i] == merged[..i];
      if !s.onTarget {
        if s.id !in repo.ports.notes {
          return entries, true;
        }
        if repo.ports.notes[s.id] != "" {
          entries := entries + [repo.ports.notes[s.id]];
        }
      }
    }
    assert merged[..|merged|] == merged;
  }

  /** A story the batch brings has a changelog entry that cannot be read. */
  predicate EntryUnread(merged: seq<Story>, notes: map<string, string>) {
    exists s :: s in merged && !s.onTarget && s.id !in notes
  }

  method RaiseVersion(repo: Repo, report: Report, rules: Rules)
    requires Sound(repo, report) && Known(repo, report) && report.held == NotHeld
    modifies repo`graph, repo`head, repo`bumps, report`held
    ensures Known(repo, report)
    ensures Extends(old(repo.graph), repo.graph)
    ensures report.held == NotHeld ==> Sound(repo, report)
    ensures report.held == VersionHeld(rules, report.merged, repo.ports)
    ensures repo.bumps == old(repo.bumps) +
              if report.held == ChangelogUnread then [] else BumpsOf(rules, report.merged, repo.ports.notes)
  {
    hide *;
    GrowthIsTransitive(repo.graph, repo.graph, repo.graph);
    KnownMeans(repo, report);
    SoundMeans(repo, report);
    BumpsMean(rules, report.merged, repo.ports);
    if !rules.versioned || AllOnTarget(report.merged) {
      return;
    }
    var minor := Minor(report.merged);
    var entries: seq<string> := [];
    if rules.changelog {
      var unread;
      entries, unread := Entries(repo, report.merged);
      if unread {
        report.held := ChangelogUnread;
        return;
      }
    }
    repo.RaiseVersion(Bump(minor, entries));
    GrownBase(old(repo.graph), repo.graph, report.base);
    GrowthKeepsOnTarget(old(repo.graph), repo.graph, report.base, repo.ports.tips, report.merged);
    GrowthKeepsOnTarget(old(repo.graph), repo.graph, report.base, repo.ports.tips, report.setAside);
    MergeKeepsSound(old(repo.graph), repo.graph, report.base, old(repo.head), repo.head, repo.ports.tips, report.merged);
    KnownMeans(repo, report);
    SoundMeans(repo, report);
    if !repo.ports.versionRaised {
      report.held := VersionNotRaised;
    }
  }

  /** What the version holds a batch for: nothing at all when the batch brings nothing new. */
  function VersionHeld(rules: Rules, merged: seq<Story>, ports: Answers): Held {
    if !rules.versioned || AllOnTarget(merged) then NotHeld
    else if rules.changelog && EntryUnread(merged, ports.notes) then ChangelogUnread
    else if !ports.versionRaised then VersionNotRaised
    else NotHeld
  }

  lemma BumpsMean(rules: Rules, merged: seq<Story>, ports: Answers)
    ensures BumpsOf(rules, merged, ports.notes) ==
            if !rules.versioned || AllOnTarget(merged) then []
            else [Bump(AsksMinor(merged), if rules.changelog then EntriesOf(merged, ports.notes) else [])]
    ensures VersionHeld(rules, merged, ports) ==
            if !rules.versioned || AllOnTarget(merged) then NotHeld
            else if rules.changelog && EntryUnread(merged, ports.notes) then ChangelogUnread
            else if !ports.versionRaised then VersionNotRaised
            else NotHeld
  {
  }

  // ----- The gate and the push -----

  /** One run of the gate, with the waits it makes one after another; a batch that lost its slot has no verdict. */
  method RunGate(repo: Repo, slot: BatchSlot, report: Report) returns (verdict: Verdict)
    requires slot.Valid() && !slot.yielded
    modifies slot, repo`gates, report`tested, report`gateRuns
    ensures slot.Valid() && !slot.yielded && (old(slot.lost) ==> slot.lost)
    ensures slot.troubles >= old(slot.troubles) && (slot.leaked && !old(slot.leaked) ==> slot.troubles > old(slot.troubles))
    ensures verdict == if slot.lost then NoVerdict else repo.ports.tests(repo.head, old(report.gateRuns))
    ensures repo.gates == old(repo.gates) + [Gated(repo.head, verdict, slot.alone)]
    ensures report.tested && report.gateRuns == old(report.gateRuns) + 1
  {
    var waits := repo.ports.waits(report.gateRuns);
    for k := 0 to |waits|
      modifies slot
      invariant slot.Valid() && !slot.yielded && (old(slot.lost) ==> slot.lost)
      invariant slot.troubles >= old(slot.troubles)
      invariant slot.leaked && !old(slot.leaked) ==> slot.troubles > old(slot.troubles)
    {
      slot.During(waits[k]);
    }
    verdict := repo.ports.tests(repo.head, report.gateRuns);
    if slot.lost {
      verdict := NoVerdict;
    }
    repo.gates := repo.gates + [Gated(repo.head, verdict, slot.alone)];
    report.tested := true;
    report.gateRuns := report.gateRuns + 1;
  }

  ghost predicate AllOf(pushes: seq<Pushed>, commit: Commit, alone: bool) {
    forall p :: p in pushes ==> p.commit == commit && p.alone == alone
  }

  /** A push said to have failed was taken by the origin. */
  ghost predicate TakenUnheard(pushes: seq<Pushed>) {
    exists p :: p in pushes && p.answer == Fault(true)
  }

  /** Each push met what the remote gives the push of its number. */
  ghost predicate AnsweredBy(ports: Answers, from: nat, pushes: seq<Pushed>, forward: bool) {
    forall i :: 0 <= i < |pushes| ==> pushes[i].answer == PushAnswerAt(ports, from + i, forward)
  }

  /** Pushes what the worktree holds, again while the remote's own faults are all that stop it. */
  method PushRetrying(repo: Repo, tries: nat, ghost alone: bool) returns (answer: PushAnswer)
    requires repo.Valid() && tries >= 1
    modifies repo`target, repo`pushes, repo`pushed
    ensures repo.Valid()
    ensures old(repo.pushes) <= repo.pushes && AllOf(repo.pushes[|old(repo.pushes)|..], repo.head, alone)
    ensures 1 <= |repo.pushes| - |old(repo.pushes)| <= tries
    ensures repo.pushes[|repo.pushes| - 1].answer == answer
    ensures AnsweredBy(repo.ports, old(repo.pushed), repo.pushes[|old(repo.pushes)|..],
                       Contains(repo.graph, repo.head, old(repo.target)))
    ensures repo.target ==
            if answer == Accepted || TakenUnheard(repo.pushes[|old(repo.pushes)|..]) then repo.head else old(repo.target)
    ensures repo.target != old(repo.target) ==> Contains(repo.graph, repo.head, old(repo.target))
    ensures !answer.Fault? || |repo.pushes| - |old(repo.pushes)| == tries || repo.ports.givesUp
  {
    ghost var before, forward := |repo.pushes|, Contains(repo.graph, repo.head, repo.target);
    answer := repo.Push(alone);
    var try := 1;
    while answer.Fault? && try < tries && !repo.ports.givesUp
      invariant repo.Valid() && 1 <= try <= tries && repo.pushed == old(repo.pushed) + try
      invariant old(repo.pushes) <= repo.pushes && |repo.pushes| == before + try
      invariant AllOf(repo.pushes[before..], repo.head, alone)
      invariant AnsweredBy(repo.ports, old(repo.pushed), repo.pushes[before..], forward)
      invariant repo.pushes[|repo.pushes| - 1].answer == answer
      invariant Contains(repo.graph, repo.head, repo.target) == forward
      invariant repo.target ==
                if answer == Accepted || TakenUnheard(repo.pushes[before..]) then repo.head else old(repo.target)
      invariant repo.target != old(repo.target) ==> forward
    {
      ghost var had := repo.pushes[before..];
      answer := repo.Push(alone);
      assert repo.pushes[before..] == had + [Pushed(repo.head, answer, alone)];
      try := try + 1;
    }
  }

  /** What the verdict of the last gate run holds a batch for. */
  function HeldFor(verdict: Verdict): Held {
    match verdict
    case HostStillBusy => HostBusy
    case NoVerdict => GateUnrun
    case NotStarted => GateNotStarted
    case Red => GateRed
    case Green => NotHeld
  }

  /** What the last push's answer holds a batch for. */
  function HeldBy(answer: PushAnswer): Held {
    match answer
    case Accepted => NotHeld
    case TargetMoved => TargetHasMoved
    case _ => PushFailed
  }

  /** The commit a green gate passed, pushed, or the batch held and why. */
  method Publish(repo: Repo, slot: BatchSlot, report: Report, tries: nat)
    requires Sound(repo, report) && report.held == NotHeld && !report.landed && tries >= 1
    modifies repo`target, repo`pushes, repo`pushed, report`held, report`landed, report`commit
    ensures Sound(repo, report)
    ensures report.landed <==> report.held == NotHeld
    ensures report.landed ==> report.commit == Some(repo.head)
    ensures old(repo.pushes) <= repo.pushes && AllOf(repo.pushes[|old(repo.pushes)|..], repo.head, slot.alone)
    ensures AnsweredBy(repo.ports, old(repo.pushed), repo.pushes[|old(repo.pushes)|..],
                       Contains(repo.graph, repo.head, old(repo.target)))
    ensures report.held == HeadUnread <==> repo.head in repo.ports.headUnread
    ensures report.held == HeadUnread <==> repo.pushes == old(repo.pushes)
    ensures report.held != HeadUnread ==>
              |repo.pushes| > 0 && report.held == HeldBy(repo.pushes[|repo.pushes| - 1].answer)
    ensures repo.target ==
            if report.landed || TakenUnheard(repo.pushes[|old(repo.pushes)|..]) then repo.head else old(repo.target)
    ensures repo.target != old(repo.target) ==> Contains(repo.graph, repo.head, old(repo.target))
  {
    hide *;
    SoundMeans(repo, report);
    NonePushed(repo.head, slot.alone);
    if repo.head in repo.ports.headUnread {
      assert repo.pushes[|old(repo.pushes)|..] == [];
      report.held := HeadUnread;
      return;
    }
    var answer := PushRetrying(repo, tries, slot.alone);
    SoundMeans(repo, report);
    HeldByMeans(answer);
    if answer != Accepted {
      report.held := if answer == TargetMoved then TargetHasMoved else PushFailed;
      return;
    }
    report.commit, report.landed := Some(repo.head), true;
  }

  lemma HeldByMeans(answer: PushAnswer)
    ensures HeldBy(answer) ==
            if answer == Accepted then NotHeld else if answer == TargetMoved then TargetHasMoved else PushFailed
  {
  }

  lemma NonePushed(commit: Commit, alone: bool)
    ensures AllOf([], commit, alone) && !TakenUnheard([])
    ensures forall ports, from, forward :: AnsweredBy(ports, from, [], forward)
  {
  }

  // ----- The landing -----

  /** Raises the version of a batch that merged anything. */
  method VersionBatch(repo: Repo, report: Report, rules: Rules)
    requires Sound(repo, report) && Known(repo, report) && report.held == NotHeld && repo.bumps == []
    modifies repo`graph, repo`head, repo`bumps, report`held
    ensures Known(repo, report) && Extends(old(repo.graph), repo.graph) && !FixersHold(report.held)
    ensures report.held == NotHeld ==> Sound(repo, report)
    ensures report.held == if report.merged == [] then NothingMerged else VersionHeld(rules, report.merged, repo.ports)
    ensures repo.bumps ==
            if report.held == NotHeld || report.held == VersionNotRaised
            then BumpsOf(rules, report.merged, repo.ports.notes) else []
  {
    hide *;
    HoldsListed();
    GrowthIsTransitive(repo.graph, repo.graph, repo.graph);
    if report.merged == [] {
      report.held := NothingMerged;
      KnownMeans(repo, report);
      return;
    }
    RaiseVersion(repo, report, rules);
    VersionHolds(rules, report.merged, repo.ports);
  }

  /** Merges the queue, gives its conflicts to the fixer, and raises the version. */
  method MakeBatch(repo: Repo, slot: BatchSlot, report: Report, rules: Rules, mayFix: bool)
    returns (ghost whys: seq<Aside>, ghost heads: seq<Commit>)
    requires report.Fresh() && repo.Valid() && repo.head == report.base
    requires slot.Valid() && !slot.yielded && !slot.lost && repo.fixers == 0 && repo.bumps == []
    modifies repo`graph, repo`head, repo`dirty, repo`fixers, repo`bumps, slot
    modifies report`held, report`fixer, report`merged, report`setAside
    ensures Known(repo, report) && slot.Valid() && !slot.yielded
    ensures Extends(old(repo.graph), repo.graph)
    ensures slot.troubles >= old(slot.troubles) && (slot.leaked && !old(slot.leaked) ==> slot.troubles > old(slot.troubles))
    ensures InOrder(repo.ports, repo.graph, report.base, report.queue, whys, heads)
    ensures Part(report.queue, whys, true) <= Bares(report.merged)
    ensures report.fixer.Some? <==> mayFix && Conflicts in whys
    ensures report.fixer.Some? ==> !report.fixer.value.tested && report.fixer.value.started == repo.ports.fixerStarts
    ensures repo.fixers == if report.fixer.Some? && repo.ports.fixerStarts then 1 else 0
    ensures repo.fixers == 0 ==> Bares(report.merged) == Part(report.queue, whys, true) && !slot.lost
    ensures report.held == NotHeld ==> Sound(repo, report) && !slot.lost
    ensures FixersHold(report.held) ==>
              repo.fixers == 1 && HoldIsTrue(repo, report) && report.held != FixerNotStarted
    ensures !FixersHold(report.held) && repo.fixers == 1 ==>
              !slot.lost && repo.ports.fixerWaits && !repo.ports.fixerStopped && !repo.ports.leftUnread && !repo.dirty
    ensures !FixersHold(report.held) ==>
              report.held == if report.merged == [] then NothingMerged else VersionHeld(rules, report.merged, repo.ports)
    ensures repo.bumps ==
            if report.held == NotHeld || report.held == VersionNotRaised
            then BumpsOf(rules, report.merged, repo.ports.notes) else []
  {
    hide *;
    HoldsListed();
    FreshMeans(report);
    whys, heads := MergeAll(repo, report);
    AfterMergeKnown(repo, report);
    if mayFix && Conflicted(report.setAside) {
      ghost var had, g := report.merged, repo.graph;
      KnownMeans(repo, report);
      var goes := Fix(repo, slot, report);
      KnownMeans(repo, report);
      KeepsOrder(repo, g, report, whys, heads);
      GrowthIsTransitive(old(repo.graph), g, repo.graph);
      MergedStays(had, report.merged);
      LeftWellMeans(repo, report);
      if !goes {
        return;
      }
    }
    ghost var g := repo.graph;
    KnownMeans(repo, report);
    VersionBatch(repo, report, rules);
    KnownMeans(repo, report);
    GrowthIsTransitive(old(repo.graph), g, repo.graph);
    KeepsOrder(repo, g, report, whys, heads);
  }

  lemma VersionHolds(rules: Rules, merged: seq<Story>, ports: Answers)
    ensures VersionHeld(rules, merged, ports) in {NotHeld, ChangelogUnread, VersionNotRaised}
  {
  }

  lemma MergedStays(had: seq<Story>, merged: seq<Story>)
    ensures had <= merged ==> Bares(had) <= Bares(merged)
  {
    if had <= merged {
      assert merged == had + merged[|had|..];
      BaresConcat(had, merged[|had|..]);
    }
  }

  /** The order of the merges stays what it was, however the graph grows. */
  lemma KeepsOrder(repo: Repo, g: Graph, report: Report, whys: seq<Aside>, heads: seq<Commit>)
    requires CommitGraph.Valid(g) && repo.Valid() && Extends(g, repo.graph)
    requires InOrder(repo.ports, g, report.base, report.queue, whys, heads)
    ensures InOrder(repo.ports, repo.graph, report.base, report.queue, whys, heads)
  {
    GrowthKeepsOrder(repo.ports, g, repo.graph, report.base, report.queue, whys, heads);
  }

  lemma FreshMeans(report: Report)
    ensures report.Fresh() ==>
              report.merged == [] && report.setAside == [] && !report.tested && report.gateRuns == 0 &&
              report.fixer == None && report.held == NotHeld && !report.landed && report.commit == None
  {
  }

  lemma AfterMergeKnown(repo: Repo, report: Report)
    requires Sound(repo, report) && Told(repo, report) && Partition(report)
    ensures Known(repo, report)
  {
  }

  /** Runs the gate, and on a red that is the batch's own gives it its one fixer and runs the gate again. */
  method GateBatch(repo: Repo, slot: BatchSlot, report: Report, mayFix: bool)
    requires Known(repo, report) && Sound(repo, report) && report.held == NotHeld && report.gateRuns == 0
    requires slot.Valid() && !slot.yielded && !slot.lost && repo.gates == []
    requires repo.fixers == if report.fixer.Some? && repo.ports.fixerStarts then 1 else 0
    modifies repo`graph, repo`head, repo`dirty, repo`fixers, repo`gates, slot
    modifies report`held, report`fixer, report`merged, report`setAside, report`tested, report`gateRuns
    ensures Known(repo, report) && slot.Valid() && !slot.yielded
    ensures slot.troubles >= old(slot.troubles) && (slot.leaked && !old(slot.leaked) ==> slot.troubles > old(slot.troubles))
    ensures Extends(old(repo.graph), repo.graph) && old(report.merged) <= report.merged
    ensures repo.fixers == if report.fixer.Some? && repo.ports.fixerStarts then 1 else 0
    ensures |repo.gates| == report.gateRuns && 1 <= report.gateRuns <= 2
    ensures repo.gates[0].at == old(repo.head)
    ensures repo.gates[0].verdict in {NoVerdict, repo.ports.tests(old(repo.head), 0)}
    ensures var mended := mayFix && old(report.fixer).None? && repo.gates[0].verdict == Red && !repo.ports.mainRedToo;
            && (report.fixer == old(report.fixer) || mended)
            && (mended ==> report.fixer.Some? && report.fixer.value.tested &&
                           report.fixer.value.started == repo.ports.fixerStarts)
            && (report.gateRuns == 2 <==> mended && !FixersHold(report.held))
            && (FixersHold(report.held) ==> mended && HoldIsTrue(repo, report))
            && (mended && !repo.ports.fixerStarts ==> report.held == FixerNotStarted)
            && (report.held == MainIsRed <==>
                old(report.fixer).None? && repo.gates[0].verdict == Red && repo.ports.mainRedToo)
            && (!mended ==> repo.graph == old(repo.graph) && repo.head == old(repo.head) && repo.dirty == old(repo.dirty)
                            && report.merged == old(report.merged) && report.setAside == old(report.setAside))
    ensures var last := repo.gates[report.gateRuns - 1];
            && (!FixersHold(report.held) ==>
                 && Sound(repo, report) && last.at == repo.head && last.alone == slot.alone
                 && last.verdict == (if slot.lost then NoVerdict else repo.ports.tests(repo.head, report.gateRuns - 1))
                 && report.held == if report.held == MainIsRed then MainIsRed else HeldFor(last.verdict))
  {
    hide *;
    HoldsListed();
    HeldForMeans();
    GrowthIsTransitive(repo.graph, repo.graph, repo.graph);
    var verdict := RunGate(repo, slot, report);
    if verdict == Red && report.fixer.None? && repo.ports.mainRedToo {
      report.held := MainIsRed;
      return;
    }
    if verdict == Red && mayFix && report.fixer.None? {
      var goes := Fix(repo, slot, report);
      if !goes {
        return;
      }
      verdict := RunGate(repo, slot, report);
    }
    report.held := HeldFor(verdict);
  }

  lemma HeldForMeans()
    ensures forall v :: HeldFor(v) == NotHeld <==> v == Green
    ensures forall v :: HeldFor(v) == GateRed <==> v == Red
    ensures forall v :: !FixersHold(HeldFor(v)) && HeldFor(v) != MainIsRed
    ensures forall v :: HeldFor(v) !in {NothingMerged, ChangelogUnread, VersionNotRaised}
  {
  }

  /** What the origin took is the commit the last gate run passed, whole, clean, and pushed holding the slot
      as that run of the gate held it. */
  ghost predicate Reached(repo: Repo, slot: BatchSlot, report: Report)
    reads repo`graph, repo`target, repo`gates, slot, report`gateRuns, report`merged
  {
    && 1 <= report.gateRuns == |repo.gates|
    && repo.gates[report.gateRuns - 1] == Gated(repo.target, Green, slot.alone)
    && repo.ports.tests(repo.target, report.gateRuns - 1) == Green
    && AllContained(repo.graph, repo.target, repo.ports.tips, report.merged)
    && Clean(repo.graph, report.base, repo.target)
    && !slot.lost && (slot.alone <==> !slot.Leaks(slot.asked))
  }

  /** The last gate run's verdict, and after a green one the push's answer, are all that hold a tested batch. */
  ghost predicate Judged(repo: Repo, slot: BatchSlot, report: Report)
    reads repo`head, repo`gates, repo`pushes, slot, report`gateRuns, report`held, report`fixer
  {
    && 1 <= report.gateRuns == |repo.gates|
    && var last := repo.gates[report.gateRuns - 1];
    && last == Gated(repo.head, if slot.lost then NoVerdict else repo.ports.tests(repo.head, report.gateRuns - 1), slot.alone)
    && (repo.pushes == [] <==> last.verdict != Green || repo.head in repo.ports.headUnread)
    && report.held ==
       if last.verdict == Red && report.fixer.None? && repo.ports.mainRedToo then MainIsRed
       else if last.verdict != Green then HeldFor(last.verdict)
       else if repo.head in repo.ports.headUnread then HeadUnread
       else HeldBy(repo.pushes[|repo.pushes| - 1].answer)
  }

  /** What the last gate run was, and the batch it was made on. */
  ghost predicate LastRun(repo: Repo, slot: BatchSlot, report: Report)
    reads repo`head, repo`gates, slot, report`gateRuns
  {
    && 1 <= report.gateRuns == |repo.gates|
    && repo.gates[report.gateRuns - 1] ==
       Gated(repo.head, if slot.lost then NoVerdict else repo.ports.tests(repo.head, report.gateRuns - 1), slot.alone)
  }

  lemma LastRunMeans(repo: Repo, slot: BatchSlot, report: Report)
    ensures LastRun(repo, slot, report) <==>
            && 1 <= report.gateRuns == |repo.gates|
            && repo.gates[report.gateRuns - 1] ==
               Gated(repo.head, if slot.lost then NoVerdict else repo.ports.tests(repo.head, report.gateRuns - 1), slot.alone)
  {
  }

  lemma JudgedHeld(repo: Repo, slot: BatchSlot, report: Report)
    requires LastRun(repo, slot, report) && repo.pushes == []
    ensures var verdict := repo.gates[report.gateRuns - 1].verdict;
            verdict != Green ==>
              (Judged(repo, slot, report) <==>
               report.held == if verdict == Red && report.fixer.None? && repo.ports.mainRedToo then MainIsRed else HeldFor(verdict))
  {
  }

  lemma JudgedPushed(repo: Repo, slot: BatchSlot, report: Report)
    requires LastRun(repo, slot, report) && repo.gates[report.gateRuns - 1].verdict == Green
    requires Sound(repo, report) && slot.Valid() && !slot.yielded
    requires repo.pushes == [] <==> repo.head in repo.ports.headUnread
    ensures Judged(repo, slot, report) <==>
            report.held == if repo.pushes == [] then HeadUnread else HeldBy(repo.pushes[|repo.pushes| - 1].answer)
    ensures repo.target == repo.head ==> Reached(repo, slot, report)
  {
  }

  /** The gate on a batch that is made, and the push of one that passed it. */
  method TestAndPush(repo: Repo, slot: BatchSlot, report: Report, mayFix: bool, tries: nat)
    requires Known(repo, report) && Sound(repo, report) && report.held == NotHeld && report.gateRuns == 0
    requires slot.Valid() && !slot.yielded && !slot.lost
    requires repo.gates == [] && repo.pushes == [] && repo.pushed == 0
    requires repo.fixers == if report.fixer.Some? && repo.ports.fixerStarts then 1 else 0
    requires !report.landed && tries >= 1
    modifies repo, slot, report
    ensures slot.Valid() && !slot.yielded
    ensures slot.troubles >= old(slot.troubles) && (slot.leaked && !old(slot.leaked) ==> slot.troubles > old(slot.troubles))
    ensures AnsweredBy(repo.ports, 0, repo.pushes, Contains(repo.graph, repo.head, old(repo.target)))
    ensures Known(repo, report) && report.queue == old(report.queue) && repo.bumps == old(repo.bumps)
    ensures Extends(old(repo.graph), repo.graph) && old(report.merged) <= report.merged
    ensures repo.fixers == if report.fixer.Some? && repo.ports.fixerStarts then 1 else 0
    ensures repo.gates != [] && |repo.gates| == report.gateRuns <= 2
    ensures var mended := mayFix && old(report.fixer).None? && repo.gates[0].verdict == Red && !repo.ports.mainRedToo;
            && (if mended then report.fixer.Some? && report.fixer.value.tested else report.fixer == old(report.fixer))
            && (report.gateRuns == 2 <==> mended && !FixersHold(report.held))
            && (FixersHold(report.held) ==> mended && HoldIsTrue(repo, report))
    ensures !FixersHold(report.held) ==> Judged(repo, slot, report) && Sound(repo, report)
    ensures report.landed <==> report.held == NotHeld
    ensures repo.target == if report.landed || TakenUnheard(repo.pushes) then repo.head else old(repo.target)
    ensures repo.target != old(repo.target) || report.landed ==> Reached(repo, slot, report)
    ensures report.landed ==> report.commit == Some(repo.target)
    ensures AllOf(repo.pushes, repo.head, slot.alone)
    ensures repo.pushes != [] ==> repo.gates[report.gateRuns - 1].verdict == Green
  {
    hide *;
    HoldsListed();
    HeldForMeans();
    GateBatch(repo, slot, report, mayFix);
    KnownMeans(repo, report);
    NonePushed(repo.head, slot.alone);
    LastRunMeans(repo, slot, report);
    if report.held != NotHeld {
      if !FixersHold(report.held) {
        JudgedHeld(repo, slot, report);
      }
      return;
    }
    PushGreen(repo, slot, report, tries);
  }

  /** The push of a batch whose last gate run passed. */
  method PushGreen(repo: Repo, slot: BatchSlot, report: Report, tries: nat)
    requires Known(repo, report) && Sound(repo, report) && report.held == NotHeld && !report.landed && tries >= 1
    requires LastRun(repo, slot, report) && repo.gates[report.gateRuns - 1].verdict == Green
    requires slot.Valid() && !slot.yielded && repo.pushes == [] && repo.pushed == 0
    modifies repo`target, repo`pushes, repo`pushed, report`held, report`landed, report`commit
    ensures AnsweredBy(repo.ports, 0, repo.pushes, Contains(repo.graph, repo.head, old(repo.target)))
    ensures Known(repo, report) && Sound(repo, report) && !FixersHold(report.held) && report.held != MainIsRed
    ensures Judged(repo, slot, report)
    ensures report.landed <==> report.held == NotHeld
    ensures repo.target == if report.landed || TakenUnheard(repo.pushes) then repo.head else old(repo.target)
    ensures repo.target != old(repo.target) || report.landed ==> Reached(repo, slot, report)
    ensures report.landed ==> report.commit == Some(repo.target)
    ensures AllOf(repo.pushes, repo.head, slot.alone)
  {
    hide *;
    HoldsListed();
    KnownMeans(repo, report);
    Publish(repo, slot, report, tries);
    assert repo.pushes[0..] == repo.pushes;
    HeldByHolds();
    SoundMeans(repo, report);
    KnownMeans(repo, report);
    JudgedPushed(repo, slot, report);
  }

  lemma HeldByHolds()
    ensures forall answer :: HeldBy(answer) in {NotHeld, TargetHasMoved, PushFailed}
  {
  }

  lemma KnownGraph(repo: Repo)
    ensures repo.Valid() ==> CommitGraph.Valid(repo.graph)
  {
  }

  lemma ReachedMeans(repo: Repo, slot: BatchSlot, report: Report)
    ensures Reached(repo, slot, report) ==> Clean(repo.graph, report.base, repo.target) && !slot.lost
  {
  }

  /** The pushes of a batch whose last gate run passed are made holding the slot alone, but for a yield that leaked. */
  lemma AloneMeans(repo: Repo, slot: BatchSlot, report: Report)
    requires slot.Valid() && !slot.yielded && AllOf(repo.pushes, repo.head, slot.alone)
    requires |repo.gates| == report.gateRuns
    requires repo.pushes != [] ==> !FixersHold(report.held) && Judged(repo, slot, report)
    ensures forall p :: p in repo.pushes ==> (p.alone <==> !slot.Leaks(slot.asked))
    ensures !slot.leaked ==> forall p :: p in repo.pushes ==> p.alone
  {
  }

  /** The whole of a batch's landing, from its worktree's opening at the base to its push. */
  method LandIn(repo: Repo, slot: BatchSlot, report: Report, rules: Rules, mayFix: bool, tries: nat)
    returns (ghost whys: seq<Aside>, ghost heads: seq<Commit>)
    requires report.Fresh() && repo.Valid() && repo.head == report.base && tries >= 1
    requires slot.Valid() && !slot.yielded && !slot.lost
    requires repo.fixers == 0 && repo.bumps == [] && repo.gates == [] && repo.pushes == [] && repo.pushed == 0
    // What mw and its fixer make is told from the run's beginning on.
    requires repo.graph.ours == {} && repo.graph.fixed == {}
    modifies repo, slot, report
    ensures Extends(old(repo.graph), repo.graph)
    // Nothing of the queue is lost, every story was merged or set aside in order and for its own reason, and
    // the batch landed or says why not.
    ensures repo.Valid() && report.base in repo.graph.reach && Partition(report) && report.queue == old(report.queue)
    ensures InOrder(repo.ports, repo.graph, report.base, report.queue, whys, heads)
    ensures Part(report.queue, whys, true) <= Bares(report.merged)
    ensures report.landed <==> report.held == NotHeld
    // One fixer at most, for a branch that conflicts or else for a red of the batch's own, and two runs of
    // the gate, the second only of a red batch its fixer has mended.
    ensures report.fixer.Some? && !report.fixer.value.tested <==> mayFix && Conflicts in whys
    ensures report.fixer.Some? && report.fixer.value.tested <==>
              mayFix && Conflicts !in whys && repo.gates != [] && repo.gates[0].verdict == Red && !repo.ports.mainRedToo
    ensures repo.fixers == if report.fixer.Some? && repo.ports.fixerStarts then 1 else 0
    ensures |repo.gates| == report.gateRuns <= 2
    ensures report.gateRuns == 2 <==> report.fixer.Some? && report.fixer.value.tested && !FixersHold(report.held)
    // What landed, or reached the origin at all, is what the gate passed; and a batch that did not land moved
    // the target exactly when the origin took a push that was said to have failed.
    ensures repo.target != old(repo.target) || report.landed ==> Reached(repo, slot, report) && report.merged != []
    ensures repo.target == if report.landed || TakenUnheard(repo.pushes) then repo.head else old(repo.target)
    ensures report.landed ==> report.commit == Some(repo.target)
    // No commit of a branch's or of the fixer's that it brought in is signed as a machine's.
    ensures repo.target != old(repo.target) || report.landed ==>
              OthersUnsigned(old(repo.graph), repo.graph, report.base, repo.target)
    // Every push is made holding the slot alone, exactly when no yield failed having shared it since the slot was
    // last taken back; one that did left a trouble noted.
    ensures forall p :: p in repo.pushes ==> (p.alone <==> !slot.Leaks(slot.asked))
    ensures slot.Valid() && !slot.yielded
    ensures slot.leaked && !old(slot.leaked) ==> slot.troubles > old(slot.troubles)
    ensures !old(slot.leaked) && slot.troubles == old(slot.troubles) ==> forall p :: p in repo.pushes ==> p.alone
    ensures AllOf(repo.pushes, repo.head, slot.alone)
    ensures AnsweredBy(repo.ports, 0, repo.pushes, Contains(repo.graph, repo.head, old(repo.target)))
    ensures repo.pushes != [] ==> repo.gates != [] && repo.gates[report.gateRuns - 1].verdict == Green
    // Each hold is one the batch came to, and no other keeps it from landing.
    ensures FixersHold(report.held) ==> report.fixer.Some? && HoldIsTrue(repo, report)
    ensures !FixersHold(report.held) ==>
              if report.gateRuns > 0 then Judged(repo, slot, report) && Sound(repo, report)
              else report.held != NotHeld && report.held ==
                   if report.merged == [] then NothingMerged else VersionHeld(rules, report.merged, repo.ports)
    // One raise of the version at most, asked for by what had merged when it was made.
    ensures repo.gates != [] ==>
              exists n :: 0 < n <= |report.merged| && repo.bumps == BumpsOf(rules, report.merged[..n], repo.ports.notes)
  {
    hide *;
    HoldsListed();
    HeldForMeans();
    FreshMeans(report);
    NonePushed(repo.head, slot.alone);
    KnownGraph(repo);
    whys, heads := MakeBatch(repo, slot, report, rules, mayFix);
    NonePushed(repo.head, slot.alone);
    KnownMeans(repo, report);
    if report.held != NotHeld {
      return;
    }
    ghost var raisedFor, g := report.merged, repo.graph;
    TestAndPush(repo, slot, report, mayFix, tries);
    KnownMeans(repo, report);
    KeepsOrder(repo, g, report, whys, heads);
    MergedStays(raisedFor, report.merged);
    assert report.merged[..|raisedFor|] == raisedFor;
    GrowthIsTransitive(old(repo.graph), g, repo.graph);
    AloneMeans(repo, slot, report);
    if repo.target != old(repo.target) || report.landed {
      ReachedMeans(repo, slot, report);
      CleanIsOthersUnsigned(old(repo.graph), repo.graph, report.base, repo.target);
    }
  }

  // ----- A held batch that moved the target -----

  const TWO := Graph(map[0 := {0}, 1 := {0, 1}], {}, {}, {}, 2)
  const STORY := Story("mw-1", 0, 0, "main", false, false, None, NotAside, false)

  /** One branch that merges, tests that pass, and a remote that takes every push and loses its answer. */
  const UNHEARD := Answers(map["mw-1" := 1], map[], {}, {}, {}, (head, tip) => Made, (at, run) => Green, run => [], true, false,
                           true, true, false, false, n => Fault(true), false)

  /** A batch is held for a push said to have failed, and its commit is on the target all the same. */
  method HeldYetMoved() returns (repo: Repo, report: Report)
    ensures fresh(repo) && fresh(report) && report.base == 0
    ensures !report.landed && report.held == PushFailed && repo.target == repo.head != report.base
  {
    hide *;
    TwoIsValid();
    repo := new Repo(UNHEARD, TWO, 0);
    var slot := new BatchSlot(false, n => Shares, n => true);
    report := new Report([STORY], 0);
    FreshMeans(report);
    var whys, heads := LandIn(repo, slot, report, Rules(false, false), false, 1);
    StoryMerges(repo, report, whys, heads);
    NoneIsHeld(report.merged);
    KeptSlotIsHeld(slot);
    if report.gateRuns > 0 {
      PushGoesUnheard(repo, slot, report);
    }
  }

  lemma TwoIsValid()
    ensures CommitGraph.Valid(TWO) && 0 in TWO.reach && TWO.ours == {} == TWO.fixed
    ensures forall id :: id in UNHEARD.tips ==> UNHEARD.tips[id] in TWO.reach
  {
  }

  lemma NoneIsHeld(merged: seq<Story>)
    ensures VersionHeld(Rules(false, false), merged, UNHEARD) == NotHeld
  {
  }

  lemma KeptSlotIsHeld(slot: BatchSlot)
    ensures slot.Valid() && !slot.canYield ==> !slot.lost
  {
  }

  /** The one story is merged. */
  lemma StoryMerges(repo: Repo, report: Report, whys: seq<Aside>, heads: seq<Commit>)
    requires repo.ports == UNHEARD && report.queue == [STORY] && report.base == 0
    requires Extends(TWO, repo.graph) && InOrder(repo.ports, repo.graph, 0, report.queue, whys, heads)
    requires Part(report.queue, whys, true) <= Bares(report.merged)
    ensures report.merged != []
    ensures Sound(repo, report) ==> Contains(repo.graph, repo.head, 1)
  {
    var g := repo.graph;
    assert !SignedBeyond(g, 1, 0);
    assert whys[0] == WhyOf(repo.ports, g, heads[0], 0, "mw-1") == NotAside;
    assert whys == [NotAside] && [STORY][..0] == [] && [NotAside][..0] == [];
    assert Part([STORY], [NotAside], true) == [Bare(STORY)];
    assert Bares(report.merged)[0] == Bare(STORY);
    FirstBare(report.merged);
    assert report.merged[0] in report.merged;
  }

  lemma {:induction false} FirstBare(stories: seq<Story>)
    requires stories != []
    ensures Bares(stories)[0] == Bare(stories[0])
  {
    if |stories| > 1 {
      FirstBare(stories[..|stories| - 1]);
      assert Bares(stories)[0] == Bares(stories[..|stories| - 1])[0];
    }
  }

  lemma PushGoesUnheard(repo: Repo, slot: BatchSlot, report: Report)
    requires repo.ports == UNHEARD && Extends(TWO, repo.graph) && Contains(repo.graph, repo.head, 1)
    requires Judged(repo, slot, report) && !slot.lost
    requires AnsweredBy(repo.ports, 0, repo.pushes, Contains(repo.graph, repo.head, 0))
    ensures report.held == PushFailed && TakenUnheard(repo.pushes) && repo.head != 0
  {
    var n := |repo.pushes| - 1;
    assert Contains(repo.graph, repo.head, 0);
    assert repo.pushes[n].answer == PushAnswerAt(repo.ports, n, true) == Fault(true);
    assert repo.pushes[n] in repo.pushes;
  }
}
