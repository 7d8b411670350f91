/** Staging a rig's backend: the bead and the step that swap it in, and which older swaps they supersede. */
module BackendStaging {
  import opened BatchQueue
  import opened SwapTicks

  const BACKEND_TRIES := 3

  /** The writes of a step: its note, what is cleared of the one it replaces (that it ran, was superseded, was
      retired), and what is said of it on the bead. */
  const HANDS_WRITES := 5

  /** What the ports answer one staging: `beadsUnread` is per bead, `written` and `marks` are how many of a row of
      writes go through. */
  datatype Ports = Ports(
    builds: bool, claim: Claim, stepsRead: bool, beadsUnread: set<string>, files: bool, releases: bool,
    written: nat, marks: nat, swapKept: bool, standby: Standby, saved: bool, cleared: bool)

  datatype Claim = ClaimTaken | ClaimHeld | ClaimFails

  datatype Standby = NoStandby | StandbyFails | StandbyStaged

  datatype Result = Staged | HeldElsewhere | Failed

  /** A landing as its pending note keeps it. */
  datatype Landing = Landing(commit: string, bead: string, tries: nat)

  /** The swap steps that have not run clean and are not retired, in order. */
  function HeldOf(steps: seq<Key>, ran: map<Key, Ran>, retired: set<Key>): seq<Key> {
    if steps == [] then []
    else
      var n := |steps| - 1;
      HeldOf(steps[..n], ran, retired) +
      if (steps[n] in ran && ran[steps[n]] == Exited(0)) || steps[n] in retired then [] else [steps[n]]
  }

  lemma {:induction false} HeldAreFewer(steps: seq<Key>, ran: map<Key, Ran>, retired: set<Key>)
    ensures |HeldOf(steps, ran, retired)| <= |steps|
  {
    if steps != [] {
      HeldAreFewer(steps[..|steps| - 1], ran, retired);
    }
  }

  lemma {:induction false} HeldAre(steps: seq<Key>, ran: map<Key, Ran>, retired: set<Key>, k: Key)
    ensures k in HeldOf(steps, ran, retired) <==>
            k in steps && k !in retired && !(k in ran && ran[k] == Exited(0))
  {
    if steps != [] {
      assert steps == steps[..|steps| - 1] + [steps[|steps| - 1]];
      HeldAre(steps[..|steps| - 1], ran, retired, k);
    }
  }

  /** The notes and beads of one live binary, as stagings on one host change them. */
  class Mill {
    /** Every swap step of the binary, in the order of the notes that hold them. */
    var steps: seq<Key>
    var ran: map<Key, Ran>
    var retired: set<Key>
    var superseded: map<Key, string>
    var closed: set<string>
    var beads: set<string>
    /** The swaps the home's tick is asked for, by commit. */
    var swaps: map<string, Key>
    var pending: map<string, Landing>
    var givenUp: seq<string>
    /** A staging was made that would not write on the one open bead that held its swap. */
    ghost var strayed: bool

    /** Every step is on a bead that was filed, and what is noted of a step is of one that is there. */
    ghost predicate Valid()
      reads `beads, `steps, `ran, `retired, `superseded, `closed
    {
      && "" !in beads && closed <= beads && (forall k :: k in steps ==> k.bead in beads)
      && (forall k :: k in ran || k in retired || k in superseded ==> k in steps)
    }

    predicate Unrun(k: Key)
      reads `ran, `retired
    {
      k !in retired && !(k in ran && ran[k] == Exited(0))
    }

    /** The open beads that hold the swap of that name, not run clean. */
    function OpenBeads(id: string): set<string>
      reads `steps, `ran, `retired, `closed
    {
      set k | k in steps && k.step == id && Unrun(k) && k.bead !in closed :: k.bead
    }

    ghost predicate AtMostOneOpen(id: string)
      reads `steps, `ran, `retired, `closed
    {
      One(OpenBeads(id))
    }

    /** Every swap that could still run names that one commit. */
    ghost predicate OneCommitLeft(id: string)
      reads `steps, `ran, `retired, `superseded
    {
      forall k :: k in steps && Unrun(k) && k !in superseded ==> k.step == id
    }

    /** Every landing kept is under its own commit and with a bead that was filed, and no swap is held by two open
        beads unless a staging strayed. */
    ghost predicate Kept()
      reads this
    {
      && Valid()
      && (forall c :: c in pending ==> pending[c].commit == c && (pending[c].bead != "" ==> pending[c].bead in beads))
      && (!strayed ==> forall id :: AtMostOneOpen(id))
    }

    lemma OneOpenMeans(id: string)
      ensures AtMostOneOpen(id) <==> One(OpenBeads(id))
      ensures Valid() ==> "" !in beads && closed <= beads && OpenBeads(id) <= beads
    {
    }

    lemma NoStepsNoneOpen(id: string)
      requires steps == []
      ensures OpenBeads(id) == {}
    {
    }

    method SwapSteps(ports: Ports) returns (held: Option<seq<Key>>)
      ensures held == if ports.stepsRead then Some(HeldOf(steps, ran, retired)) else None
    {
      if !ports.stepsRead {
        return None;
      }
      var kept: seq<Key> := [];
      for i := 0 to |steps|
        invariant kept == HeldOf(steps[..i], ran, retired)
      {
        assert steps[..i + 1][..i] == steps[..i];
        if !(steps[i] in ran && ran[steps[i]] == Exited(0)) && steps[i] !in retired {
          kept := kept + [steps[i]];
        }
      }
      assert steps[..|steps|] == steps;
      return Some(kept);
    }

    /** The bead that holds the swap already, or "" when none is found. */
    method OpenSwapOf(id: string, ports: Ports) returns (bead: string)
      requires Valid()
      ensures bead != "" ==> ports.stepsRead && bead in OpenBeads(id) && bead !in ports.beadsUnread
      ensures bead == "" <==> !ports.stepsRead || OpenBeads(id) <= ports.beadsUnread
    {
      var held := SwapSteps(ports);
      if held == None {
        return "";
      }
      forall k ensures k in held.value <==> k in steps && Unrun(k) {
        HeldAre(steps, ran, retired, k);
      }
      for i := 0 to |held.value|
        invariant forall j :: 0 <= j < i ==>
                    held.value[j].step != id || held.value[j].bead in closed || held.value[j].bead in ports.beadsUnread
      {
        var h := held.value[i];
        if h.step == id && h.bead !in ports.beadsUnread && h.bead !in closed {
          return h.bead;
        }
      }
      return "";
    }

    /** The step written on the bead, in place of one of its name; what was noted of that one goes, note by note. */
    method WriteStep(k: Key, written: nat) returns (ok: bool)
      requires Valid() && k.bead in beads
      modifies `steps, `ran, `retired, `superseded
      ensures Valid() && (ok <==> written >= HANDS_WRITES)
      ensures forall h :: h in steps <==> h in old(steps) || (h == k && written > 0)
      ensures |old(steps)| <= |steps| <= |old(steps)| + 1
      ensures ran == if k in old(steps) && written > 1 then old(ran) - {k} else old(ran)
      ensures superseded == if k in old(steps) && written > 2 then old(superseded) - {k} else old(superseded)
      ensures retired == if k in old(steps) && written > 3 then old(retired) - {k} else old(retired)
    {
      if written == 0 {
        return false;
      }
      if k in steps {
        if written > 1 {
          ran := ran - {k};
        }
        if written > 2 {
          superseded := superseded - {k};
        }
        if written > 3 {
          retired := retired - {k};
        }
      } else {
        var at: nat :| at <= |steps|;
        steps := steps[..at] + [k] + steps[at..];
      }
      return written >= HANDS_WRITES;
    }

    /** Marks every other swap that has not run clean as superseded by the bead, and clears the mark of its own. */
    method SupersedeOlder(bead: string, id: string, ports: Ports) returns (ok: bool)
      requires Valid()
      modifies `superseded
      ensures Valid()
      ensures ok <==> ports.stepsRead && |HeldOf(steps, ran, retired)| <= ports.marks
      ensures ok ==> forall k :: k in superseded <==>
                if k in steps && Unrun(k) then k.step != id else k in old(superseded)
      ensures ok ==> forall k :: k in superseded ==>
                superseded[k] == if k in steps && Unrun(k) then bead else old(superseded)[k]
    {
      var held := SwapSteps(ports);
      if held == None {
        return false;
      }
      forall k ensures k in held.value <==> k in steps && Unrun(k) {
        HeldAre(steps, ran, retired, k);
      }
      for i := 0 to |held.value|
        invariant i <= ports.marks && Valid()
        invariant forall k :: k in superseded <==> if k in held.value[..i] then k.step != id else k in old(superseded)
        invariant forall k :: k in superseded ==>
                    superseded[k] == if k in held.value[..i] then bead else old(superseded)[k]
      {
        if i == ports.marks {
          return false;
        }
        var h := held.value[i];
        assert held.value[..i + 1] == held.value[..i] + [h];
        assert h in held.value;
        superseded := if h.step == id then superseded - {h} else superseded[h := bead];
      }
      assert held.value[..|held.value|] == held.value;
      return true;
    }

    /** Builds the backend, files the bead if none holds the swap already, and writes the swap on it. */
    method Stage(l: Landing, id: string, auto: bool, filed: string, ports: Ports) returns (result: Result, l': Landing)
      requires Valid() && (l.bead != "" ==> l.bead in beads)
      requires filed !in beads && filed != ""
      modifies this
      ensures Valid() && old(beads) <= beads <= old(beads) + {filed} && closed == old(closed)
      ensures pending == old(pending) && givenUp == old(givenUp) && strayed == old(strayed)
      ensures |old(steps)| <= |steps| <= |old(steps)| + 1
      ensures l'.commit == l.commit && l'.tries == l.tries && (l'.bead != "" ==> l'.bead in beads)
      ensures l.bead != "" ==> l'.bead == l.bead
      // What is carried to the next try, whatever became of this one.
      ensures !ports.builds || ports.claim != ClaimTaken ==> l' == l
      ensures ports.builds && ports.claim == ClaimTaken ==>
                if NeedsFiling(old(OpenBeads(id)), l, ports) then l'.bead == (if ports.files then filed else "")
                else RightBead(l'.bead, old(OpenBeads(id)), l, filed, ports)
      ensures result == HeldElsewhere <==> ports.builds && ports.claim == ClaimHeld
      ensures result == HeldElsewhere ==> l' == l && steps == old(steps) && swaps == old(swaps) && superseded == old(superseded)
      ensures result == Staged ==> RightBead(l'.bead, old(OpenBeads(id)), l, filed, ports)
      ensures result == Staged ==>
                && Key(l'.bead, id) in steps && OneCommitLeft(id) && Superseding(l'.bead, id)
                && swaps == if auto then old(swaps)[l.commit := Key(l'.bead, id)] else old(swaps)
      ensures forall other :: other != id ==> OpenBeads(other) == old(OpenBeads(other))
      ensures OpenBeads(id) == old(OpenBeads(id)) ||
              (l'.bead !in closed && OpenBeads(id) == old(OpenBeads(id)) + {l'.bead} &&
               RightBead(l'.bead, old(OpenBeads(id)), l, filed, ports))
      ensures result == Staged && l'.bead !in closed ==> l'.bead in OpenBeads(id)
      ensures ports.written == 0 ==> OpenBeads(id) == old(OpenBeads(id))
      // At most one open bead holds the swap still, exactly when the staging had no other bead to write on.
      ensures result == Staged && old(AtMostOneOpen(id)) ==>
                (AtMostOneOpen(id) <==> WritesOnTheOne(old(OpenBeads(id)), l, closed, ports))
      ensures old(AtMostOneOpen(id)) && WritesOnTheOne(old(OpenBeads(id)), l, closed, ports) ==> AtMostOneOpen(id)
      ensures result == Staged <==>
              && ports.builds && ports.claim == ClaimTaken
              && (NeedsFiling(old(OpenBeads(id)), l, ports) ==> ports.files && ports.releases)
              && ports.written >= HANDS_WRITES && ports.stepsRead && |HeldOf(steps, ran, retired)| <= ports.marks
              && (auto ==> ports.swapKept) && ports.standby != StandbyFails
    {
      hide *;
      OneOpenMeans(id);
      l' := l;
      if !ports.builds {
        return Failed, l';
      }
      if ports.claim != ClaimTaken {
        return if ports.claim == ClaimHeld then HeldElsewhere else Failed, l';
      }
      var found;
      found, l' := FindBead(l, id, filed, ports);
      if !found {
        return Failed, l';
      }
      ghost var open := OpenBeads(id);
      OneOpenMeans(id);
      var written := WriteSwap(l'.bead, id, ports);
      OneOpenMeans(id);
      if One(open) {
        OneOpen(open, l'.bead, l, filed, ports);
      }
      if !written {
        return Failed, l';
      }
      if auto {
        if !ports.swapKept {
          return Failed, l';
        }
        swaps := swaps[l.commit := Key(l'.bead, id)];
      }
      return if ports.standby == StandbyFails then Failed else Staged, l';
    }

    /** The bead to write the swap on, filed when none holds it. */
    method FindBead(l: Landing, id: string, filed: string, ports: Ports) returns (ok: bool, l': Landing)
      requires Valid() && (l.bead != "" ==> l.bead in beads)
      requires filed !in beads && filed != ""
      modifies `beads
      ensures Valid() && old(beads) <= beads <= old(beads) + {filed}
      ensures l'.commit == l.commit && l'.tries == l.tries && (l'.bead != "" ==> l'.bead in beads)
      ensures l.bead != "" ==> l'.bead == l.bead
      ensures ok <==> (NeedsFiling(OpenBeads(id), l, ports) ==> ports.files && ports.releases)
      ensures if NeedsFiling(OpenBeads(id), l, ports) then l'.bead == (if ports.files then filed else "")
              else RightBead(l'.bead, OpenBeads(id), l, filed, ports)
      ensures ok ==> l'.bead != "" && RightBead(l'.bead, OpenBeads(id), l, filed, ports)
    {
      l' := l;
      if l'.bead == "" {
        var bead := OpenSwapOf(id, ports);
        l' := l'.(bead := bead);
      }
      if l'.bead == "" {
        if !ports.files {
          return false, l';
        }
        l' := l'.(bead := filed);
        beads := beads + {filed};
        return ports.releases, l';
      }
      return true, l';
    }

    lemma OneOpen(open: set<string>, chosen: string, l: Landing, filed: string, ports: Ports)
      requires RightBead(chosen, open, l, filed, ports) && filed !in closed && filed !in open && One(open)
      ensures One(if chosen !in closed then open + {chosen} else open) <==> WritesOnTheOne(open, l, closed, ports)
    {
    }

    /** Writes the swap on the bead and supersedes the older ones. */
    method WriteSwap(bead: string, id: string, ports: Ports) returns (ok: bool)
      requires Valid() && bead in beads
      modifies `steps, `ran, `retired, `superseded
      ensures Valid()
      ensures ok <==> ports.written >= HANDS_WRITES && ports.stepsRead && |HeldOf(steps, ran, retired)| <= ports.marks
      ensures |old(steps)| <= |steps| <= |old(steps)| + 1
      ensures ok ==> Key(bead, id) in steps && OneCommitLeft(id) && Superseding(bead, id)
      ensures forall other :: other != id ==> OpenBeads(other) == old(OpenBeads(other))
      ensures OpenBeads(id) == old(OpenBeads(id)) || (bead !in closed && OpenBeads(id) == old(OpenBeads(id)) + {bead})
      ensures ports.written >= HANDS_WRITES ==>
                OpenBeads(id) == if bead !in closed then old(OpenBeads(id)) + {bead} else old(OpenBeads(id))
      ensures ports.written == 0 ==> OpenBeads(id) == old(OpenBeads(id))
    {
      ok := WriteStep(Key(bead, id), ports.written);
      if ok {
        ok := SupersedeOlder(bead, id, ports);
      }
    }

    /** Of the swaps not run clean, those of the name are unmarked and every other is superseded by the bead. */
    ghost predicate Superseding(bead: string, id: string)
      reads `steps, `ran, `retired, `superseded
    {
      forall k :: k in steps && Unrun(k) ==>
        if k.step == id then k !in superseded else k in superseded && superseded[k] == bead
    }

    /** One try at a landing, and what is kept of it: nothing once it is staged, the same landing when another
        process is staging, and one more failure otherwise, the last of which is said on the story. */
    method Attempt(l: Landing, auto: bool, filed: string, ports: Ports) returns (result: Result, ghost bead: string)
      requires Valid() && (l.bead != "" ==> l.bead in beads)
      requires filed !in beads && filed != ""
      modifies this
      ensures Valid() && old(beads) <= beads <= old(beads) + {filed} && closed == old(closed)
      ensures |old(steps)| <= |steps| <= |old(steps)| + 1
      ensures result == Staged ==> pending == (if ports.cleared then old(pending) - {l.commit} else old(pending))
      ensures result == HeldElsewhere ==> pending == (if ports.saved then old(pending)[l.commit := l] else old(pending))
      ensures (bead != "" ==> bead in beads) && (l.bead != "" ==> bead == l.bead)
      ensures ports.builds && ports.claim == ClaimTaken && NeedsFiling(old(OpenBeads(StepOf(l.commit))), l, ports) ==>
                bead == (if ports.files then filed else "")
      ensures result == Failed ==>
                pending == if ports.saved then old(pending)[l.commit := Landing(l.commit, bead, l.tries + 1)] else old(pending)
      ensures givenUp == old(givenUp) + if result == Failed && l.tries + 1 >= BACKEND_TRIES then [l.commit] else []
      ensures result == HeldElsewhere <==> ports.builds && ports.claim == ClaimHeld
      ensures result == Staged ==> OneCommitLeft(StepOf(l.commit)) && ForStaged(ports, auto)
      ensures result == Failed ==> !AllFine(ports, auto) || ports.marks < |steps|
      ensures result == Staged && bead !in closed ==> bead in OpenBeads(StepOf(l.commit))
      ensures forall id :: id != StepOf(l.commit) ==> OpenBeads(id) == old(OpenBeads(id))
      ensures ports.written == 0 ==> OpenBeads(StepOf(l.commit)) == old(OpenBeads(StepOf(l.commit)))
      ensures OpenBeads(StepOf(l.commit)) - {bead} <= old(OpenBeads(StepOf(l.commit))) <= OpenBeads(StepOf(l.commit))
      ensures var open := old(OpenBeads(StepOf(l.commit)));
              && strayed == (old(strayed) || !WritesOnTheOne(open, l, closed, ports))
              && (One(open) && WritesOnTheOne(open, l, closed, ports) ==> AtMostOneOpen(StepOf(l.commit)))
    {
      hide *;
      OneOpenMeans(StepOf(l.commit));
      ghost var strays := !WritesOnTheOne(OpenBeads(StepOf(l.commit)), l, closed, ports);
      var l';
      result, l' := Stage(l, StepOf(l.commit), auto, filed, ports);
      bead := l'.bead;
      HeldAreFewer(steps, ran, retired);
      StagedMeans(ports, auto);
      NoteAttempt(l, l', result, ports, strays);
    }

    method NoteAttempt(l: Landing, l': Landing, result: Result, ports: Ports, ghost strays: bool)
      requires l'.commit == l.commit
      modifies `pending, `givenUp, `strayed
      ensures strayed == (old(strayed) || strays)
      ensures result == Staged ==> pending == (if ports.cleared then old(pending) - {l.commit} else old(pending))
      ensures result == HeldElsewhere ==> pending == (if ports.saved then old(pending)[l.commit := l'] else old(pending))
      ensures result == Failed ==>
                pending == if ports.saved then old(pending)[l.commit := l'.(tries := l.tries + 1)] else old(pending)
      ensures givenUp == old(givenUp) + if result == Failed && l.tries + 1 >= BACKEND_TRIES then [l.commit] else []
    {
      strayed := strayed || strays;
      if result == HeldElsewhere {
        if ports.saved {
          pending := pending[l.commit := l'];
        }
      } else if result == Staged {
        if ports.cleared {
          pending := pending - {l.commit};
        }
      } else {
        if ports.saved {
          pending := pending[l.commit := l'.(tries := l.tries + 1)];
        }
        if l.tries + 1 >= BACKEND_TRIES {
          givenUp := givenUp + [l.commit];
        }
      }
    }

    /** The home's ticks at one pending landing, each with the bead a filing of its own would make; a tick that finds
        the landing staged, or failed its three times, does not try it. */
    method Ticks(commit: string, auto: bool, ticks: seq<Tick>) returns (results: seq<Option<Result>>)
      requires Kept() && commit in pending && pending[commit].tries < BACKEND_TRIES
      requires forall i :: 0 <= i < |ticks| ==> ticks[i].filed !in beads && ticks[i].filed != ""
      requires forall i, j :: 0 <= i < j < |ticks| ==> ticks[i].filed != ticks[j].filed
      modifies this
      ensures Valid() && |results| == |ticks|
      // It is tried until it is staged, or three failures are kept of it.
      ensures forall i :: 0 <= i < |ticks| ==>
                (results[i].Some? <==>
                  !Over(results[..i], ticks) && old(pending)[commit].tries + Counted(results[..i], ticks) < BACKEND_TRIES)
      // Only real failures count, never a staging another process was at.
      ensures forall i :: 0 <= i < |ticks| && results[i].Some? ==>
                ComesTo(results[i].value, ticks[i].ports, auto, |steps|)
      ensures commit in pending <==> !Over(results, ticks)
      ensures commit in pending ==> pending[commit].tries == old(pending)[commit].tries + Counted(results, ticks)
      ensures old(pending)[commit].tries + Counted(results, ticks) <= BACKEND_TRIES
      // The last failure is said each time it is made, and is the last when it is kept.
      ensures givenUp == old(givenUp) + seq(SaidGivenUp(old(pending)[commit].tries, results, ticks), _ => commit)
    {
      hide *;
      results := [];
      ghost var before := pending[commit].tries;
      KeptMeans(commit);
      NoneTried(before, ticks);
      for i := 0 to |ticks|
        invariant Valid() && |results| == i
        invariant commit in pending ==>
                    pending[commit].commit == commit && (pending[commit].bead != "" ==> pending[commit].bead in beads)
        invariant forall j :: i <= j < |ticks| ==> ticks[j].filed !in beads
        invariant forall j :: 0 <= j < i ==>
                    (results[j].Some? <==> !Over(results[..j], ticks) && before + Counted(results[..j], ticks) < BACKEND_TRIES)
        invariant forall j :: 0 <= j < i && results[j].Some? ==> ComesTo(results[j].value, ticks[j].ports, auto, |steps|)
        invariant commit in pending <==> !Over(results, ticks)
        invariant commit in pending ==> pending[commit].tries == before + Counted(results, ticks)
        invariant before + Counted(results, ticks) <= BACKEND_TRIES
        invariant givenUp == old(givenUp) + seq(SaidGivenUp(before, results, ticks), _ => commit)
      {
        ghost var was := results;
        ghost var size := |steps|;
        if commit in pending && pending[commit].tries < BACKEND_TRIES {
          var result, _ := Attempt(pending[commit], auto, ticks[i].filed, ticks[i].ports);
          results := results + [Some(result)];
          AttemptComesTo(result, ticks[i].ports, auto, |steps|);
        } else {
          results := results + [None];
        }
        OneMoreTick(before, was, results[i], ticks);
        assert results[..i] == was;
        forall j | 0 <= j < i
          ensures results[..j] == was[..j] && results[j] == was[j]
          ensures results[j].Some? ==> ComesTo(results[j].value, ticks[j].ports, auto, |steps|)
        {
          if results[j].Some? {
            MoreSteps(results[j].value, ticks[j].ports, auto, size, |steps|);
          }
        }
      }
    }

    lemma KeptMeans(commit: string)
      requires Kept() && commit in pending
      ensures Valid() && pending[commit].commit == commit && (pending[commit].bead != "" ==> pending[commit].bead in beads)
    {
    }

    /** A staging of a landing held by a process: one just landed, or one read from its note, now or a while ago. */
    method StageHeld(l: Landing, auto: bool, filed: string, ports: Ports)
      requires Kept() && (l.bead != "" ==> l.bead in beads)
      requires filed !in beads && filed != ""
      modifies this
      ensures Kept()
      ensures strayed == (old(strayed) || !WritesOnTheOne(old(OpenBeads(StepOf(l.commit))), l, closed, ports))
      ensures CannotStray(l, ports) ==> strayed == old(strayed)
    {
      hide Valid, OpenBeads, AtMostOneOpen, OneCommitLeft;
      forall id ensures AtMostOneOpen(id) <==> One(OpenBeads(id)) {
        OneOpenMeans(id);
      }
      ghost var open := imap id {:trigger OpenBeads(id)} :: OpenBeads(id);
      var result, bead := Attempt(l, auto, filed, ports);
      forall id ensures AtMostOneOpen(id) <==> One(OpenBeads(id)) {
        OneOpenMeans(id);
      }
      assert forall id :: id != StepOf(l.commit) ==> OpenBeads(id) == open[id];
    }

    /** A step is run, which it is only when it has not run clean. */
    method StepRuns(k: Key, exit: int)
      requires Kept()
      modifies `ran
      ensures Kept() && strayed == old(strayed)
    {
      if k in steps && Unrun(k) {
        ghost var open := imap id {:trigger OpenBeads(id)} :: OpenBeads(id);
        assert forall id :: OpenBeads(id) == open[id] && (!strayed ==> AtMostOneOpen(id));
        ran := ran[k := Exited(exit)];
        if !strayed {
          forall id ensures AtMostOneOpen(id) {
            assert OpenBeads(id) <= open[id] && One(open[id]);
          }
        }
      }
    }

    method Retire(k: Key)
      requires Kept()
      modifies `retired
      ensures Kept() && strayed == old(strayed)
    {
      if k in steps {
        ghost var open := imap id {:trigger OpenBeads(id)} :: OpenBeads(id);
        assert forall id :: OpenBeads(id) == open[id] && (!strayed ==> AtMostOneOpen(id));
        retired := retired + {k};
        if !strayed {
          forall id ensures AtMostOneOpen(id) {
            assert OpenBeads(id) <= open[id] && One(open[id]);
          }
        }
      }
    }

    method Close(bead: string)
      requires Kept()
      modifies `closed
      ensures Kept() && strayed == old(strayed)
    {
      if bead in beads {
        ghost var open := imap id {:trigger OpenBeads(id)} :: OpenBeads(id);
        assert forall id :: OpenBeads(id) == open[id] && (!strayed ==> AtMostOneOpen(id));
        closed := closed + {bead};
        if !strayed {
          forall id ensures AtMostOneOpen(id) {
            assert OpenBeads(id) <= open[id] && One(open[id]);
          }
        }
      }
    }

    /** Everything that happens to the swaps of the binary, in any order: landings staged as they land or from what
        was kept of them, each from its claim to its release; steps run; steps retired; beads closed. */
    method Happen(happenings: seq<Happening>)
      requires Kept()
      modifies this
      // No swap is held by two open beads but where a staging strayed, which none does that carries no bead of its
      // own and can read the others'.
      ensures Kept()
      ensures (forall h :: h in happenings ==> !h.Retries? && (h.Lands? ==> CannotStray(h.l, h.ports))) ==>
                strayed == old(strayed)
    {
      for i := 0 to |happenings|
        invariant Kept()
        invariant (forall h :: h in happenings[..i] ==> !h.Retries? && (h.Lands? ==> CannotStray(h.l, h.ports))) ==>
                    strayed == old(strayed)
      {
        hide CannotStray, AtMostOneOpen, WritesOnTheOne, OpenBeads;
        assert happenings[..i + 1] == happenings[..i] + [happenings[i]];
        assert happenings[i] in happenings[..i + 1];
        match happenings[i] {
          case Lands(l, auto, filed, ports) =>
            if filed !in beads && filed != "" && (l.bead == "" || l.bead in beads) {
              StageHeld(l, auto, filed, ports);
            }
          case Retries(commit, auto, filed, ports) =>
            if filed !in beads && filed != "" && commit in pending && pending[commit].tries < BACKEND_TRIES {
              StageHeld(pending[commit], auto, filed, ports);
            }
          case Runs(k, exit) => StepRuns(k, exit);
          case Retires(k) => Retire(k);
          case Closes(bead) => Close(bead);
        }
      }
    }

    constructor ()
      ensures Kept() && !strayed && pending == map[] && beads == {} && steps == [] && closed == {}
    {
      steps, ran, retired, superseded, closed, beads := [], map[], {}, map[], {}, {};
      swaps, pending, givenUp, strayed := map[], map[], [], false;
    }
  }

  /** Two open beads to one swap: a try files a bead and cannot write the step on it; another process, that held the
      landing from before, files a second and stages it, and cannot clear the note; and the next try goes on with
      the first. */
  method TwoOpenBeads(commit: string, first: string, second: string) returns (mill: Mill)
    requires first != "" && second != "" && first != second
    ensures !mill.AtMostOneOpen(StepOf(commit))
  {
    mill := new Mill();
    mill.NoStepsNoneOpen(StepOf(commit));
    var fine := Ports(true, ClaimTaken, true, {}, true, true, HANDS_WRITES, 3, true, NoStandby, true, true);
    var landed := Landing(commit, "", 0);
    var _, bead := mill.Attempt(landed, false, first, fine.(written := 0));
    assert bead == first && mill.pending[commit] == Landing(commit, first, 1);
    var _, other := mill.Attempt(landed, false, second, fine.(cleared := false));
    assert other == second && second in mill.OpenBeads(StepOf(commit));
    var _, again := mill.Attempt(mill.pending[commit], false, second + first, fine);
    assert again == first && {first, second} <= mill.OpenBeads(StepOf(commit));
  }

  datatype Happening =
    | Lands(l: Landing, auto: bool, filed: string, ports: Ports)
    | Retries(commit: string, auto: bool, filed: string, ports: Ports)
    | Runs(key: Key, exit: int)
    | Retires(key: Key)
    | Closes(bead: string)

  datatype Tick = Tick(filed: string, ports: Ports)

  /** The failures that were kept of a landing, whose staging ends it once its note is cleared. */
  function Counted(results: seq<Option<Result>>, ticks: seq<Tick>): nat
    requires |results| <= |ticks|
  {
    if results == [] then 0
    else
      var n := |results| - 1;
      Counted(results[..n], ticks) + if results[n] == Some(Failed) && ticks[n].ports.saved then 1 else 0
  }

  ghost predicate Over(results: seq<Option<Result>>, ticks: seq<Tick>)
    requires |results| <= |ticks|
  {
    exists i :: 0 <= i < |results| && results[i] == Some(Staged) && ticks[i].ports.cleared
  }

  /** How often the landing's story is told that nothing more is tried. */
  function SaidGivenUp(before: nat, results: seq<Option<Result>>, ticks: seq<Tick>): nat
    requires |results| <= |ticks|
  {
    if results == [] then 0
    else
      var n := |results| - 1;
      SaidGivenUp(before, results[..n], ticks) +
      if results[n] == Some(Failed) && before + Counted(results[..n], ticks) + 1 >= BACKEND_TRIES then 1 else 0
  }

  lemma NoneTried(before: nat, ticks: seq<Tick>)
    ensures !Over([], ticks) && Counted([], ticks) == 0 == SaidGivenUp(before, [], ticks)
  {
  }

  lemma OneMoreTick(before: nat, results: seq<Option<Result>>, result: Option<Result>, ticks: seq<Tick>)
    requires |results| < |ticks|
    ensures var n, more := |results|, results + [result];
            && Counted(more, ticks) == Counted(results, ticks) + (if result == Some(Failed) && ticks[n].ports.saved then 1 else 0)
            && (Over(more, ticks) <==> Over(results, ticks) || (result == Some(Staged) && ticks[n].ports.cleared))
            && SaidGivenUp(before, more, ticks) == SaidGivenUp(before, results, ticks) +
                 if result == Some(Failed) && before + Counted(results, ticks) + 1 >= BACKEND_TRIES then 1 else 0
  {
    var more := results + [result];
    assert more[..|results|] == results;
    if Over(results, ticks) {
      var i :| 0 <= i < |results| && results[i] == Some(Staged) && ticks[i].ports.cleared;
      assert more[i] == results[i];
    }
    assert more[|results|] == result;
  }

  /** While the failures are kept, a landing's story is told once, and exactly when three were. */
  lemma {:induction false} GivenUpOnce(before: nat, results: seq<Option<Result>>, ticks: seq<Tick>)
    requires |results| <= |ticks| && before < BACKEND_TRIES && forall t :: t in ticks ==> t.ports.saved
    requires forall i :: 0 <= i < |results| && results[i].Some? ==> before + Counted(results[..i], ticks) < BACKEND_TRIES
    ensures before + Counted(results, ticks) <= BACKEND_TRIES
    ensures SaidGivenUp(before, results, ticks) == if before + Counted(results, ticks) == BACKEND_TRIES then 1 else 0
  {
    if results != [] {
      var n := |results| - 1;
      assert forall i :: 0 <= i < n ==> results[..n][i] == results[i] && results[..n][..i] == results[..i];
      GivenUpOnce(before, results[..n], ticks);
      assert ticks[n] in ticks;
    }
  }

  /** What a staging that succeeds was answered, and what one that fails was not. */
  predicate ForStaged(ports: Ports, auto: bool) {
    && ports.builds && ports.claim == ClaimTaken && ports.written >= HANDS_WRITES && ports.stepsRead
    && (auto ==> ports.swapKept) && ports.standby != StandbyFails
  }

  predicate AllFine(ports: Ports, auto: bool) {
    ForStaged(ports, auto) && ports.files && ports.releases
  }

  lemma StagedMeans(ports: Ports, auto: bool)
    ensures ForStaged(ports, auto) <==>
              && ports.builds && ports.claim == ClaimTaken && ports.written >= HANDS_WRITES && ports.stepsRead
              && (auto ==> ports.swapKept) && ports.standby != StandbyFails
    ensures AllFine(ports, auto) <==> ForStaged(ports, auto) && ports.files && ports.releases
  {
  }

  /** What a try comes to, of the ports' answers: with so many steps there may be as many to mark. */
  predicate ComesTo(result: Result, ports: Ports, auto: bool, steps: nat) {
    match result
    case HeldElsewhere => ports.builds && ports.claim == ClaimHeld
    case Staged => ForStaged(ports, auto)
    case Failed => !(ports.builds && ports.claim == ClaimHeld) && (!AllFine(ports, auto) || ports.marks < steps)
  }

  lemma AttemptComesTo(result: Result, ports: Ports, auto: bool, steps: nat)
    requires result == HeldElsewhere <==> ports.builds && ports.claim == ClaimHeld
    requires result == Staged ==> ForStaged(ports, auto)
    requires result == Failed ==> !AllFine(ports, auto) || ports.marks < steps
    ensures ComesTo(result, ports, auto, steps)
  {
  }

  lemma MoreSteps(result: Result, ports: Ports, auto: bool, some: nat, more: nat)
    requires ComesTo(result, ports, auto, some) && some <= more
    ensures ComesTo(result, ports, auto, more)
  {
  }

  /** A staging that carries no bead of its own and can read the others'. */
  predicate CannotStray(l: Landing, ports: Ports) {
    l.bead == "" && ports.stepsRead && ports.beadsUnread == {}
  }

  function StepOf(commit: string): string {
    "backend-" + commit
  }

  ghost predicate One(beads: set<string>) {
    forall a, b :: a in beads && b in beads ==> a == b
  }

  /** What a caller can see before a staging: it will write on the one open bead that holds the swap, if any does. */
  predicate WritesOnTheOne(open: set<string>, l: Landing, closed: set<string>, ports: Ports) {
    if l.bead != "" then l.bead in closed || open <= {l.bead}
    else open == {} || !NeedsFiling(open, l, ports)
  }

  /** No bead is known or seen to hold the swap, so one is filed. */
  predicate NeedsFiling(open: set<string>, l: Landing, ports: Ports) {
    l.bead == "" && (!ports.stepsRead || open <= ports.beadsUnread)
  }

  /** The bead a staging writes on: its own, else one that is seen to hold the swap, else a new one. */
  predicate RightBead(chosen: string, open: set<string>, l: Landing, filed: string, ports: Ports) {
    if l.bead != "" then chosen == l.bead
    else if NeedsFiling(open, l, ports) then chosen == filed
    else chosen in open && chosen !in ports.beadsUnread
  }
}
