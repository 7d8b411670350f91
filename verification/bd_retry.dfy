/** The bd a session runs: run again on the server's passing faults, and never so that a write is made twice. */
module BdRetries {
  import opened BatchQueue
  import opened BdCalls

  // Seconds.
  const BD_RETRY_LIMIT := 120
  const FIRST_PAUSE := 2
  const LONGEST_PAUSE := 20
  const COMMENT_SLACK := 60

  /** One run of the command. A failed one may have done its work all the same. */
  datatype Outcome = Done | Fault(applied: bool) | Refused(applied: bool) | NotStarted

  /** One read of a bead back. */
  datatype Read = Shown | ReadFault | ReadFails | Unparsed

  /** A comment on the bead; `at` is the server's date, None when it cannot be parsed. */
  datatype Said = Said(text: string, at: Option<int>)

  /** What the n-th run, read and pause come to, what date the server gives what the n-th run writes, and what text bd
      keeps of the words of a comment, which is its own reading of them. */
  datatype Ports = Ports(runs: nat -> Outcome, looks: nat -> Read, waits: nat -> bool, dates: nat -> Option<int>,
                         text: string)

  /** What a command comes to, as mw bd says it. */
  datatype Why = Through | NotPassing | GaveUp | HadLanded | CannotTell | CutShort | NoBd

  datatype State = NotLanded | LandedState | Unreadable | CannotSay

  // ----- The pauses -----

  function NextPause(pause: int): int {
    if pause * 2 > LONGEST_PAUSE then LONGEST_PAUSE else pause * 2
  }

  function PauseAt(n: nat): (pause: int)
    ensures FIRST_PAUSE <= pause <= LONGEST_PAUSE
  {
    if n == 0 then FIRST_PAUSE else NextPause(PauseAt(n - 1))
  }

  /** The wait in all after n pauses. */
  function WaitedAt(n: nat): int {
    if n == 0 then 0 else WaitedAt(n - 1) + PauseAt(n - 1)
  }

  lemma {:induction false} WaitsGrow(m: nat, n: nat)
    requires m <= n
    ensures WaitedAt(m) + 2 * (n - m) <= WaitedAt(n)
  {
    if m < n {
      WaitsGrow(m, n - 1);
    }
  }

  /** The eight pauses the default limit has room for: 2, 4, 8, 16 and four of 20. */
  lemma EightPausesFit(n: nat)
    ensures WaitedAt(n) <= BD_RETRY_LIMIT <==> n <= 8
  {
    assert PauseAt(1) == 4 && PauseAt(2) == 8 && PauseAt(3) == 16 && PauseAt(4) == 20;
    assert PauseAt(5) == 20 && PauseAt(6) == 20 && PauseAt(7) == 20 && PauseAt(8) == 20;
    assert WaitedAt(4) == 30;
    assert WaitedAt(8) == 110 && WaitedAt(9) == 130;
    if n <= 8 {
      WaitsGrow(n, 8);
    } else {
      WaitsGrow(9, n);
    }
  }

  // ----- What a command writes -----

  /** The command's text for a comment, its words joined by one space. */
  function Joined(words: seq<string>): string {
    if words == [] then "" else if |words| == 1 then words[0] else words[0] + " " + Joined(words[1..])
  }

  /** The beads and the text a close or a comment names. */
  function Named(call: Call): seq<string> {
    var pos := PositionalOf(call.rest);
    if call.sub == "comments" && pos != [] then pos[1..] else pos
  }

  function TextOf(call: Call): string {
    if |Named(call)| < 2 then "" else Joined(Named(call)[1..])
  }

  /** The comment has words of its own to be told by. */
  predicate HasText(call: Call) {
    |Named(call)| >= 2 && !HasFlag(call.rest, {"-f", "--file"})
  }

  predicate Applied(o: Outcome) {
    o == Done || (o.Fault? && o.applied) || (o.Refused? && o.applied)
  }

  /** The comments the first n runs wrote. */
  function Written(ports: Ports, n: nat): seq<Said> {
    if n == 0 then []
    else Written(ports, n - 1) + if Applied(ports.runs(n - 1)) then [Said(ports.text, ports.dates(n - 1))] else []
  }

  /** A comment that is taken for this command's own. */
  predicate Fresh(c: Said, text: string, began: int) {
    c.text == text && (c.at.None? || c.at.value >= began - COMMENT_SLACK)
  }

  /** What the n-th run writes can be known for the command's own: bd keeps the text that mw reads of its words, and
      the server does not date it before the slack. */
  predicate Known(call: Call, ports: Ports, n: nat, began: int) {
    ports.text == TextOf(call) && (ports.dates(n).None? || ports.dates(n).value >= began - COMMENT_SLACK)
  }

  /** The beads as the runs of one command change them, and how often each thing was asked. */
  class Server {
    var comments: seq<Said>
    var closed: set<string>
    var runs: nat
    var looks: nat

    constructor (comments: seq<Said>, closed: set<string>)
      ensures this.comments == comments && this.closed == closed && runs == 0 && looks == 0
    {
      this.comments, this.closed, runs, looks := comments, closed, 0, 0;
    }

    method RunBd(call: Call, ports: Ports) returns (outcome: Outcome)
      modifies `comments, `closed, `runs
      ensures outcome == ports.runs(old(runs)) && runs == old(runs) + 1
      ensures comments == old(comments) +
                if KindOf(call) == Comment && Applied(outcome) then [Said(ports.text, ports.dates(old(runs)))] else []
      ensures closed == old(closed) +
                if KindOf(call) == Close && Applied(outcome) then set id | id in Named(call) else {}
    {
      outcome := ports.runs(runs);
      if KindOf(call) == Comment && Applied(outcome) {
        comments := comments + [Said(ports.text, ports.dates(runs))];
      }
      if KindOf(call) == Close && Applied(outcome) {
        closed := closed + set id | id in Named(call);
      }
      runs := runs + 1;
    }

    /** Reads the bead back to say whether the write took. */
    method ReadBack(call: Call, began: int, ports: Ports) returns (state: State)
      requires KindOf(call) == Close || KindOf(call) == Comment
      modifies `looks
      ensures old(looks) <= looks
      ensures KindOf(call) == Comment && HasText(call) ==> looks == old(looks) + 1
      ensures KindOf(call) == Comment ==>
                && (state == CannotSay <==> !HasText(call) || ports.looks(old(looks)) in {ReadFails, Unparsed})
                && (state == Unreadable <==> HasText(call) && ports.looks(old(looks)) == ReadFault)
                && (state == LandedState <==>
                     && HasText(call) && ports.looks(old(looks)) == Shown
                     && exists c :: c in comments && Fresh(c, TextOf(call), began))
      ensures KindOf(call) == Close ==>
                && state != CannotSay
                && (state == LandedState ==> Named(call) != [] && forall id :: id in Named(call) ==> id in closed)
                && (state == Unreadable ==> exists n :: old(looks) <= n < looks && ports.looks(n) == ReadFault)
      ensures KindOf(call) == Close && (forall n :: ports.looks(n) == Shown) ==>
                (state == LandedState <==> Named(call) != [] && forall id :: id in Named(call) ==> id in closed)
    {
      if KindOf(call) == Comment {
        if !HasText(call) {
          return CannotSay;
        }
        var read := ports.looks(looks);
        looks := looks + 1;
        match read {
          case ReadFault => return Unreadable;
          case ReadFails => return CannotSay;
          case Unparsed => return CannotSay;
          case Shown =>
            for i := 0 to |comments|
              invariant forall c :: c in comments[..i] ==> !Fresh(c, TextOf(call), began)
            {
              if Fresh(comments[i], TextOf(call), began) {
                return LandedState;
              }
              assert comments[..i + 1] == comments[..i] + [comments[i]];
            }
            assert comments[..|comments|] == comments;
            return NotLanded;
        }
      }
      var ids := Named(call);
      for i := 0 to |ids|
        invariant old(looks) <= looks
        invariant forall id :: id in ids[..i] ==> id in closed
      {
        var read := ports.looks(looks);
        looks := looks + 1;
        if read != Shown {
          return if read == ReadFault then Unreadable else NotLanded;
        }
        if ids[i] !in closed {
          return NotLanded;
        }
        assert ids[..i + 1] == ids[..i] + [ids[i]];
      }
      assert ids[..|ids|] == ids;
      return if ids == [] then NotLanded else LandedState;
    }
  }

  predicate Succeeded(why: Why) {
    why == Through || why == HadLanded
  }

  /** Why a command ends, told by what it met last: the run, the pause or the read. */
  ghost predicate EndsRightly(server: Server, call: Call, began: int, limit: int, ports: Ports, why: Why, pauses: nat)
    requires server.runs > 0
    reads server
  {
    var last := ports.runs(server.runs - 1);
    match why
    case NoBd => last == NotStarted
    case Through => last == Done
    case NotPassing => last.Refused? || (last.Fault? && KindOf(call) == Never)
    case GaveUp => last.Fault? && KindOf(call) != Never && WaitedAt(pauses + 1) > limit
    case CutShort => last.Fault? && KindOf(call) != Never && !ports.waits(pauses)
    case CannotTell =>
      && last.Fault? && KindOf(call) == Comment
      && (!HasText(call) || exists n: nat :: n < server.looks && ports.looks(n) in {ReadFails, Unparsed})
    case HadLanded =>
      && last.Fault?
      && (KindOf(call) == Comment || KindOf(call) == Close)
      && (KindOf(call) == Comment ==> exists c :: c in server.comments && Fresh(c, TextOf(call), began))
      && (KindOf(call) == Close ==> forall id :: id in Named(call) ==> id in server.closed)
  }

  /** Of the first n runs each met a passing fault, and none whose comment could be told from an older one wrote it. */
  ghost predicate AllFaults(call: Call, began: int, ports: Ports, n: nat) {
    forall k :: 0 <= k < n ==>
      && ports.runs(k).Fault? && KindOf(call) != Never
      && (KindOf(call) == Comment && Applied(ports.runs(k)) ==> !Known(call, ports, k, began))
  }

  /** What the wait after a failed run ended on. */
  datatype Waited = RunAgain | Stop(why: Why)

  /** Waits, and for a close or a comment, which may have landed whatever bd said, reads the bead back before it is
      written again. The read meets the fault too, and then the wait goes on. */
  method WaitAndLook(server: Server, call: Call, began: int, limit: int, ports: Ports, before: nat)
    returns (waited: Waited, pauses: nat)
    requires KindOf(call) != Never && (before > 0 ==> WaitedAt(before) <= limit)
    modifies server`looks
    ensures before <= pauses && (pauses > 0 ==> WaitedAt(pauses) <= limit)
    ensures waited == RunAgain ==>
              && pauses > before
              && (KindOf(call) == Comment ==> forall c :: c in server.comments ==> !Fresh(c, TextOf(call), began))
    ensures waited.Stop? ==> waited.why in {GaveUp, CutShort, CannotTell, HadLanded}
    ensures waited == Stop(GaveUp) ==> WaitedAt(pauses + 1) > limit
    ensures waited == Stop(CutShort) ==> !ports.waits(pauses)
    ensures waited == Stop(CannotTell) ==>
              && KindOf(call) == Comment
              && (!HasText(call) || exists n: nat :: n < server.looks && ports.looks(n) in {ReadFails, Unparsed})
    ensures waited == Stop(HadLanded) ==>
              && (KindOf(call) == Comment || KindOf(call) == Close)
              && (KindOf(call) == Comment ==> exists c :: c in server.comments && Fresh(c, TextOf(call), began))
              && (KindOf(call) == Close ==> forall id :: id in Named(call) ==> id in server.closed)
    ensures (forall n :: ports.looks(n) != ReadFault) ==> pauses <= before + 1
  {
    hide KindOf, HasText, TextOf, Named, Fresh;
    pauses := before;
    var total, pause := WaitedAt(before), PauseAt(before);
    while true
      invariant before <= pauses && total == WaitedAt(pauses) && pause == PauseAt(pauses)
      invariant pauses > 0 ==> total <= limit
      invariant (forall n :: ports.looks(n) != ReadFault) ==> pauses == before
      decreases limit - total
    {
      if total + pause > limit {
        return Stop(GaveUp), pauses;
      }
      if !ports.waits(pauses) {
        return Stop(CutShort), pauses;
      }
      total := total + pause;
      pause := NextPause(pause);
      pauses := pauses + 1;
      if KindOf(call) == Again {
        return RunAgain, pauses;
      }
      ghost var n := server.looks;
      var state := server.ReadBack(call, began, ports);
      match state {
        case LandedState => return Stop(HadLanded), pauses;
        case NotLanded => return RunAgain, pauses;
        case CannotSay =>
          assert HasText(call) ==> n < server.looks && ports.looks(n) in {ReadFails, Unparsed};
          return Stop(CannotTell), pauses;
        case Unreadable =>
      }
    }
  }

  /** Runs the command, and again while it meets a passing fault, up to the limit. */
  method Retry(server: Server, call: Call, began: int, limit: int, ports: Ports) returns (why: Why, pauses: nat)
    requires server.runs == 0 && server.looks == 0
    modifies server
    ensures 1 <= server.runs <= pauses + 1
    ensures pauses > 0 ==> WaitedAt(pauses) <= limit
    ensures EndsRightly(server, call, began, limit, ports, why, pauses)
    // Run again only after a passing fault, never a command that cannot be done twice, and a comment only when
    // the run before wrote none that it would have known for its own.
    ensures AllFaults(call, began, ports, server.runs - 1)
    ensures KindOf(call) == Never ==> server.runs == 1 && pauses == 0
    ensures (forall n :: ports.looks(n) != ReadFault) ==> pauses <= server.runs
    ensures server.comments == old(server.comments) +
              if KindOf(call) == Comment then Written(ports, server.runs) else []
    ensures Succeeded(why) && KindOf(call) == Comment ==>
              exists c :: c in server.comments && c.text == if why == Through then ports.text else TextOf(call)
    ensures Succeeded(why) && KindOf(call) == Close ==> forall id :: id in Named(call) ==> id in server.closed
  {
    hide KindOf, HasText, TextOf, Named, WaitedAt, PauseAt, AllFaults, Fresh, Known, Written, Applied;
    pauses := 0;
    NothingYet(call, began, ports);
    while true
      invariant server.runs <= pauses && (pauses > 0 ==> WaitedAt(pauses) <= limit)
      invariant AllFaults(call, began, ports, server.runs)
      invariant (forall n :: ports.looks(n) != ReadFault) ==> pauses <= server.runs
      invariant server.runs == 0 ==> pauses == 0
      invariant KindOf(call) == Never ==> server.runs == 0
      invariant server.comments == old(server.comments) +
                  if KindOf(call) == Comment then Written(ports, server.runs) else []
      decreases limit - WaitedAt(pauses)
    {
      ghost var k, before, was := server.runs, pauses, server.comments;
      WrittenAdd(ports, k);
      var run := server.RunBd(call, ports);
      if run == NotStarted {
        return NoBd, pauses;
      }
      if run == Done {
        assert KindOf(call) == Comment ==> server.comments[|was|].text == ports.text;
        return Through, pauses;
      }
      if !run.Fault? || KindOf(call) == Never {
        return NotPassing, pauses;
      }
      var waited;
      waited, pauses := WaitAndLook(server, call, began, limit, ports, pauses);
      if waited.Stop? {
        return waited.why, pauses;
      }
      WaitsGrow(before, pauses);
      if KindOf(call) == Comment && Applied(run) {
        assert server.comments[|was|] == Said(ports.text, ports.dates(k));
        FreshIsKnown(call, ports, k, began);
      }
      FaultsAdd(call, began, ports, k);
    }
  }

  lemma NothingYet(call: Call, began: int, ports: Ports)
    ensures AllFaults(call, began, ports, 0) && Written(ports, 0) == [] && WaitedAt(0) == 0
    ensures forall c :: Fresh(c, TextOf(call), began) ==> c.text == TextOf(call)
    ensures Applied(Done)
  {
  }

  lemma WrittenAdd(ports: Ports, n: nat)
    ensures Written(ports, n + 1) ==
            Written(ports, n) + if Applied(ports.runs(n)) then [Said(ports.text, ports.dates(n))] else []
  {
  }

  lemma FreshIsKnown(call: Call, ports: Ports, k: nat, began: int)
    ensures Fresh(Said(ports.text, ports.dates(k)), TextOf(call), began) <==> Known(call, ports, k, began)
  {
  }

  lemma FaultsAdd(call: Call, began: int, ports: Ports, n: nat)
    requires AllFaults(call, began, ports, n) && ports.runs(n).Fault? && KindOf(call) != Never
    requires KindOf(call) == Comment && Applied(ports.runs(n)) ==> !Known(call, ports, n, began)
    ensures AllFaults(call, began, ports, n + 1)
  {
  }

  // ----- What is promised of a comment -----

  /** Given a server clock within the slack, and a text that is read as bd keeps it, a comment is written once at
      most. */
  lemma {:induction false} OneCopyAtMost(call: Call, began: int, ports: Ports, n: nat)
    requires n >= 1 && KindOf(call) == Comment && AllFaults(call, began, ports, n - 1)
    requires forall k :: Known(call, ports, k, began)
    ensures |Written(ports, n)| <= 1
  {
    NoneWritten(call, began, ports, n - 1);
  }

  lemma {:induction false} NoneWritten(call: Call, began: int, ports: Ports, n: nat)
    requires KindOf(call) == Comment && AllFaults(call, began, ports, n)
    requires forall k :: Known(call, ports, k, began)
    ensures Written(ports, n) == []
  {
    if n > 0 {
      NoneWritten(call, began, ports, n - 1);
      assert Known(call, ports, n - 1, began);
    }
  }

  /** Two runs of the first n wrote the comment, what the earlier of them wrote not to be known for its own. */
  ghost predicate WroteUnknown(call: Call, ports: Ports, began: int, n: nat) {
    exists j: nat, k: nat ::
      j < k < n && Applied(ports.runs(j)) && Applied(ports.runs(k)) && !Known(call, ports, j, began)
  }

  /** A second copy is written exactly when a run wrote one after another whose own could not be known: the server had
      dated it too early, or bd keeps another text than mw reads of the words. */
  lemma {:induction false} SecondCopy(call: Call, began: int, ports: Ports, n: nat)
    requires n >= 1 && KindOf(call) == Comment && AllFaults(call, began, ports, n - 1)
    ensures |Written(ports, n)| >= 2 <==> WroteUnknown(call, ports, began, n)
  {
    WrittenAdd(ports, n - 1);
    SomeWritten(ports, n - 1);
    if n >= 2 {
      SecondCopy(call, began, ports, n - 1);
    }
  }

  lemma {:induction false} SomeWritten(ports: Ports, n: nat)
    ensures Written(ports, n) != [] <==> exists k: nat :: k < n && Applied(ports.runs(k))
  {
    if n > 0 {
      SomeWritten(ports, n - 1);
      WrittenAdd(ports, n - 1);
      if k: nat :| k < n && Applied(ports.runs(k)) {
        assert k < n - 1 || k == n - 1;
      }
    }
  }

  /** What the default limit has room for: nine runs, eight pauses. */
  method RetryWithin(server: Server, call: Call, began: int, ports: Ports) returns (why: Why, pauses: nat)
    requires server.runs == 0 && server.looks == 0
    modifies server
    ensures pauses <= 8 && server.runs <= 9
    ensures KindOf(call) == Comment && (forall k :: Known(call, ports, k, began)) ==>
              |server.comments| <= |old(server.comments)| + 1
    ensures KindOf(call) == Comment ==>
              (|server.comments| >= |old(server.comments)| + 2 <==> WroteUnknown(call, ports, began, server.runs))
    ensures why == GaveUp ==> pauses == 8
  {
    hide *;
    why, pauses := Retry(server, call, began, BD_RETRY_LIMIT, ports);
    EightPausesFit(pauses);
    EightPausesFit(pauses + 1);
    EightPausesFit(0);
    EndMeans(server, call, began, BD_RETRY_LIMIT, ports, why, pauses);
    if KindOf(call) == Comment {
      SecondCopy(call, began, ports, server.runs);
      if forall k :: Known(call, ports, k, began) {
        OneCopyAtMost(call, began, ports, server.runs);
      }
    }
  }

  lemma EndMeans(server: Server, call: Call, began: int, limit: int, ports: Ports, why: Why, pauses: nat)
    requires server.runs > 0 && EndsRightly(server, call, began, limit, ports, why, pauses)
    ensures why == GaveUp ==> WaitedAt(pauses + 1) > limit
    ensures why == HadLanded && KindOf(call) == Comment ==>
              exists c :: c in server.comments && Fresh(c, TextOf(call), began)
  {
  }

  const COMMENTING := Call([], true, "comment", ["mw-1", "done"])

  lemma CommentingIs()
    ensures KindOf(COMMENTING) == Comment && HasText(COMMENTING) && TextOf(COMMENTING) == "done"
  {
    var rest := ["mw-1", "done"];
    assert rest[1..] == ["done"];
    assert PositionalOf(["done"]) == ["done"];
    assert PositionalOf(rest) == ["mw-1", "done"];
    assert Named(COMMENTING) == ["mw-1", "done"];
    forall arg, name | arg in rest && name in {"-f", "--file"} ensures arg != name && !(name + "=" <= arg) {
      assert arg[0] != '-' && name[0] == '-';
    }
  }

  /** Whatever a server's clock is behind by beyond the slack, and whatever else bd keeps of the words than mw reads of
      them: the comment that was written is not known for its own, and a second is written. */
  method UnknownIsWrittenTwice(began: int, date: int, text: string) returns (server: Server)
    requires date < began - COMMENT_SLACK || text != "done"
    ensures fresh(server) && server.comments == [Said(text, Some(date)), Said(text, Some(date))]
  {
    hide *;
    server := new Server([], {});
    var ports := Ports(n => if n == 0 then Fault(true) else Done, n => Shown, n => true, n => Some(date), text);
    CommentingIs();
    var why, pauses := Retry(server, COMMENTING, began, BD_RETRY_LIMIT, ports);
    EightPausesFit(pauses + 1);
    TwoWritten(ports, date);
    OnlyTwo(server, began, date, ports, why, pauses);
  }

  lemma TwoWritten(ports: Ports, date: int)
    requires ports.runs(0) == Fault(true) && ports.runs(1) == Done && forall n :: ports.dates(n) == Some(date)
    ensures Written(ports, 2) == [Said(ports.text, Some(date)), Said(ports.text, Some(date))]
  {
    assert Written(ports, 1) == [Said(ports.text, Some(date))];
  }

  lemma OnlyTwo(server: Server, began: int, date: int, ports: Ports, why: Why, pauses: nat)
    requires date < began - COMMENT_SLACK || ports.text != "done"
    requires server.runs > 0 && EndsRightly(server, COMMENTING, began, BD_RETRY_LIMIT, ports, why, pauses)
    requires AllFaults(COMMENTING, began, ports, server.runs - 1) && pauses <= server.runs
    requires KindOf(COMMENTING) == Comment && HasText(COMMENTING) && TextOf(COMMENTING) == "done"
    requires WaitedAt(pauses + 1) <= BD_RETRY_LIMIT <==> pauses + 1 <= 8
    requires ports.runs(0) == Fault(true) && forall n :: n > 0 ==> ports.runs(n) == Done
    requires forall n :: ports.looks(n) == Shown && ports.waits(n) && ports.dates(n) == Some(date)
    requires server.comments == Written(ports, server.runs)
    ensures server.runs == 2
  {
    hide *;
    if server.runs == 1 {
      OneIsNoEnd(server, began, date, ports, why, pauses);
    } else if server.runs > 2 {
      DoneIsNoFault(began, ports, server.runs - 1);
    }
  }

  lemma OneIsNoEnd(server: Server, began: int, date: int, ports: Ports, why: Why, pauses: nat)
    requires date < began - COMMENT_SLACK || ports.text != "done"
    requires server.runs == 1 && pauses <= 1
    requires KindOf(COMMENTING) == Comment && HasText(COMMENTING) && TextOf(COMMENTING) == "done"
    requires WaitedAt(pauses + 1) <= BD_RETRY_LIMIT <==> pauses + 1 <= 8
    requires ports.runs(0) == Fault(true)
    requires forall n :: ports.looks(n) == Shown && ports.waits(n) && ports.dates(n) == Some(date)
    requires server.comments == Written(ports, 1)
    ensures !EndsRightly(server, COMMENTING, began, BD_RETRY_LIMIT, ports, why, pauses)
  {
    hide KindOf, HasText, TextOf, Named, WaitedAt;
    assert server.comments == [Said(ports.text, Some(date))] by {
      assert Written(ports, 0) == [];
    }
  }

  lemma DoneIsNoFault(began: int, ports: Ports, n: nat)
    requires n >= 2 && ports.runs(1) == Done
    ensures !AllFaults(COMMENTING, began, ports, n)
  {
    assert !ports.runs(1).Fault?;
  }
}
