/** A part of a split gate run by a process that outlives its call: started once, waited for again, told once. */
module PartRuns {
  import opened BatchQueue
  import opened Text

  // ----- The record of the process -----

  function RecordText(pid: nat, started: string): string {
    "pid " + Itoa(pid) + "\n" + ("started " + started) + "\n"
  }

  const TOLD := "told\n"

  /** The process a record names, 0 when it names none: the last of its pid lines. */
  function PidOf(lines: seq<string>): nat {
    if lines == [] then 0
    else
      var (word, rest, _) := Cut(TrimSpace(lines[|lines| - 1]), ' ');
      if word == "pid" then Atoi(rest) else PidOf(lines[..|lines| - 1])
  }

  /** The outstanding process of a part, if a record is kept of one that no call has told of. */
  function PartRunOf(record: Option<string>): nat {
    if record.None? then 0 else PidOf(Split(record.value, '\n'))
  }

  lemma RecordNamesIt(pid: nat, started: string)
    requires started != "" && forall c :: c in started ==> !IsSpace(c)
    ensures PartRunOf(Some(RecordText(pid, started))) == pid
  {
    hide *;
    var first, second := "pid " + Itoa(pid), "started " + started;
    RecordMeans(pid, started);
    assert first == "pid" + " " + Itoa(pid) && second == "started" + " " + started;
    DigitsArePlain(Itoa(pid));
    NumberOfItoa(pid);
    LineIs("pid", Itoa(pid));
    LineIs("started", started);
    RecordSplits(first, second);
    EmptyIs();
    assert Atoi(Itoa(pid)) == pid by {
      AtoiMeans(Itoa(pid));
    }
    var lines := [first, second, ""];
    assert lines[..2] == [first, second] && [first, second][..1] == [first] && [first][..0] == [];
    PidMeans(lines);
    PidMeans([first, second]);
    PidMeans([first]);
  }

  lemma RecordMeans(pid: nat, started: string)
    ensures RecordText(pid, started) == "pid " + Itoa(pid) + "\n" + ("started " + started) + "\n"
    ensures PartRunOf(Some(RecordText(pid, started))) == PidOf(Split(RecordText(pid, started), '\n'))
    ensures IsSpace('\n') && IsSpace(' ') && !IsSpace('p') && !IsSpace('s')
  {
  }

  lemma RecordSplits(first: string, second: string)
    requires '\n' !in first && '\n' !in second
    ensures Split(first + "\n" + second + "\n", '\n') == [first, second, ""]
  {
    SplitAtFirst(first, '\n', second + "\n");
    SplitAtFirst(second, '\n', "");
    assert first + "\n" + second + "\n" == first + "\n" + (second + "\n") && second + "\n" == second + "\n" + "";
  }

  lemma PidMeans(lines: seq<string>)
    requires lines != []
    ensures PidOf(lines) ==
            var cut := Cut(TrimSpace(lines[|lines| - 1]), ' ');
            if cut.0 == "pid" then Atoi(cut.1) else PidOf(lines[..|lines| - 1])
  {
  }

  lemma AtoiMeans(s: string)
    requires s != "" && AllDigits(s)
    ensures Atoi(s) == Number(s)
  {
  }

  /** A line of a record: a word and its value. */
  lemma LineIs(word: string, value: string)
    requires word in {"pid", "started"} && value != "" && forall c :: c in value ==> !IsSpace(c)
    ensures Cut(TrimSpace(word + " " + value), ' ') == (word, value, true) && '\n' !in word + " " + value
  {
    hide TrimSpace;
    var line := word + " " + value;
    assert line[|line| - 1] == value[|value| - 1] && value[|value| - 1] in value && line[0] == word[0];
    TrimmedStays(line);
    assert line == word + [' '] + value;
    CutAtFirst(word, ' ', value);
    assert IsSpace('\n');
  }

  lemma EmptyIs()
    ensures Cut(TrimSpace(""), ' ').0 != "pid" && TrimSpace("") == ""
  {
  }

  lemma ToldNamesNone()
    ensures PartRunOf(Some(TOLD)) == 0
  {
    hide TrimSpace;
    SplitAtFirst("told", '\n', "");
    assert TOLD == "told" + "\n" + "";
    TrimmedStays("told");
    CutNowhere("told", ' ');
    EmptyIs();
    assert ["told", ""][..1] == ["told"] && ["told"][..0] == [];
  }

  // ----- The calls -----

  /** What a part's own record says: nothing, that it is running, or how it ended. */
  datatype Result = NoResult | Running | Ended(passed: bool)

  /** One look of a call at the process, and what happens to that before the next. */
  datatype Moment = GoesOn | ProcessEnds(kept: Option<bool>)

  /** What one call meets: whether it can read the record of the outstanding process, the writes that starting one
      takes, the process it gets, the looks it has time for, and whether it can read what the part kept and write
      down that it told of it. */
  datatype Call = Call(seen: bool, calm: bool, marked: bool, emptied: bool, pid: Option<nat>, started: string,
                       recorded: bool, looks: seq<Moment>, resultRead: bool, told: bool)

  datatype Verdict = NotStarted | Unrecorded | StillRunning | Told(passed: Option<bool>)

  /** A verdict as it was told: of which process, what, and whether the part's own record could be read. */
  datatype Telling = Telling(pid: nat, passed: Option<bool>, read: bool)

  class Part {
    var record: Option<string>
    var result: Result
    /** The processes of this part that are alive on the host. */
    var alive: set<nat>
    /** The processes started, in order; what each that ended had kept; and what was told of them. */
    var starts: seq<nat>
    ghost var ends: map<nat, Option<bool>>
    ghost var tellings: seq<Telling>
    /** The record of an outstanding process could not be read, or one of a process started or told of not written. */
    ghost var lapsed: bool

    /** The process started last. */
    ghost function Last(): nat
      reads `starts
    {
      if starts == [] then 0 else starts[|starts| - 1]
    }

    /** The processes were told of in the order they were started, each once and as it ended, and the only one not
        told of is the one the record names, which alone may be alive. */
    ghost predicate ToldInOrder()
      reads this
    {
      && (forall i, j :: 0 <= i < j < |starts| ==> starts[i] != starts[j])
      && |tellings| == (if PartRunOf(record) != 0 then |starts| - 1 else |starts|)
      && (forall i :: 0 <= i < |tellings| ==>
           && tellings[i].pid == starts[i] && starts[i] in ends
           && tellings[i].passed == if tellings[i].read then ends[starts[i]] else None)
      && (forall p :: p in alive ==> p == Last() && p in starts && PartRunOf(record) == p)
    }

    ghost predicate Valid()
      reads this
    {
      !lapsed ==>
        && ToldInOrder()
        && (PartRunOf(record) != 0 ==>
             && PartRunOf(record) == Last()
             && (if Last() in alive then result == Running
                 else Last() in ends && result == if ends[Last()].Some? then Ended(ends[Last()].value) else Running))
        && (forall p :: p in starts ==> p > 0)
        && (forall p :: p in ends ==> p in starts && p !in alive)
    }

    constructor ()
      ensures Valid() && starts == [] && tellings == [] && !lapsed && alive == {} && PartRunOf(record) == 0
    {
      record, result, alive, starts, ends, tellings, lapsed := None, NoResult, {}, [], map[], [], false;
      new;
      assert PartRunOf(record) == 0;
    }

    /** The process of a part ends, and has kept a result or has not. */
    method ProcessEnd(pid: nat, kept: Option<bool>)
      requires Valid() && pid in alive
      modifies `alive, `result, `ends
      ensures Valid()
      ensures alive == old(alive) - {pid} && ends == old(ends)[pid := kept]
    {
      hide PartRunOf;
      alive := alive - {pid};
      ends := ends[pid := kept];
      if kept.Some? {
        result := Ended(kept.value);
      }
    }

    /** Starts the process of the part, its record made to say first that it is running. */
    method StartPart(call: Call) returns (pid: nat, trouble: Verdict)
      requires Valid() && (lapsed || PartRunOf(record) == 0) && Startable(call, starts)
      modifies `record, `result, `alive, `starts, `lapsed
      ensures Valid()
      ensures pid != 0 ==> call.pid == Some(pid) && starts == old(starts) + [pid] && PartRunOf(record) == pid && lapsed == old(lapsed)
      ensures pid != 0 ==> alive == old(alive) + {pid}
      ensures pid == 0 ==> trouble in {NotStarted, Unrecorded} && record == old(record)
      ensures pid == 0 && trouble == NotStarted <==> !call.marked || !call.emptied || call.pid.None?
      ensures pid == 0 && trouble == NotStarted ==> starts == old(starts) && lapsed == old(lapsed) && alive == old(alive)
      // A process that could not be recorded runs all the same, and no record names it.
      ensures pid == 0 && trouble == Unrecorded ==>
                && !call.recorded && call.pid.Some?
                && starts == old(starts) + [call.pid.value] && alive == old(alive) + {call.pid.value}
      ensures pid != 0 ==> call.recorded
      ensures (old(lapsed) ==> lapsed) && (lapsed && !old(lapsed) ==> !call.recorded)
    {
      hide PartRunOf, RecordText;
      if !call.marked {
        return 0, NotStarted;
      }
      result := Running;
      if !call.emptied || call.pid.None? {
        return 0, NotStarted;
      }
      pid := call.pid.value;
      starts, alive := starts + [pid], alive + {pid};
      if !call.recorded {
        lapsed := true;
        return 0, Unrecorded;
      }
      record := Some(RecordText(pid, call.started));
      RecordNamesIt(pid, call.started);
      return pid, NotStarted;
    }

    /** Waits for the process to end, no longer than what is left of the call. */
    method WaitForPart(pid: nat, call: Call) returns (verdict: Verdict)
      requires Valid() && pid != 0 && PartRunOf(record) == pid
      modifies `record, `result, `alive, `ends, `tellings, `lapsed
      ensures Valid() && (verdict == StillRunning || verdict.Told?) && starts == old(starts)
      // It waits for all of the time there is, and no longer than the process.
      ensures pid in old(alive) ==>
                (verdict == StillRunning <==> forall k :: 0 <= k < |call.looks| ==> call.looks[k] == GoesOn)
      ensures verdict == StillRunning ==> pid in alive && tellings == old(tellings) && lapsed == old(lapsed) && record == old(record)
      ensures verdict == StillRunning ==> alive == old(alive) && ends == old(ends)
      ensures verdict.Told? ==> tellings == old(tellings) + [Telling(pid, verdict.passed, call.resultRead)] && pid !in alive
      ensures verdict.Told? && call.told ==> PartRunOf(record) == 0
      ensures (old(lapsed) ==> lapsed) && (lapsed && !old(lapsed) ==> !call.told)
      ensures !old(lapsed) ==> pid == Last() && |old(tellings)| == |starts| - 1
    {
      hide PartRunOf;
      var i := 0;
      while true
        invariant Valid() && 0 <= i <= |call.looks|
        invariant tellings == old(tellings) && lapsed == old(lapsed) && record == old(record)
        invariant pid in alive ==> alive == old(alive) && ends == old(ends)
        invariant pid in old(alive) ==> (pid in alive <==> forall k :: 0 <= k < i ==> call.looks[k] == GoesOn)
        decreases |call.looks| - i
      {
        if pid !in alive {
          verdict := PartEnded(pid, call);
          return;
        }
        if i == |call.looks| {
          return StillRunning;
        }
        match call.looks[i] {
          case GoesOn =>
          case ProcessEnds(kept) => ProcessEnd(pid, kept);
        }
        i := i + 1;
      }
    }

    /** Tells how the process ended, from what it kept, and writes down that it was told. */
    method PartEnded(pid: nat, call: Call) returns (verdict: Verdict)
      requires Valid() && pid != 0 && PartRunOf(record) == pid && pid !in alive
      modifies `record, `tellings, `lapsed
      ensures Valid() && verdict.Told?
      ensures verdict == Told(if call.resultRead && result.Ended? then Some(result.passed) else None)
      ensures tellings == old(tellings) + [Telling(pid, verdict.passed, call.resultRead)]
      ensures call.told ==> PartRunOf(record) == 0
      ensures lapsed == (old(lapsed) || !call.told)
    {
      hide PartRunOf;
      verdict := Told(if call.resultRead && result.Ended? then Some(result.passed) else None);
      tellings := tellings + [Telling(pid, verdict.passed, call.resultRead)];
      if call.told {
        record := Some(TOLD);
        ToldNamesNone();
      } else {
        lapsed := true;
      }
    }

    /** One call of the part: it joins the process that is outstanding, or starts one, and waits for it. */
    method CheckPart(call: Call) returns (verdict: Verdict)
      requires Valid() && Startable(call, starts)
      modifies this
      ensures Valid()
      ensures verdict == NotStarted <==>
                (old(PartRunOf(record)) == 0 || !call.seen) && !StartsOne(old(PartRunOf(record)), call)
      ensures verdict == Unrecorded <==> StartsOne(old(PartRunOf(record)), call) && !call.recorded
      ensures verdict !in {NotStarted, Unrecorded} &&
              (old(PartRunOf(record)) == 0 || !call.seen || old(PartRunOf(record)) in old(alive)) ==>
                (verdict == StillRunning <==> forall k :: 0 <= k < |call.looks| ==> call.looks[k] == GoesOn)
      ensures old(PartRunOf(record)) == 0 && verdict == StillRunning ==>
                call.pid.Some? && alive == old(alive) + {call.pid.value}
      // A process is started exactly when none is outstanding, or the record of it cannot be read, and a start can be
      // made: so a part whose process is outstanding is not started again by a call that reads its record.
      ensures starts == old(starts) + if StartsOne(old(PartRunOf(record)), call) then [call.pid.value] else []
      ensures verdict in {NotStarted, Unrecorded} ==>
                record == old(record) && alive == old(alive) + if verdict == NotStarted then {} else {call.pid.value}
      ensures old(PartRunOf(record)) != 0 && call.seen && verdict == StillRunning ==> alive == old(alive)
      ensures verdict == StillRunning ==> PartRunOf(record) != 0
      // What is told is of the process started last, for the first time, and is what that one kept.
      ensures verdict.Told? && !lapsed ==>
                && tellings == old(tellings) + [Telling(Last(), verdict.passed, call.resultRead)]
                && |tellings| == |starts| && Last() in ends && verdict.passed == (if call.resultRead then ends[Last()] else None)
                && alive == {} && PartRunOf(record) == 0
      ensures !verdict.Told? ==> tellings == old(tellings)
      // Where the record that is there cannot be read, another process is started beside the one it names.
      ensures old(PartRunOf(record)) != 0 && !call.seen && verdict == StillRunning ==>
                call.pid.Some? && alive == old(alive) + {call.pid.value}
      ensures (old(lapsed) ==> lapsed) && (lapsed && !old(lapsed) ==> !Kept(call))
    {
      hide PartRunOf;
      var pid := if call.seen then PartRunOf(record) else 0;
      if pid == 0 {
        if !call.calm {
          return NotStarted;
        }
        lapsed := lapsed || PartRunOf(record) != 0;
        pid, verdict := StartPart(call);
        if pid == 0 {
          return;
        }
      }
      verdict := WaitForPart(pid, call);
    }
  }

  /** A process the host starts is a new one, and when it began is written without spaces. */
  predicate Startable(call: Call, starts: seq<nat>) {
    && (call.pid.Some? ==> call.pid.value > 0 && call.pid.value !in starts)
    && call.started != "" && forall c :: c in call.started ==> !IsSpace(c)
  }

  /** A call starts a process of its own, with the one that the record names, 0 when it names none. */
  predicate StartsOne(outstanding: nat, call: Call) {
    (outstanding == 0 || !call.seen) && call.calm && call.marked && call.emptied && call.pid.Some?
  }

  /** Every read and write of the record of the part's process goes through. */
  predicate Kept(call: Call) {
    call.seen && call.recorded && call.told
  }

  datatype Happening = Calls(call: Call) | ProcessIsOver(pid: nat, kept: Option<bool>)

  /** Any calls of a part, with its processes ending between them as they may. While the records are kept, the
      processes are told of in the order they were started, each once and as it ended, and only the last one may
      be alive. */
  method Live(happenings: seq<Happening>) returns (part: Part)
    ensures fresh(part)
    ensures part.lapsed ==> exists h :: h in happenings && h.Calls? && !Kept(h.call)
    ensures !part.lapsed ==> part.ToldInOrder()
  {
    part := new Part();
    for i := 0 to |happenings|
      invariant fresh(part) && part.Valid()
      invariant part.lapsed ==> exists h :: h in happenings[..i] && h.Calls? && !Kept(h.call)
    {
      hide PartRunOf;
      assert happenings[..i + 1] == happenings[..i] + [happenings[i]];
      match happenings[i] {
        case Calls(call) =>
          if Startable(call, part.starts) {
            var _ := part.CheckPart(call);
          }
        case ProcessIsOver(pid, kept) =>
          if pid in part.alive {
            part.ProcessEnd(pid, kept);
          }
      }
    }
  }

  /** "Not starting the part twice" needs the record written: a process that could not be recorded goes on, and the
      next call, whose every read and write goes through, starts the part beside it. */
  method UnwrittenRecordStartsTwice(pid: nat, other: nat, started: string) returns (part: Part)
    requires pid > 0 && other > 0 && pid != other
    requires started != "" && forall c :: c in started ==> !IsSpace(c)
    ensures part.alive == {pid, other}
  {
    part := new Part();
    var _ := part.CheckPart(Call(true, true, true, true, Some(pid), started, false, [], true, true));
    var _ := part.CheckPart(Call(true, true, true, true, Some(other), started, true, [], true, true));
  }

  /** And it needs it read: a call that cannot read it starts the part beside the process that is outstanding. */
  method UnreadRecordStartsTwice(pid: nat, other: nat, started: string) returns (part: Part)
    requires pid > 0 && other > 0 && pid != other
    requires started != "" && forall c :: c in started ==> !IsSpace(c)
    ensures part.alive == {pid, other}
  {
    part := new Part();
    var _ := part.CheckPart(Call(true, true, true, true, Some(pid), started, true, [], true, true));
    var _ := part.CheckPart(Call(false, true, true, true, Some(other), started, true, [], true, true));
  }
}
