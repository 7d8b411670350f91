/** What a whole check keeps of tests that passed, and when a later call of it does not run them again. */
module KeptTests {
  import opened BatchQueue
  import opened Text

  datatype Checked = Checked(command: string, passed: bool, notRun: bool)

  /** One call of a whole check: the worktree and the branch as it began, the runs of the tests it would make, and
      how it ended. `headThen` is the branch's tip as the changed specs handed the call back. */
  datatype Call = Call(attempt: nat, clean: bool, head: Option<string>, readable: bool, runs: seq<Checked>,
                       handedBack: bool, headThen: Option<string>, written: bool)

  const UNRUN := Checked("", false, false)

  /** The commit the call's checks are made at, "" when the worktree holds anything else. */
  function CleanTip(call: Call): string {
    if call.clean && call.head.Some? then call.head.value else ""
  }

  predicate IsHash(s: string) {
    s != "" && forall c :: c in s ==> !IsSpace(c)
  }

  predicate Hashed(call: Call) {
    (call.head.Some? ==> IsHash(call.head.value)) && (call.headThen.Some? ==> IsHash(call.headThen.value))
  }

  // ----- The record -----

  function OnOneLine(s: string): (r: string)
    ensures |r| == |s| && '\n' !in r
  {
    if s == "" then "" else [if s[0] == '\n' then ' ' else s[0]] + OnOneLine(s[1..])
  }

  function RecordText(tip: string, command: string): string {
    "tip " + tip + "\n" + OnOneLine(TrimSpace(command)) + "\n"
  }

  /** The command of the tests the record says passed at tip, "" when it says none did. */
  function KeptIn(text: string, tip: string): string {
    var lines := Split(text, '\n');
    if |lines| < 2 then ""
    else
      var (word, at, _) := Cut(TrimSpace(lines[0]), ' ');
      if word != "tip" || at != tip then ""
      else if TrimSpace(lines[1]) != "" then TrimSpace(lines[1]) else "the rig's tests"
  }

  /** A record vouches for the one commit it was written for, and for no other. */
  lemma RecordVouches(tip: string, command: string, asked: string)
    requires IsHash(tip) && IsHash(asked)
    ensures KeptIn(RecordText(tip, command), asked) != "" <==> asked == tip
  {
    hide TrimEnd, TrimLeft;
    var cmd := OnOneLine(TrimSpace(command));
    var line := "tip " + tip;
    assert '\n' !in line by {
      assert IsSpace('\n');
    }
    SplitAtFirst(line, '\n', cmd + "\n");
    SplitAtFirst(cmd, '\n', "");
    assert RecordText(tip, command) == line + "\n" + (cmd + "\n") && cmd + "\n" == cmd + "\n" + "";
    assert line[0] == 't' && line[|line| - 1] == tip[|tip| - 1] && tip[|tip| - 1] in tip;
    TrimmedStays(line);
    assert line == "tip" + [' '] + tip;
    CutAtFirst("tip", ' ', tip);
  }

  // ----- The calls -----

  /** The last run of the rig's tests in one call. */
  class LastChecks {
    var ran: Checked

    constructor ()
      ensures ran == UNRUN
    {
      ran := UNRUN;
    }

    method Run(checked: Checked)
      modifies this
      ensures ran == checked
    {
      ran := checked;
    }
  }

  /** Every run of the tests that one call makes, the last of which is remembered. */
  method RunTests(runs: seq<Checked>) returns (ran: Checked)
    ensures ran == LastOf(runs)
  {
    var tests := new LastChecks();
    for i := 0 to |runs|
      invariant fresh(tests) && tests.ran == LastOf(runs[..i])
    {
      assert runs[..i + 1][..i] == runs[..i];
      tests.Run(runs[i]);
    }
    assert runs[..|runs|] == runs;
    return tests.ran;
  }

  function LastOf(runs: seq<Checked>): Checked {
    if runs == [] then UNRUN else runs[|runs| - 1]
  }

  /** The call saw its last run of the tests pass, at a commit that was all its worktree held as it began, and that
      the branch was still at when the specs handed it back. */
  predicate Vouched(call: Call) {
    && CleanTip(call) != "" && call.handedBack && call.headThen == Some(CleanTip(call))
    && LastOf(call.runs).passed && !LastOf(call.runs).notRun
  }

  /** The call wrote that record of the attempt. */
  predicate Wrote(call: Call, attempt: nat, text: string) {
    && call.attempt == attempt && Vouched(call) && Hashed(call) && call.written
    && text == RecordText(CleanTip(call), LastOf(call.runs).command)
  }

  lemma HashedMeans(call: Call)
    ensures Hashed(call) && CleanTip(call) != "" ==> IsHash(CleanTip(call))
  {
  }

  lemma VouchedNeeds(call: Call)
    ensures Vouched(call) ==> call.handedBack && LastOf(call.runs) != UNRUN
  {
  }

  class CheckRuns {
    /** The record of each attempt. */
    var records: map<nat, string>
    /** The calls there have been, and for each attempt which of them wrote its record. */
    ghost var calls: seq<Call>
    ghost var keptBy: map<nat, nat>

    ghost predicate Valid()
      reads this
    {
      && records.Keys == keptBy.Keys
      && forall a :: a in records ==> keptBy[a] < |calls| && Wrote(calls[keptBy[a]], a, records[a])
    }

    constructor ()
      ensures Valid() && calls == [] && keptBy == map[]
    {
      records, calls, keptBy := map[], [], map[];
    }

    method KeptTests(attempt: nat, tip: string, readable: bool) returns (command: string)
      requires Valid() && (tip != "" ==> IsHash(tip))
      ensures command != "" <==>
              tip != "" && readable && attempt in keptBy && CleanTip(calls[keptBy[attempt]]) == tip
    {
      if tip == "" || !readable || attempt !in records {
        return "";
      }
      ghost var writer := calls[keptBy[attempt]];
      RecordVouches(CleanTip(writer), LastOf(writer.runs).command, tip);
      return KeptIn(records[attempt], tip);
    }

    /** One call. The tests are skipped exactly when the last call of the attempt to keep any kept them at the very
        commit this one begins at, clean; and that call had vouched for it. */
    method WholeCheck(call: Call) returns (skipped: bool)
      requires Valid() && Hashed(call)
      modifies this
      ensures Valid() && calls == old(calls) + [call]
      ensures skipped <==>
              && CleanTip(call) != "" && call.readable && call.attempt in old(keptBy)
              && CleanTip(old(calls)[old(keptBy)[call.attempt]]) == CleanTip(call)
      ensures skipped ==> exists j ::
                && 0 <= j < |old(calls)| && old(calls)[j].attempt == call.attempt
                && Vouched(old(calls)[j]) && CleanTip(old(calls)[j]) == CleanTip(call)
      ensures keptBy == if !skipped && Vouched(call) && call.written then old(keptBy)[call.attempt := |old(calls)|] else old(keptBy)
    {
      hide *;
      VouchedNeeds(call);
      HashedMeans(call);
      WritersVouch();
      var tip := CleanTip(call);
      var kept := KeptTests(call.attempt, tip, call.readable);
      skipped := kept != "";
      if skipped {
        ghost var j := keptBy[call.attempt];
        assert calls[j].attempt == call.attempt && Vouched(calls[j]) && CleanTip(calls[j]) == CleanTip(call);
      }
      var ran := UNRUN;
      if !skipped {
        ran := RunTests(call.runs);
      }
      Count(call);
      if call.handedBack {
        KeepTests(call, tip, ran, |calls| - 1);
      }
    }

    ghost method Count(call: Call)
      requires Valid()
      modifies `calls
      ensures Valid() && calls == old(calls) + [call]
    {
      hide Wrote;
      calls := calls + [call];
    }

    lemma WritersVouch()
      requires Valid()
      ensures forall a :: a in keptBy ==>
                keptBy[a] < |calls| && calls[keptBy[a]].attempt == a && Vouched(calls[keptBy[a]])
    {
      hide Vouched, RecordText, Hashed;
      forall a | a in keptBy ensures keptBy[a] < |calls| && calls[keptBy[a]].attempt == a && Vouched(calls[keptBy[a]]) {
        assert a in records;
      }
    }

    /** Keeps that the tests passed at tip, unless they did not, the tip is not known, or the branch has moved. */
    method KeepTests(call: Call, tip: string, ran: Checked, ghost at: nat)
      requires Valid() && Hashed(call) && tip == CleanTip(call) && at < |calls| && calls[at] == call && call.handedBack
      requires ran == LastOf(call.runs) || ran == UNRUN
      modifies `records, `keptBy
      ensures Valid()
      ensures keptBy == if ran == LastOf(call.runs) && Vouched(call) && call.written then old(keptBy)[call.attempt := at] else old(keptBy)
    {
      hide RecordText;
      if tip == "" || !ran.passed || ran.notRun || call.headThen != Some(tip) || !call.written {
        return;
      }
      records := records[call.attempt := RecordText(tip, ran.command)];
      keptBy := keptBy[call.attempt := at];
    }
  }
}
