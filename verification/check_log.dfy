/** The report mw check prints, and the commit mw next reads back from it. */
module CheckLog {
  import opened Text

  datatype Refusal = Refusal(why: string, said: string)

  datatype CheckReport = CheckReport(storyID: string, host: string, branch: string, target: string, commits: nat,
                                     refusals: seq<Refusal>, notes: seq<string>, waiting: string, tip: string)

  predicate Passed(r: CheckReport) {
    r.refusals == [] && r.waiting == ""
  }

  // ----- The report as it is printed -----

  function SaidLines(pieces: seq<string>): seq<string> {
    if pieces == [] then [] else SaidLines(pieces[..|pieces| - 1]) + ["            " + pieces[|pieces| - 1]]
  }

  function RefusalLines(refusals: seq<Refusal>): seq<string> {
    if refusals == [] then []
    else
      var last := refusals[|refusals| - 1];
      RefusalLines(refusals[..|refusals| - 1]) + ["  REFUSED " + last.why] +
      if last.said == "" then [] else SaidLines(Split(last.said, '\n'))
  }

  function NoteLines(notes: seq<string>): seq<string> {
    if notes == [] then [] else NoteLines(notes[..|notes| - 1]) + ["  note    " + notes[|notes| - 1]]
  }

  /** The pieces one after another. */
  function Cat(pieces: seq<string>): string {
    if pieces == [] then "" else pieces[0] + Cat(pieces[1..])
  }

  function PassedWords(r: CheckReport): seq<string> {
    ["  ", Itoa(r.commits), " commit(s) on ", r.branch, ", none signed, ", "every formula step closed, ",
     "the rig's tests pass: ", "mw next would land it"]
  }

  function EndingWords(r: CheckReport): seq<string> {
    ["          (mw next also needs ", "the session to finish, and ", r.branch, " to merge into ", r.target,
     " without conflicts)"]
  }

  function FailedWords(r: CheckReport): seq<string> {
    ["  failed  ", Itoa(|r.refusals|), " check(s): ", "mw next would not land ", r.branch, " as it stands"]
  }

  function PassedLine(r: CheckReport): string {
    "  " + "passed" + Cat(PassedWords(r))
  }

  function EndingLine(r: CheckReport): string {
    Cat(EndingWords(r))
  }

  function FailedLine(r: CheckReport): string {
    Cat(FailedWords(r))
  }

  function VerdictLines(r: CheckReport): seq<string> {
    if r.waiting != "" && r.refusals == [] then []
    else if Passed(r) then (if r.tip != "" then ["  " + "tip" + ("     " + r.tip)] else []) + [PassedLine(r), EndingLine(r)]
    else [FailedLine(r)]
  }

  function ReportLines(r: CheckReport): seq<string> {
    ["" + "check" + (" on " + r.host + ": " + r.storyID)] + RefusalLines(r.refusals) + NoteLines(r.notes) +
    (if r.waiting != "" then ["  " + "wait" + ("    " + r.waiting)] else []) + VerdictLines(r)
  }

  // ----- Reading it back -----

  /** The commit that the last three lines of a log say a check passed at. */
  function TipOf(tip: string, verdict: string): string {
    var t, v := Fields(tip), Fields(verdict);
    if |t| == 2 && t[0] == "tip" && v != [] && v[0] == "passed" then t[1] else ""
  }

  function CheckedTip(log: string): string {
    var lines := Split(TrimRight(log, '\n'), '\n');
    if |lines| < 3 then "" else TipOf(lines[|lines| - 3], lines[|lines| - 2])
  }

  /** What a refusal's last words are read as, when they are the last thing before the verdict. */
  function SaidTip(said: string): string {
    var lines := Split(said, '\n');
    if |lines| < 2 then "" else TipOf(lines[|lines| - 2], lines[|lines| - 1])
  }

  predicate OneLine(s: string) {
    '\n' !in s
  }

  /** What is printed of a report is one line each, but for what a refusal said; its tip is a commit's hash. */
  predicate WellSaid(r: CheckReport) {
    && OneLine(r.storyID) && OneLine(r.host) && OneLine(r.branch) && OneLine(r.target) && OneLine(r.waiting)
    && (forall c :: c in r.tip ==> !IsSpace(c))
    && (forall n :: n in r.notes ==> OneLine(n))
    && (forall f :: f in r.refusals ==> OneLine(f.why))
  }

  predicate AllOneLine(lines: seq<string>) {
    forall i :: 0 <= i < |lines| ==> OneLine(lines[i])
  }

  lemma SpacesAreSpace()
    ensures forall c :: c in "            " ==> IsSpace(c)
    ensures forall c :: c in "  " ==> IsSpace(c)
    ensures forall c :: c in "     " ==> IsSpace(c)
  {
  }

  /** A line of the report begins with its own word. */
  lemma LineBegins(spaces: string, word: string, rest: string)
    requires spaces in {"", "  "} && word in {"check", "REFUSED", "note", "wait", "failed", "passed", "tip"}
    requires rest == "" || rest[0] == ' '
    ensures Fields(spaces + word + rest) == [word] + Fields(rest)
  {
    SpacesAreSpace();
    forall c | c in word ensures !IsSpace(c) {
      assert 'A' <= c <= 'z';
    }
    FieldsBegin(spaces, word, rest);
  }

  lemma {:induction false} SaidAreOneLine(pieces: seq<string>)
    requires forall p :: p in pieces ==> OneLine(p)
    ensures AllOneLine(SaidLines(pieces)) && |SaidLines(pieces)| == |pieces|
    ensures forall i :: 0 <= i < |pieces| ==> SaidLines(pieces)[i] == "            " + pieces[i]
  {
    if pieces != [] {
      var n := |pieces| - 1;
      assert pieces[n] in pieces;
      SaidAreOneLine(pieces[..n]);
    }
  }

  lemma {:induction false} RefusalsAreOneLine(refusals: seq<Refusal>)
    requires forall f :: f in refusals ==> OneLine(f.why)
    ensures AllOneLine(RefusalLines(refusals))
  {
    if refusals != [] {
      var n := |refusals| - 1;
      RefusalsAreOneLine(refusals[..n]);
      assert refusals[n] in refusals;
      if refusals[n].said != "" {
        SaidAreOneLine(Split(refusals[n].said, '\n'));
      }
    }
  }

  lemma {:induction false} NotesAreOneLine(notes: seq<string>)
    requires forall n :: n in notes ==> OneLine(n)
    ensures AllOneLine(NoteLines(notes))
  {
    if notes != [] {
      NotesAreOneLine(notes[..|notes| - 1]);
      assert notes[|notes| - 1] in notes;
    }
  }

  lemma OneLineAdd(a: string, b: string)
    ensures OneLine(a + b) <==> OneLine(a) && OneLine(b)
  {
    if OneLine(a + b) {
      forall c | c in a || c in b ensures c in a + b {
      }
    }
  }

  predicate Plain(pieces: seq<string>) {
    forall i :: 0 <= i < |pieces| ==> OneLine(pieces[i])
  }

  lemma {:induction false} CatIsOneLine(pieces: seq<string>)
    requires Plain(pieces)
    ensures OneLine(Cat(pieces))
  {
    if pieces != [] {
      CatIsOneLine(pieces[1..]);
      OneLineAdd(pieces[0], Cat(pieces[1..]));
    }
  }

  lemma CatBegins(first: string, rest: seq<string>)
    ensures Cat([first] + rest) == first + Cat(rest)
  {
  }

  lemma NumberIsOneLine(n: nat)
    ensures OneLine(Itoa(n))
  {
    DigitsArePlain(Itoa(n));
  }

  lemma PassedIsOneLine(r: CheckReport)
    requires WellSaid(r)
    ensures OneLine(PassedLine(r)) && PassedLine(r) != ""
  {
    hide Cat, Itoa;
    NumberIsOneLine(r.commits);
    CatIsOneLine(PassedWords(r));
    OneLineAdd("  " + "passed", Cat(PassedWords(r)));
  }

  lemma EndingIsOneLine(r: CheckReport)
    requires WellSaid(r)
    ensures OneLine(EndingLine(r)) && EndingLine(r) != ""
  {
    hide Cat;
    CatIsOneLine(EndingWords(r));
    CatBegins(EndingWords(r)[0], EndingWords(r)[1..]);
    assert [EndingWords(r)[0]] + EndingWords(r)[1..] == EndingWords(r);
  }

  lemma FailedIsOneLine(r: CheckReport)
    requires WellSaid(r)
    ensures OneLine(FailedLine(r)) && FailedLine(r) != ""
  {
    hide Cat, Itoa;
    NumberIsOneLine(|r.refusals|);
    CatIsOneLine(FailedWords(r));
    CatBegins(FailedWords(r)[0], FailedWords(r)[1..]);
    assert [FailedWords(r)[0]] + FailedWords(r)[1..] == FailedWords(r);
  }

  lemma ReportIsOneLine(r: CheckReport)
    requires WellSaid(r)
    ensures AllOneLine(ReportLines(r)) && ReportLines(r) != [] && ReportLines(r)[|ReportLines(r)| - 1] != ""
  {
    hide RefusalLines, NoteLines, IsSpace, PassedLine, EndingLine, FailedLine;
    RefusalsAreOneLine(r.refusals);
    NotesAreOneLine(r.notes);
    TipIsOneLine(r);
    PassedIsOneLine(r);
    EndingIsOneLine(r);
    FailedIsOneLine(r);
  }

  lemma TipIsOneLine(r: CheckReport)
    requires WellSaid(r)
    ensures OneLine(r.tip) && forall c :: c in r.tip ==> !IsSpace(c)
  {
  }

  /** What is read of a log is what its last three lines say. */
  lemma LogReadBack(lines: seq<string>)
    requires lines != [] && AllOneLine(lines) && lines[|lines| - 1] != ""
    ensures CheckedTip(Lines(lines)) == if |lines| < 3 then "" else TipOf(lines[|lines| - 3], lines[|lines| - 2])
  {
    hide *;
    CheckedTipMeans(Lines(lines));
    forall l | l in lines ensures '\n' !in l {
      OneOfLines(lines, l);
    }
    LinesReadBack(lines);
  }

  lemma OneOfLines(lines: seq<string>, l: string)
    requires AllOneLine(lines) && l in lines
    ensures '\n' !in l
  {
    var i :| 0 <= i < |lines| && lines[i] == l;
    assert OneLine(lines[i]);
  }

  lemma CheckedTipMeans(log: string)
    ensures var lines := Split(TrimRight(log, '\n'), '\n');
            CheckedTip(log) == if |lines| < 3 then "" else TipOf(lines[|lines| - 3], lines[|lines| - 2])
  {
  }

  /** The commit the log of a report is read to have passed at. */
  function ReadTip(r: CheckReport): string {
    if Passed(r) then r.tip
    else if r.refusals != [] && r.notes == [] && r.waiting == "" then SaidTip(r.refusals[|r.refusals| - 1].said)
    else ""
  }

  /** A line that begins with some other word is neither a tip nor a verdict that passed. */
  lemma OtherWord(spaces: string, word: string, rest: string, other: string)
    requires spaces in {"", "  "} && word in {"check", "REFUSED", "note", "wait", "failed"}
    requires rest == "" || rest[0] == ' '
    ensures TipOf(spaces + word + rest, other) == "" && TipOf(other, spaces + word + rest) == ""
  {
    LineBegins(spaces, word, rest);
  }

  lemma TipLine(tip: string, r: CheckReport)
    requires tip != "" && forall c :: c in tip ==> !IsSpace(c)
    ensures TipOf("  " + "tip" + ("     " + tip), PassedLine(r)) == tip
  {
    hide IsSpace, PassedWords, Itoa;
    LineBegins("  ", "tip", "     " + tip);
    SpacesAreSpace();
    FieldsBegin("     ", tip, "");
    assert "     " + tip + "" == "     " + tip;
    PassedBegins(r);
    LineBegins("  ", "passed", Cat(PassedWords(r)));
  }

  lemma PassedBegins(r: CheckReport)
    ensures Cat(PassedWords(r)) != "" && Cat(PassedWords(r))[0] == ' '
  {
    hide Itoa;
    CatBegins(PassedWords(r)[0], PassedWords(r)[1..]);
    assert [PassedWords(r)[0]] + PassedWords(r)[1..] == PassedWords(r);
  }

  /** The line before a wait or a verdict, when there are no refusals: the header or a note. */
  lemma QuietLine(before: seq<string>, r: CheckReport, other: string)
    requires r.refusals == []
    ensures var lines := before + HeadLines(r); var last := lines[|lines| - 1];
            TipOf(last, other) == "" && TipOf(other, last) == ""
  {
    if r.notes == [] {
      assert HeadLines(r) == ["" + "check" + (" on " + r.host + ": " + r.storyID)];
      OtherWord("", "check", " on " + r.host + ": " + r.storyID, other);
    } else {
      var note := r.notes[|r.notes| - 1];
      assert "  note    " + note == "  " + "note" + ("    " + note);
      OtherWord("  ", "note", "    " + note, other);
    }
  }

  /** The header, the refusals and the notes. */
  function HeadLines(r: CheckReport): seq<string> {
    ["" + "check" + (" on " + r.host + ": " + r.storyID)] + RefusalLines(r.refusals) + NoteLines(r.notes)
  }

  /** What the two lines before the verdict of a refused check are read as. */
  lemma RefusedLines(before: seq<string>, r: CheckReport)
    requires r.refusals != [] && r.notes == [] && r.waiting == ""
    ensures var lines := before + HeadLines(r);
            |lines| >= 2 && TipOf(lines[|lines| - 2], lines[|lines| - 1]) == SaidTip(r.refusals[|r.refusals| - 1].said)
  {
    hide RefusalLines, Split, SaidLines, Fields, IsSpace;
    var lines := before + HeadLines(r);
    var n := |r.refusals| - 1;
    var last := r.refusals[n];
    LastRefusal(r.refusals);
    var refused := "  " + "REFUSED" + (" " + last.why);
    assert "  REFUSED " + last.why == refused;
    if last.said == "" {
      assert Split("", '\n') == [""] by {
        SplitOfOne("", '\n');
      }
      OtherWord("  ", "REFUSED", " " + last.why, lines[|lines| - 2]);
    } else {
      var pieces := Split(last.said, '\n');
      SaidAreOneLine(pieces);
      if |pieces| == 1 {
        assert lines[|lines| - 2] == refused;
        OtherWord("  ", "REFUSED", " " + last.why, lines[|lines| - 1]);
      } else {
        SpacesAreSpace();
        FieldsSkip("            ", pieces[|pieces| - 2]);
        FieldsSkip("            ", pieces[|pieces| - 1]);
      }
    }
  }

  lemma LastRefusal(refusals: seq<Refusal>)
    requires refusals != []
    ensures var last := refusals[|refusals| - 1];
            RefusalLines(refusals) == RefusalLines(refusals[..|refusals| - 1]) + ["  REFUSED " + last.why] +
              if last.said == "" then [] else SaidLines(Split(last.said, '\n'))
  {
  }

  /** What mw next reads of a check's log, whatever was printed before its report: the tip of one that passed, and
      of a refused one nothing, unless the last refusal's own last words are a tip and a passed verdict. */
  lemma CheckedTipReadsTheReport(before: seq<string>, r: CheckReport)
    requires WellSaid(r) && AllOneLine(before)
    ensures CheckedTip(Lines(before + ReportLines(r))) == ReadTip(r)
  {
    hide *;
    var lines := before + ReportLines(r);
    ReportIsOneLine(r);
    BothOneLine(before, ReportLines(r));
    assert lines[|lines| - 1] == ReportLines(r)[|ReportLines(r)| - 1];
    LogReadBack(lines);
    ReportMeans(r);
    ReadTipMeans(r);
    var head := before + HeadLines(r);
    if r.waiting != "" && r.refusals == [] {
      QuietLine(before, r, if |head| >= 2 then head[|head| - 2] else "");
    } else if r.waiting == "" && r.refusals == [] {
      if r.tip != "" {
        TipIsOneLine(r);
        TipLine(r.tip, r);
      } else {
        QuietLine(before, r, PassedLine(r));
      }
    } else if r.waiting != "" {
      OtherWord("  ", "wait", "    " + r.waiting, lines[|lines| - 3]);
    } else if r.notes != [] {
      LastNote(r);
      OtherWord("  ", "note", "    " + r.notes[|r.notes| - 1], lines[|lines| - 3]);
    } else {
      RefusedLines(before, r);
    }
  }

  lemma BothOneLine(a: seq<string>, b: seq<string>)
    requires AllOneLine(a) && AllOneLine(b)
    ensures AllOneLine(a + b)
  {
  }

  lemma LastNote(r: CheckReport)
    requires r.notes != []
    ensures |HeadLines(r)| >= 2
    ensures HeadLines(r)[|HeadLines(r)| - 1] == "  " + "note" + ("    " + r.notes[|r.notes| - 1])
  {
    assert "  note    " + r.notes[|r.notes| - 1] == "  " + "note" + ("    " + r.notes[|r.notes| - 1]);
  }

  lemma ReportMeans(r: CheckReport)
    ensures HeadLines(r) != []
    ensures ReportLines(r) == HeadLines(r) + (if r.waiting != "" then ["  " + "wait" + ("    " + r.waiting)] else []) +
            if r.waiting != "" && r.refusals == [] then []
            else if r.refusals == [] && r.waiting == "" then
              (if r.tip != "" then ["  " + "tip" + ("     " + r.tip)] else []) + [PassedLine(r), EndingLine(r)]
            else [FailedLine(r)]
  {
  }

  lemma ReadTipMeans(r: CheckReport)
    ensures ReadTip(r) ==
            if r.refusals == [] && r.waiting == "" then r.tip
            else if r.refusals != [] && r.notes == [] && r.waiting == "" then SaidTip(r.refusals[|r.refusals| - 1].said)
            else ""
  {
  }

  /** A refused check whose last refusal says a tip line and then a passed one, and nothing after them, is read to have
      passed at that tip. */
  lemma RefusedReadAsPassed(r: CheckReport, tip: string)
    requires WellSaid(r) && r.notes == [] && r.waiting == "" && r.refusals != []
    requires tip != "" && forall c :: c in tip ==> !IsSpace(c)
    requires r.refusals[|r.refusals| - 1].said == "tip " + tip + "\n" + "passed"
    ensures !Passed(r) && CheckedTip(Lines(ReportLines(r))) == tip
  {
    hide IsSpace, Fields, RefusalLines, FailedLine, Split;
    CheckedTipReadsTheReport([], r);
    assert [] + ReportLines(r) == ReportLines(r);
    TipIsOneLine(r.(tip := tip));
    OneLineAdd("tip ", tip);
    SplitAtFirst("tip " + tip, '\n', "passed");
    SplitOfOne("passed", '\n');
    LineBegins("", "tip", " " + tip);
    assert "" + "tip" + (" " + tip) == "tip " + tip && "" + "passed" + "" == "passed";
    LineBegins("", "passed", "");
    assert IsSpace(' ') by {
      SpacesAreSpace();
      assert ' ' in "  ";
    }
    FieldsBegin(" ", tip, "");
    assert " " + tip + "" == " " + tip;
    assert Fields("") == [] by {
      NoFields();
    }
  }

  lemma NoFields()
    ensures Fields("") == []
  {
  }
}
