/** Whether a story's acceptance is what its claim read: lines compared by their hashes. */
module Acceptance {
  import opened Text

  type Hash = string -> string

  /** Eight hex digits, as the short hash of a line is written. */
  predicate EightHex(h: string) {
    |h| == 8 && forall i :: 0 <= i < 8 ==> '0' <= h[i] <= '9' || 'a' <= h[i] <= 'f'
  }

  ghost predicate Short(hash: Hash) {
    forall line :: EightHex(hash(line))
  }

  /** No two lines of either text share a hash: all a comparison of two texts can need of it. */
  ghost predicate TellsApart(hash: Hash, a: seq<string>, b: seq<string>) {
    forall x, y :: (x in a || x in b) && (y in a || y in b) && hash(x) == hash(y) ==> x == y
  }

  function JoinWords(words: seq<string>): string {
    Join(words, ' ')
  }

  /** The line with its white space collapsed. */
  function Collapsed(line: string): string {
    JoinWords(Fields(line))
  }

  function LinesOf(pieces: seq<string>): (lines: seq<string>)
    ensures "" !in lines
  {
    if pieces == [] then []
    else
      var line := Collapsed(pieces[|pieces| - 1]);
      LinesOf(pieces[..|pieces| - 1]) + if line != "" then [line] else []
  }

  /** The lines of an acceptance that say something. */
  function AcceptanceLines(text: string): seq<string> {
    LinesOf(Split(text, '\n'))
  }

  function HashesOf(hash: Hash, lines: seq<string>): (hashes: seq<string>)
    ensures |hashes| == |lines| && forall i :: 0 <= i < |lines| ==> hashes[i] == hash(lines[i])
  {
    seq(|lines|, i requires 0 <= i < |lines| => hash(lines[i]))
  }

  function AcceptanceAtClaim(hash: Hash, acceptance: string): string {
    var hashes := HashesOf(hash, AcceptanceLines(acceptance));
    if hashes == [] then "-" else Join(hashes, ',')
  }

  datatype Change = Change(added: seq<string>, dropped: nat)

  /** The lines that are not among those had, in order. */
  function NewOf(lines: seq<string>, had: seq<string>): seq<string> {
    if lines == [] then []
    else NewOf(lines[..|lines| - 1], had) + if lines[|lines| - 1] !in had then [lines[|lines| - 1]] else []
  }

  // ----- The record -----

  lemma HashIsPlain(hash: Hash, line: string)
    requires Short(hash)
    ensures hash(line) != "" && hash(line) != "-" && ',' !in hash(line)
  {
    assert EightHex(hash(line));
  }

  lemma RecordReadBack(hash: Hash, acceptance: string)
    requires Short(hash)
    ensures AcceptanceLines(acceptance) != [] ==>
              Split(AcceptanceAtClaim(hash, acceptance), ',') == HashesOf(hash, AcceptanceLines(acceptance))
    ensures AcceptanceLines(acceptance) == [] ==> Split(AcceptanceAtClaim(hash, acceptance), ',') == ["-"]
    ensures AcceptanceAtClaim(hash, acceptance) != ""
  {
    hide Split, Join, AcceptanceLines, Short;
    var lines := AcceptanceLines(acceptance);
    var hashes := HashesOf(hash, lines);
    if hashes == [] {
      SplitOfOne("-", ',');
    } else {
      forall h | h in hashes ensures ',' !in h {
        var i :| 0 <= i < |hashes| && hashes[i] == h;
        HashIsPlain(hash, lines[i]);
      }
      SplitJoin(hashes, ',');
      SplitOfNothing();
      HashIsPlain(hash, lines[0]);
      assert hashes[0] == hash(lines[0]);
    }
  }

  lemma SplitOfNothing()
    ensures Split("", ',') == [""]
  {
  }

  lemma NoneIsDash(hash: Hash, lines: seq<string>)
    requires Short(hash)
    ensures HashesOf(hash, lines) != ["-"]
  {
    if lines != [] {
      HashIsPlain(hash, lines[0]);
      assert HashesOf(hash, lines)[0] == hash(lines[0]);
    }
  }

  /** Two texts have one record exactly when they have as many lines, each with the hash of the one in its place. */
  lemma SameRecord(hash: Hash, claimed: string, now: string)
    requires Short(hash)
    ensures AcceptanceAtClaim(hash, claimed) == AcceptanceAtClaim(hash, now) <==>
            HashesOf(hash, AcceptanceLines(claimed)) == HashesOf(hash, AcceptanceLines(now))
  {
    hide Split, Join, AcceptanceLines, Short, HashesOf;
    RecordReadBack(hash, claimed);
    RecordReadBack(hash, now);
    NoneIsDash(hash, AcceptanceLines(claimed));
    NoneIsDash(hash, AcceptanceLines(now));
  }

  lemma SameHashes(hash: Hash, a: seq<string>, b: seq<string>)
    ensures HashesOf(hash, a) == HashesOf(hash, b) <==>
            |a| == |b| && forall i :: 0 <= i < |a| ==> hash(a[i]) == hash(b[i])
    ensures TellsApart(hash, a, b) ==> (HashesOf(hash, a) == HashesOf(hash, b) <==> a == b)
  {
    if HashesOf(hash, a) == HashesOf(hash, b) {
      forall i | 0 <= i < |a| ensures hash(a[i]) == hash(b[i]) {
        assert HashesOf(hash, a)[i] == HashesOf(hash, b)[i];
      }
    }
  }

  /** A change is hidden exactly when every line that differs has the hash of the one in its place. */
  lemma HiddenChange(hash: Hash, claimed: string, now: string)
    requires Short(hash) && AcceptanceLines(claimed) != AcceptanceLines(now)
    ensures AcceptanceAtClaim(hash, claimed) == AcceptanceAtClaim(hash, now) <==>
            var a, b := AcceptanceLines(claimed), AcceptanceLines(now);
            |a| == |b| && forall i :: 0 <= i < |a| && a[i] != b[i] ==> hash(a[i]) == hash(b[i])
  {
    hide AcceptanceLines, AcceptanceAtClaim, HashesOf, Short;
    SameRecord(hash, claimed, now);
    SameHashes(hash, AcceptanceLines(claimed), AcceptanceLines(now));
  }

  // ----- The comparison -----

  method AcceptanceChangedSince(hash: Hash, recorded: string, acceptance: string) returns (change: Change, changed: bool)
    ensures changed <==> recorded != "" && recorded != AcceptanceAtClaim(hash, acceptance)
    ensures !changed ==> change == Change([], 0)
    ensures changed ==>
              && change.added == NewHashed(hash, AcceptanceLines(acceptance), Split(recorded, ','))
              && change.dropped == |GoneHashes(hash, Split(recorded, ','), AcceptanceLines(acceptance))|
  {
    if recorded == "" || recorded == AcceptanceAtClaim(hash, acceptance) {
      return Change([], 0), false;
    }
    change := Compare(hash, Split(recorded, ','), AcceptanceLines(acceptance));
    changed := true;
  }

  /** The lines whose hashes are not among those had, and how many of those are no line's any more. */
  method Compare(hash: Hash, had: seq<string>, lines: seq<string>) returns (change: Change)
    ensures change == Change(NewHashed(hash, lines, had), |GoneHashes(hash, had, lines)|)
  {
    hide NewHashed, HashesOf;
    NoneHashed(hash, had);
    var added: seq<string>, now: set<string> := [], {};
    for i := 0 to |lines|
      invariant added == NewHashed(hash, lines[..i], had)
      invariant now == set h | h in HashesOf(hash, lines[..i])
    {
      HashesAdd(hash, lines[..i], lines[i], had);
      assert lines[..i + 1] == lines[..i] + [lines[i]];
      now := now + {hash(lines[i])};
      if hash(lines[i]) !in had {
        added := added + [lines[i]];
      }
    }
    assert lines[..|lines|] == lines;
    var gone := set h | h in had && h != "-" && h !in now;
    assert gone == GoneHashes(hash, had, lines);
    return Change(added, |gone|);
  }

  lemma NoneHashed(hash: Hash, had: seq<string>)
    ensures HashesOf(hash, []) == [] && NewHashed(hash, [], had) == []
  {
  }

  lemma HashesAdd(hash: Hash, lines: seq<string>, line: string, had: seq<string>)
    ensures HashesOf(hash, lines + [line]) == HashesOf(hash, lines) + [hash(line)]
    ensures NewHashed(hash, lines + [line], had) == NewHashed(hash, lines, had) + if hash(line) !in had then [line] else []
  {
    assert (lines + [line])[..|lines|] == lines;
  }

  function NewHashed(hash: Hash, lines: seq<string>, had: seq<string>): seq<string> {
    if lines == [] then []
    else
      NewHashed(hash, lines[..|lines| - 1], had) +
      if hash(lines[|lines| - 1]) !in had then [lines[|lines| - 1]] else []
  }

  function GoneHashes(hash: Hash, had: seq<string>, lines: seq<string>): set<string> {
    set h | h in had && h != "-" && h !in HashesOf(hash, lines)
  }

  function Gone(old_: seq<string>, now: seq<string>): set<string> {
    set l | l in old_ && l !in now
  }

  /** A line is among the hashed ones exactly when one of them has its hash. */
  lemma InHashes(hash: Hash, lines: seq<string>, line: string)
    ensures hash(line) in HashesOf(hash, lines) <==> exists l :: l in lines && hash(l) == hash(line)
    ensures TellsApart(hash, lines, [line]) ==> (hash(line) in HashesOf(hash, lines) <==> line in lines)
  {
    if hash(line) in HashesOf(hash, lines) {
      var i :| 0 <= i < |lines| && HashesOf(hash, lines)[i] == hash(line);
      assert lines[i] in lines && line in [line];
    }
    if l :| l in lines && hash(l) == hash(line) {
      var i :| 0 <= i < |lines| && lines[i] == l;
      assert HashesOf(hash, lines)[i] == hash(line);
    }
  }

  /** What is said to be added is every line now whose hash no line had: a new line is left out only for a collision. */
  lemma {:induction false} AddedAreUnhashed(hash: Hash, lines: seq<string>, claimed: seq<string>, had: seq<string>, l: string)
    requires Short(hash) && (had == HashesOf(hash, claimed) || (claimed == [] && had == ["-"]))
    ensures l in NewHashed(hash, lines, had) <==> l in lines && forall o :: o in claimed ==> hash(o) != hash(l)
  {
    if lines != [] {
      var n := |lines| - 1;
      assert lines == lines[..n] + [lines[n]];
      AddedAreUnhashed(hash, lines[..n], claimed, had, l);
      InHashes(hash, claimed, lines[n]);
      HashIsPlain(hash, lines[n]);
    }
  }

  lemma {:induction false} NewHashedAreNew(hash: Hash, lines: seq<string>, claimed: seq<string>, had: seq<string>)
    requires Short(hash) && TellsApart(hash, claimed, lines)
    requires had == HashesOf(hash, claimed) || (claimed == [] && had == ["-"])
    ensures NewHashed(hash, lines, had) == NewOf(lines, claimed)
  {
    if lines != [] {
      var n := |lines| - 1;
      assert lines == lines[..n] + [lines[n]];
      NewHashedAreNew(hash, lines[..n], claimed, had);
      InHashes(hash, claimed, lines[n]);
      HashIsPlain(hash, lines[n]);
    }
  }

  lemma {:induction false} ImageSize(hash: Hash, lines: set<string>)
    requires forall x, y :: x in lines && y in lines && hash(x) == hash(y) ==> x == y
    ensures |set l | l in lines :: hash(l)| == |lines|
  {
    if lines == {} {
      assert (set l | l in lines :: hash(l)) == {};
    } else {
      var line :| line in lines;
      var rest := lines - {line};
      ImageSize(hash, rest);
      assert (set l | l in lines :: hash(l)) == (set l | l in rest :: hash(l)) + {hash(line)};
    }
  }

  lemma GoneAreTheLines(hash: Hash, claimed: seq<string>, now: seq<string>, had: seq<string>)
    requires Short(hash) && TellsApart(hash, claimed, now)
    requires had == HashesOf(hash, claimed) || (claimed == [] && had == ["-"])
    ensures |GoneHashes(hash, had, now)| == |Gone(claimed, now)|
  {
    hide HashesOf;
    var gone := Gone(claimed, now);
    forall h ensures h in GoneHashes(hash, had, now) <==> h in set l | l in gone :: hash(l) {
      GoneIsALine(hash, claimed, now, had, h);
    }
    assert GoneHashes(hash, had, now) == set l | l in gone :: hash(l);
    ImageSize(hash, gone);
  }

  lemma GoneIsALine(hash: Hash, claimed: seq<string>, now: seq<string>, had: seq<string>, h: string)
    requires Short(hash) && TellsApart(hash, claimed, now)
    requires had == HashesOf(hash, claimed) || (claimed == [] && had == ["-"])
    ensures h in GoneHashes(hash, had, now) <==> exists l :: l in Gone(claimed, now) && hash(l) == h
  {
    hide Short;
    if h in GoneHashes(hash, had, now) {
      assert had == HashesOf(hash, claimed);
      var i :| 0 <= i < |had| && had[i] == h;
      InHashes(hash, now, claimed[i]);
      assert claimed[i] in Gone(claimed, now) && hash(claimed[i]) == h;
    }
    if l :| l in Gone(claimed, now) && hash(l) == h {
      InHashes(hash, claimed, l);
      InHashes(hash, now, l);
      HashIsPlain(hash, l);
    }
  }

  /** Compared with what its claim recorded, a story's acceptance is changed exactly when the hashes of its lines are
      not the same in the same order. Where no two of the lines share a hash, that is exactly when the lines are not;
      what is added is then, in order, every line now that was not there, and what is dropped counts the lines, each
      once, that are there no more. */
  method ChangedSinceClaim(hash: Hash, claimed: string, now: string) returns (change: Change, changed: bool)
    requires Short(hash)
    ensures changed <==> HashesOf(hash, AcceptanceLines(claimed)) != HashesOf(hash, AcceptanceLines(now))
    ensures changed ==> forall l :: l in change.added <==>
              l in AcceptanceLines(now) && forall o :: o in AcceptanceLines(claimed) ==> hash(o) != hash(l)
    ensures !changed ==> change == Change([], 0)
    ensures change == Change([], 0) <==>
              SameOnes(HashesOf(hash, AcceptanceLines(claimed)), HashesOf(hash, AcceptanceLines(now)))
    ensures TellsApart(hash, AcceptanceLines(claimed), AcceptanceLines(now)) ==>
              && (changed <==> AcceptanceLines(claimed) != AcceptanceLines(now))
              && (changed ==> change == Change(NewOf(AcceptanceLines(now), AcceptanceLines(claimed)),
                                               |Gone(AcceptanceLines(claimed), AcceptanceLines(now))|))
  {
    hide *;
    change, changed := AcceptanceChangedSince(hash, AcceptanceAtClaim(hash, claimed), now);
    RecordReadBack(hash, claimed);
    SameRecord(hash, claimed, now);
    var was, lines, had := AcceptanceLines(claimed), AcceptanceLines(now), Split(AcceptanceAtClaim(hash, claimed), ',');
    NothingHashed(hash);
    forall l {
      AddedAreUnhashed(hash, lines, was, had, l);
    }
    SameHashes(hash, was, lines);
    NothingAddedNorDropped(hash, was, lines, had);
    SameAreSameOnes(HashesOf(hash, was), HashesOf(hash, lines));
    if TellsApart(hash, was, lines) {
      NewHashedAreNew(hash, lines, was, had);
      GoneAreTheLines(hash, was, lines, had);
    }
  }

  lemma SameAreSameOnes(a: seq<string>, b: seq<string>)
    ensures a == b ==> SameOnes(a, b)
  {
  }

  lemma NothingHashed(hash: Hash)
    ensures HashesOf(hash, []) == []
  {
  }

  /** A hash that gives two lines one hash hides the one put in place of the other. */
  lemma CollisionHidesAChange(hash: Hash, a: string, b: string)
    requires Short(hash) && a != b && hash(a) == hash(b)
    requires IsWord(a) && IsWord(b) && '\n' !in a && '\n' !in b
    ensures AcceptanceLines(a) != AcceptanceLines(b)
    ensures AcceptanceAtClaim(hash, a) == AcceptanceAtClaim(hash, b)
  {
    OneWordIsALine(a);
    OneWordIsALine(b);
    hide AcceptanceLines, AcceptanceAtClaim;
    HiddenChange(hash, a, b);
  }

  lemma OneWordIsALine(word: string)
    requires IsWord(word) && '\n' !in word
    ensures AcceptanceLines(word) == [word]
  {
    hide Split, Fields;
    SplitOfOne(word, '\n');
    WordIsCollapsed(word);
    assert [word][..0] == [] && LinesOf([]) == [];
  }

  lemma WordIsCollapsed(word: string)
    requires IsWord(word)
    ensures Collapsed(word) == word
  {
    hide Fields;
    FieldsBegin("", word, "");
    assert "" + word + "" == word && Fields("") == [] by {
      JoinMeans([]);
    }
    assert Fields(word) == [word];
  }

  /** Nothing is added and nothing dropped exactly when the lines' hashes are the same ones, in whatever order and
      however often. */
  lemma NothingAddedNorDropped(hash: Hash, claimed: seq<string>, lines: seq<string>, had: seq<string>)
    requires Short(hash) && (had == HashesOf(hash, claimed) || (claimed == [] && had == ["-"]))
    ensures NewHashed(hash, lines, had) == [] && GoneHashes(hash, had, lines) == {} <==>
            SameOnes(HashesOf(hash, claimed), HashesOf(hash, lines))
  {
    hide HashesOf, NewHashed, Short;
    var was, now := HashesOf(hash, claimed), HashesOf(hash, lines);
    forall h | h in was ensures h != "-" {
      var i :| 0 <= i < |was| && was[i] == h;
      HashIsPlain(hash, claimed[i]);
    }
    NothingHashed(hash);
    if NewHashed(hash, lines, had) == [] && GoneHashes(hash, had, lines) == {} {
      forall h ensures h in was <==> h in now {
        assert h in was && h !in now ==> h in GoneHashes(hash, had, lines);
        if h in now {
          var i :| 0 <= i < |now| && now[i] == h;
          AddedAreUnhashed(hash, lines, claimed, had, lines[i]);
          InHashes(hash, claimed, lines[i]);
        }
      }
    }
    if SameOnes(was, now) {
      if NewHashed(hash, lines, had) != [] {
        var l := NewHashed(hash, lines, had)[0];
        AddedAreUnhashed(hash, lines, claimed, had, l);
        InHashes(hash, lines, l);
        InHashes(hash, claimed, l);
        assert false;
      }
      assert forall h :: h in had && h != "-" ==> h in was;
    }
  }

  predicate SameOnes(a: seq<string>, b: seq<string>) {
    (forall h :: h in a ==> h in b) && (forall h :: h in b ==> h in a)
  }

  /** Lines that only change places: a change, where their hashes tell so, in which nothing is added and nothing
      dropped. */
  method MovedIsNeitherAddedNorDropped(hash: Hash, claimed: string, now: string) returns (change: Change, changed: bool)
    requires Short(hash) && multiset(AcceptanceLines(claimed)) == multiset(AcceptanceLines(now))
    ensures changed <==> HashesOf(hash, AcceptanceLines(claimed)) != HashesOf(hash, AcceptanceLines(now))
    ensures change == Change([], 0)
  {
    hide *;
    change, changed := ChangedSinceClaim(hash, claimed, now);
    MovedAreSameOnes(hash, AcceptanceLines(claimed), AcceptanceLines(now));
  }

  lemma MovedAreSameOnes(hash: Hash, claimed: seq<string>, now: seq<string>)
    requires multiset(claimed) == multiset(now)
    ensures SameOnes(HashesOf(hash, claimed), HashesOf(hash, now))
  {
    hide HashesOf;
    MovedIsThere(hash, claimed, now);
    MovedIsThere(hash, now, claimed);
  }

  lemma MovedIsThere(hash: Hash, claimed: seq<string>, now: seq<string>)
    requires multiset(claimed) == multiset(now)
    ensures forall h :: h in HashesOf(hash, claimed) ==> h in HashesOf(hash, now)
  {
    forall h | h in HashesOf(hash, claimed) ensures h in HashesOf(hash, now) {
      var i :| 0 <= i < |claimed| && HashesOf(hash, claimed)[i] == h;
      assert claimed[i] in multiset(claimed);
      InHashes(hash, now, claimed[i]);
    }
  }

  /** "a" over "b", and then "b" over "a". */
  method TwoLinesMoved(hash: Hash) returns (change: Change, changed: bool)
    requires Short(hash) && hash("a") != hash("b")
    ensures changed && change == Change([], 0)
  {
    hide *;
    OneUnderAnother("a", "b");
    OneUnderAnother("b", "a");
    assert "a" + "\n" + "b" == "a\nb" && "b" + "\n" + "a" == "b\na";
    assert multiset(["a", "b"]) == multiset(["b", "a"]);
    assert ["a", "b"][0] == "a" && ["b", "a"][0] == "b";
    change, changed := MovedIsNeitherAddedNorDropped(hash, "a\nb", "b\na");
    SameHashes(hash, ["a", "b"], ["b", "a"]);
  }

  lemma OneUnderAnother(a: string, b: string)
    requires {a, b} == {"a", "b"}
    ensures AcceptanceLines(a + "\n" + b) == [a, b]
  {
    hide Split, Fields;
    SplitAtFirst(a, '\n', b);
    SplitOfOne(b, '\n');
    WordIsCollapsed(a);
    WordIsCollapsed(b);
    assert [a, b][..1] == [a] && [a][..0] == [] && LinesOf([]) == [];
    assert LinesOf([a]) == [a];
  }

  // ----- White space -----

  predicate IsWord(w: string) {
    w != "" && forall c :: c in w ==> !IsSpace(c)
  }

  lemma {:induction false} WordsJoined(words: seq<string>)
    requires forall w :: w in words ==> IsWord(w)
    ensures Fields(Join(words, ' ')) == words
  {
    hide Fields, Join;
    JoinMeans(words);
    if |words| > 0 {
      forall w | w in words[1..] ensures w in words {
      }
      WordsJoined(words[1..]);
      var rest := if |words| == 1 then "" else " " + Join(words[1..], ' ');
      assert words[0] in words;
      assert "" + words[0] + rest == words[0] + rest;
      SpaceIsSpace();
      FieldsBegin("", words[0], rest);
      if |words| > 1 {
        FieldsSkip(" ", Join(words[1..], ' '));
      }
    }
  }

  lemma SpaceIsSpace()
    ensures IsSpace(' ')
  {
  }

  lemma JoinMeans(words: seq<string>)
    ensures words == [] ==> Fields(Join(words, ' ')) == []
    ensures Fields("") == []
    ensures words != [] ==>
              Join(words, ' ') == words[0] + if |words| == 1 then "" else " " + Join(words[1..], ' ')
  {
  }

  lemma {:induction false} FieldsAreWords(s: string)
    ensures forall w :: w in Fields(s) ==> IsWord(w)
    decreases |s|
  {
    if s != "" {
      if IsSpace(s[0]) {
        FieldsAreWords(s[1..]);
      } else {
        FieldsAreWords(s[|Word(s)|..]);
      }
    }
  }

  /** Two lines are the same to a comparison exactly when they have the same words, however they are spaced. */
  lemma SpacingIsNoChange(a: string, b: string)
    ensures Collapsed(a) == Collapsed(b) <==> Fields(a) == Fields(b)
    ensures Collapsed(Collapsed(a)) == Collapsed(a)
  {
    hide Fields, Join;
    FieldsAreWords(a);
    FieldsAreWords(b);
    WordsJoined(Fields(a));
    WordsJoined(Fields(b));
  }
}
