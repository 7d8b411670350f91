/** What is kept of a held batch's fixer: its commits bundled, and those of one story's files pushed to its branch. */
module FixerCarry {
  import opened CommitGraph
  import opened BatchQueue

  /** A commit of the fixer's; its files cannot always be read. */
  datatype Fix = Fix(hash: string, files: Option<seq<string>>)

  datatype Carried = Carried(hash: string, story: string)

  /** What the ports answer: the files of each story's branch, and whether a push to it goes through. */
  datatype Ports = Ports(files: string -> Option<seq<string>>, pushes: string -> bool)

  predicate HoldsAll(have: seq<string>, want: seq<string>) {
    have != [] && forall f :: f in want ==> f in have
  }

  method HoldsEvery(have: seq<string>, want: seq<string>) returns (holds: bool)
    ensures holds <==> HoldsAll(have, want)
  {
    if have == [] {
      return false;
    }
    for i := 0 to |want|
      invariant forall k :: 0 <= k < i ==> want[k] in have
    {
      if want[i] !in have {
        return false;
      }
    }
    return true;
  }

  /** A story the batch brings whose own files hold every file of the commit. */
  predicate Claims(s: Story, ports: Ports, files: seq<string>) {
    !s.onTarget && ports.files(s.id).Some? && HoldsAll(ports.files(s.id).value, files)
  }

  function ClaimantsOf(merged: seq<Story>, ports: Ports, files: seq<string>): seq<string> {
    if merged == [] then []
    else
      var s := merged[|merged| - 1];
      ClaimantsOf(merged[..|merged| - 1], ports, files) + if Claims(s, ports, files) then [s.id] else []
  }

  /** The one story a commit belongs to: none when its files cannot be read or it has none, and none when no story
      or more than one has them all. */
  function OwnerOf(merged: seq<Story>, ports: Ports, c: Fix): Option<string> {
    if c.files.None? || c.files.value == [] then None
    else
      var owners := ClaimantsOf(merged, ports, c.files.value);
      if |owners| == 1 then Some(owners[0]) else None
  }

  /** The commits that belong to the story, in order. */
  function OwnedBy(merged: seq<Story>, ports: Ports, commits: seq<Fix>, id: string): seq<Fix> {
    if commits == [] then []
    else
      var c := commits[|commits| - 1];
      OwnedBy(merged, ports, commits[..|commits| - 1], id) + if OwnerOf(merged, ports, c) == Some(id) then [c] else []
  }

  /** What was carried to the story's branch, in order. */
  function CarriedTo(carried: seq<Carried>, id: string): seq<Carried> {
    if carried == [] then []
    else
      var c := carried[|carried| - 1];
      CarriedTo(carried[..|carried| - 1], id) + if c.story == id then [c] else []
  }

  function Carry(commits: seq<Fix>, id: string): (carried: seq<Carried>)
    ensures |carried| == |commits|
    ensures forall i :: 0 <= i < |carried| ==> carried[i] == Carried(commits[i].hash, id)
  {
    seq(|commits|, i requires 0 <= i < |commits| => Carried(commits[i].hash, id))
  }

  method FindOwner(merged: seq<Story>, ports: Ports, c: Fix) returns (owner: Option<string>)
    ensures owner == OwnerOf(merged, ports, c)
  {
    if c.files.None? || c.files.value == [] {
      return None;
    }
    var found, owners := "", 0;
    for i := 0 to |merged|
      invariant owners == |ClaimantsOf(merged[..i], ports, c.files.value)|
      invariant owners > 0 ==> found == ClaimantsOf(merged[..i], ports, c.files.value)[owners - 1]
    {
      assert merged[..i + 1][..i] == merged[..i];
      if !merged[i].onTarget && ports.files(merged[i].id).Some? {
        var holds := HoldsEvery(ports.files(merged[i].id).value, c.files.value);
        if holds {
          found, owners := merged[i].id, owners + 1;
        }
      }
    }
    assert merged[..|merged|] == merged;
    return if owners == 1 then Some(found) else None;
  }

  type Sorting = map<string, seq<Fix>>

  function Of(byStory: Sorting, id: string): seq<Fix> {
    if id in byStory then byStory[id] else []
  }

  lemma OwnedAdd(merged: seq<Story>, ports: Ports, commits: seq<Fix>, c: Fix, id: string)
    ensures OwnedBy(merged, ports, commits + [c], id) ==
            OwnedBy(merged, ports, commits, id) + if OwnerOf(merged, ports, c) == Some(id) then [c] else []
    ensures OwnedBy(merged, ports, [], id) == []
  {
    assert (commits + [c])[..|commits|] == commits;
  }

  /** Sorts the commits by the story each belongs to. */
  method SortByStory(merged: seq<Story>, ports: Ports, commits: seq<Fix>) returns (byStory: Sorting, stories: seq<string>)
    ensures forall id :: Of(byStory, id) == OwnedBy(merged, ports, commits, id)
    ensures forall id :: id in stories <==> id in byStory
    ensures forall i, j :: 0 <= i < j < |stories| ==> stories[i] != stories[j]
  {
    hide OwnerOf, OwnedBy, ClaimantsOf;
    byStory, stories := map[], [];
    forall id ensures OwnedBy(merged, ports, [], id) == [] {
      OwnedAdd(merged, ports, [], Fix("", None), id);
    }
    for i := 0 to |commits|
      invariant forall id :: Of(byStory, id) == OwnedBy(merged, ports, commits[..i], id)
      invariant forall id :: id in stories <==> id in byStory
      invariant forall i, j :: 0 <= i < j < |stories| ==> stories[i] != stories[j]
    {
      assert commits[..i + 1][..i] == commits[..i];
      ghost var before := byStory;
      var owner := FindOwner(merged, ports, commits[i]);
      if owner.Some? {
        if owner.value !in byStory {
          stories := stories + [owner.value];
        }
        byStory := byStory[owner.value := Of(byStory, owner.value) + [commits[i]]];
      }
      forall id ensures Of(byStory, id) == OwnedBy(merged, ports, commits[..i + 1], id) {
        assert Of(before, id) == OwnedBy(merged, ports, commits[..i], id);
        assert commits[..i + 1] == commits[..i] + [commits[i]];
        OwnedAdd(merged, ports, commits[..i], commits[i], id);
      }
    }
    assert commits[..|commits|] == commits;
  }

  /** Pushes each story's commits, together and in order, to its branch; what could not be pushed is left. */
  method CarryFixer(merged: seq<Story>, ports: Ports, commits: seq<Fix>) returns (carried: seq<Carried>)
    // Each story is carried every commit that belongs to it alone, in their order, or none of them.
    ensures forall id :: CarriedTo(carried, id) ==
              if ports.pushes(id) then Carry(OwnedBy(merged, ports, commits, id), id) else []
  {
    hide *;
    var byStory, stories := SortByStory(merged, ports, commits);
    carried := [];
    NoneGiven(byStory, ports);
    for k := 0 to |stories|
      invariant Given(carried, byStory, stories[..k], ports)
    {
      var id := stories[k];
      assert stories[..k + 1] == stories[..k] + [id] && id !in stories[..k];
      GivenAdds(carried, byStory, stories[..k], ports, id);
      if ports.pushes(id) {
        carried := carried + Carry(byStory[id], id);
      }
    }
    assert stories[..|stories|] == stories;
    AllGiven(carried, merged, byStory, stories, ports, commits);
  }

  /** The stories done have been given what is theirs, and the others nothing. */
  ghost predicate Given(carried: seq<Carried>, byStory: Sorting, done: seq<string>, ports: Ports) {
    forall id :: CarriedTo(carried, id) == if id in done && ports.pushes(id) then Carry(Of(byStory, id), id) else []
  }

  lemma NoneGiven(byStory: Sorting, ports: Ports)
    ensures Given([], byStory, [], ports)
  {
  }

  lemma GivenAdds(carried: seq<Carried>, byStory: Sorting, done: seq<string>, ports: Ports, id: string)
    requires Given(carried, byStory, done, ports) && id !in done && id in byStory
    ensures Given(if ports.pushes(id) then carried + Carry(byStory[id], id) else carried, byStory, done + [id], ports)
  {
    hide CarriedTo, Carry;
    forall other ensures CarriedTo(carried + Carry(byStory[id], id), other) ==
                         CarriedTo(carried, other) + if other == id then Carry(byStory[id], id) else [] {
      CarriedAdds(carried, byStory[id], id, other);
    }
  }

  lemma AllGiven(carried: seq<Carried>, merged: seq<Story>, byStory: Sorting, stories: seq<string>, ports: Ports,
                 commits: seq<Fix>)
    requires Given(carried, byStory, stories, ports)
    requires forall id :: Of(byStory, id) == OwnedBy(merged, ports, commits, id)
    requires forall id :: id in stories <==> id in byStory
    ensures forall id :: CarriedTo(carried, id) ==
              if ports.pushes(id) then Carry(OwnedBy(merged, ports, commits, id), id) else []
  {
    hide CarriedTo, OwnedBy;
    forall id ensures CarriedTo(carried, id) ==
                if ports.pushes(id) then Carry(OwnedBy(merged, ports, commits, id), id) else [] {
      assert Of(byStory, id) == OwnedBy(merged, ports, commits, id);
      assert id !in byStory ==> Carry(Of(byStory, id), id) == [];
    }
  }

  lemma {:induction false} CarriedAdds(carried: seq<Carried>, more: seq<Fix>, id: string, other: string)
    ensures CarriedTo(carried + Carry(more, id), other) == CarriedTo(carried, other) + if other == id then Carry(more, id) else []
  {
    hide CarriedTo;
    if more == [] {
      assert carried + Carry(more, id) == carried;
    } else {
      var n := |more| - 1;
      var front, c := carried + Carry(more[..n], id), Carried(more[n].hash, id);
      CarriedAdds(carried, more[..n], id, other);
      assert Carry(more, id) == Carry(more[..n], id) + [c];
      assert carried + Carry(more, id) == front + [c];
      CarriedOne(front, c, other);
    }
  }

  lemma CarriedOne(carried: seq<Carried>, c: Carried, id: string)
    ensures CarriedTo(carried + [c], id) == CarriedTo(carried, id) + if c.story == id then [c] else []
  {
    assert (carried + [c])[..|carried|] == carried;
  }

  // ----- What that means of one commit -----

  /** The owner is a merged story of the batch whose files cover the commit's, and no other's do. */
  lemma {:induction false} OwnerIsTheOnlyOne(merged: seq<Story>, ports: Ports, files: seq<string>)
    ensures forall id :: id in ClaimantsOf(merged, ports, files) <==>
              exists s :: s in merged && s.id == id && Claims(s, ports, files)
  {
    if merged != [] {
      var n := |merged| - 1;
      OwnerIsTheOnlyOne(merged[..n], ports, files);
      assert merged == merged[..n] + [merged[n]];
    }
  }

  lemma {:induction false} InCarriedTo(carried: seq<Carried>, c: Carried)
    ensures c in carried <==> c in CarriedTo(carried, c.story)
  {
    if carried != [] {
      assert carried == carried[..|carried| - 1] + [carried[|carried| - 1]];
      InCarriedTo(carried[..|carried| - 1], c);
    }
  }

  lemma {:induction false} OwnedAreTheirs(merged: seq<Story>, ports: Ports, commits: seq<Fix>, id: string, c: Fix)
    ensures c in OwnedBy(merged, ports, commits, id) <==> c in commits && OwnerOf(merged, ports, c) == Some(id)
  {
    if commits != [] {
      assert commits == commits[..|commits| - 1] + [commits[|commits| - 1]];
      OwnedAreTheirs(merged, ports, commits[..|commits| - 1], id, c);
    }
  }

  lemma OwnerMeans(merged: seq<Story>, ports: Ports, c: Fix, id: string)
    requires OwnerOf(merged, ports, c) == Some(id)
    ensures c.files.Some? && c.files.value != []
    ensures exists s :: s in merged && s.id == id && Claims(s, ports, c.files.value)
    ensures forall s :: s in merged && Claims(s, ports, c.files.value) ==> s.id == id
  {
    OwnerIsTheOnlyOne(merged, ports, c.files.value);
    var owners := ClaimantsOf(merged, ports, c.files.value);
    assert owners[0] in owners;
    forall s | s in merged && Claims(s, ports, c.files.value) ensures s.id == id {
      assert s.id in owners;
    }
  }

  // ----- The bundle -----

  /** Whether there is a fixer whose commits are to be kept, and how the steps of keeping them go. */
  datatype Keeping = Keeping(started: bool, stopped: bool, from: bool, records: bool, commits: Option<seq<Fix>>,
                             place: bool, bundles: bool, verifies: bool)

  /** Carries and then bundles the fixer's commits. */
  method BundleFixer(merged: seq<Story>, ports: Ports, k: Keeping) returns (bundled: seq<Fix>, carried: seq<Carried>)
    // What is carried is of the fixer's commits, each of which one merged story of the batch, and only one, covers.
    ensures forall c :: c in carried ==>
              && Keeps(k) && ports.pushes(c.story)
              && exists fix :: fix in k.commits.value && fix.hash == c.hash && OwnerOf(merged, ports, fix) == Some(c.story)
    ensures forall id :: CarriedTo(carried, id) ==
              if Keeps(k) && ports.pushes(id) then Carry(OwnedBy(merged, ports, k.commits.value, id), id) else []
    ensures bundled == if Keeps(k) && Bundles(k) then k.commits.value else []
    // It is in the bundle too, exactly when the bundle was made: the commits are pushed before they are bundled.
    ensures (forall c :: c in carried ==> exists fix :: fix in bundled && fix.hash == c.hash) <==> carried == [] || Bundles(k)
  {
    hide CarriedTo, OwnedBy, OwnerOf;
    bundled, carried := [], [];
    NoneCarried(merged, ports);
    if !k.started || k.stopped || !k.from || !k.records || k.commits.None? || k.commits.value == [] {
      return;
    }
    carried := CarryFixer(merged, ports, k.commits.value);
    forall c | c in carried
      ensures ports.pushes(c.story)
      ensures exists fix :: fix in k.commits.value && fix.hash == c.hash && OwnerOf(merged, ports, fix) == Some(c.story)
    {
      InCarriedTo(carried, c);
      var owned := OwnedBy(merged, ports, k.commits.value, c.story);
      assert c in Carry(owned, c.story);
      var i :| 0 <= i < |owned| && Carry(owned, c.story)[i] == c;
      OwnedAreTheirs(merged, ports, k.commits.value, c.story, owned[i]);
    }
    if k.place && k.bundles && k.verifies {
      bundled := k.commits.value;
    }
    if carried != [] && !Bundles(k) {
      assert carried[0] in carried;
    }
  }

  /** There is a fixer that started and was not stopped, and its commits can be read and there are records. */
  predicate Keeps(k: Keeping) {
    k.started && !k.stopped && k.from && k.records && k.commits.Some?
  }

  predicate Bundles(k: Keeping) {
    k.place && k.bundles && k.verifies
  }

  lemma NoneCarried(merged: seq<Story>, ports: Ports)
    ensures forall id :: CarriedTo([], id) == [] == Carry(OwnedBy(merged, ports, [], id), id)
  {
  }

  /** A commit of one story's files is pushed to its branch, and is in no bundle: the one made does not verify. */
  method CarriedNotBundled(story: Story, file: string, hash: string) returns (bundled: seq<Fix>, carried: seq<Carried>)
    requires !story.onTarget
    ensures bundled == [] && carried == [Carried(hash, story.id)]
  {
    hide CarriedTo, OwnedBy, OwnerOf, ClaimantsOf;
    var ports := Ports(id => Some([file]), id => true);
    var fix := Fix(hash, Some([file]));
    bundled, carried := BundleFixer([story], ports, Keeping(true, false, true, true, Some([fix]), true, true, false));
    OneOwned(story, ports, fix);
    OneCarried(carried, hash, story.id);
  }

  lemma OneOwned(story: Story, ports: Ports, fix: Fix)
    requires !story.onTarget && fix.files.Some? && fix.files.value != [] && ports.files(story.id) == fix.files
    ensures forall id :: OwnedBy([story], ports, [fix], id) == if id == story.id then [fix] else []
  {
    assert [story][..0] == [] && [fix][..0] == [];
    assert ClaimantsOf([story], ports, fix.files.value) == [story.id];
  }

  /** What is carried to one story, and nothing to any other, is all that is carried. */
  lemma OneCarried(carried: seq<Carried>, hash: string, id: string)
    requires forall other :: |CarriedTo(carried, other)| == if other == id then 1 else 0
    requires CarriedTo(carried, id) == [Carried(hash, id)]
    ensures carried == [Carried(hash, id)]
  {
    forall c | c in carried ensures c == Carried(hash, id) {
      InCarriedTo(carried, c);
      assert c in CarriedTo(carried, c.story);
    }
    AllToOne(carried, id);
  }

  lemma {:induction false} AllToOne(carried: seq<Carried>, id: string)
    requires forall c :: c in carried ==> c.story == id
    ensures CarriedTo(carried, id) == carried
  {
    if carried != [] {
      var n := |carried| - 1;
      assert carried == carried[..n] + [carried[n]] && carried[n] in carried;
      AllToOne(carried[..n], id);
    }
  }
}
