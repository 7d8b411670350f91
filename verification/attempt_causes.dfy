/** The causes named for a story's attempts: the text they are kept as, and which attempts count. */
module AttemptCauses {
  import opened Text

  const OWN_CAUSE := "code"
  const CAUSE_CLASSES: set<string> := {"code", "test", "tooling", "process"}

  type Causes = map<nat, string>

  // ----- The text -----

  /** One attempt:class pair read, none when it cannot be. */
  function PairOf(piece: string): (nat, string) {
    var (at, class_, found) := Cut(TrimSpace(piece), ':');
    if !found || Atoi(TrimSpace(at)) < 1 || TrimSpace(class_) == "" then (0, "")
    else (Atoi(TrimSpace(at)), TrimSpace(class_))
  }

  function CausesIn(pieces: seq<string>): (causes: Causes)
    ensures 0 !in causes && forall a :: a in causes ==> causes[a] != ""
  {
    if pieces == [] then map[]
    else
      var (attempt, class_) := PairOf(pieces[|pieces| - 1]);
      var before := CausesIn(pieces[..|pieces| - 1]);
      if attempt < 1 || class_ == "" then before else before[attempt := class_]
  }

  method ParseAttemptCauses(text: string) returns (causes: Causes)
    ensures causes == CausesIn(Split(text, ','))
  {
    causes := map[];
    var pieces := Split(text, ',');
    for i := 0 to |pieces|
      invariant causes == CausesIn(pieces[..i])
    {
      assert pieces[..i + 1][..i] == pieces[..i];
      var (attempt, class_) := PairOf(pieces[i]);
      if attempt >= 1 && class_ != "" {
        causes := causes[attempt := class_];
      }
    }
    assert pieces[..|pieces|] == pieces;
  }

  function PairText(attempt: nat, class_: string): string {
    Itoa(attempt) + ":" + class_
  }

  function PairsOf(causes: Causes, attempts: seq<nat>): (pairs: seq<string>)
    requires forall a :: a in attempts ==> a in causes
    ensures |pairs| == |attempts|
  {
    if attempts == [] then []
    else
      var a := attempts[|attempts| - 1];
      PairsOf(causes, attempts[..|attempts| - 1]) + [PairText(a, causes[a])]
  }

  ghost predicate Ascending(attempts: seq<nat>) {
    forall i, j :: 0 <= i < j < |attempts| ==> attempts[i] < attempts[j]
  }

  /** The least of the numbers. */
  method LeastOf(numbers: set<nat>) returns (least: nat)
    requires numbers != {}
    ensures least in numbers && forall n :: n in numbers ==> least <= n
  {
    least :| least in numbers;
    var rest := numbers - {least};
    while rest != {}
      invariant least in numbers && rest <= numbers
      invariant forall n :: n in numbers && n !in rest ==> least <= n
      decreases |rest|
    {
      var n :| n in rest;
      rest := rest - {n};
      if n < least {
        least := n;
      }
    }
  }

  lemma AscendingAdd(causes: Causes, attempts: seq<nat>, a: nat)
    requires Ascending(attempts) && (forall b :: b in attempts ==> b < a && b in causes) && a in causes
    ensures Ascending(attempts + [a])
    ensures PairsOf(causes, attempts + [a]) == PairsOf(causes, attempts) + [PairText(a, causes[a])]
  {
    assert (attempts + [a])[..|attempts|] == attempts;
    forall i, j | 0 <= i < j < |attempts + [a]| ensures (attempts + [a])[i] < (attempts + [a])[j] {
      assert attempts[i] in attempts;
    }
  }

  lemma NoPairs(causes: Causes)
    ensures Ascending([]) && PairsOf(causes, []) == []
  {
  }

  /** The attempts named, oldest first. */
  ghost predicate Lists(causes: Causes, attempts: seq<nat>) {
    Ascending(attempts) && forall a :: a in attempts <==> a in causes
  }

  /** There is one order to name them in. */
  lemma {:induction false} OneOrder(a: seq<nat>, b: seq<nat>)
    requires Ascending(a) && Ascending(b) && forall n :: n in a <==> n in b
    ensures a == b
  {
    LastIsMost(a);
    LastIsMost(b);
    if a != [] && b != [] {
      var x, y := a[..|a| - 1], b[..|b| - 1];
      assert a[|a| - 1] == b[|b| - 1];
      forall n ensures n in x <==> n in y {
        assert n in a <==> n in b;
      }
      OneOrder(x, y);
      assert a == x + [a[|a| - 1]] && b == y + [b[|b| - 1]];
    }
  }

  lemma LastIsMost(a: seq<nat>)
    requires Ascending(a)
    ensures a != [] ==>
              && a[|a| - 1] in a && (forall n :: n in a ==> n <= a[|a| - 1])
              && Ascending(a[..|a| - 1]) && forall n :: n in a[..|a| - 1] <==> n in a && n != a[|a| - 1]
  {
    if a != [] {
      assert a == a[..|a| - 1] + [a[|a| - 1]];
    }
  }

  /** The causes as the metadata keeps them, oldest attempt first. */
  method AttemptCausesText(causes: Causes) returns (text: string)
    ensures forall attempts :: Lists(causes, attempts) ==> text == Join(PairsOf(causes, attempts), ',')
    ensures exists attempts :: Lists(causes, attempts)
  {
    hide *;
    NoPairs(causes);
    var pairs: seq<string> := [];
    var left := causes.Keys;
    ghost var named: seq<nat> := [];
    while left != {}
      invariant left <= causes.Keys && Ascending(named)
      invariant forall a :: a in named <==> a in causes && a !in left
      invariant forall a, b :: a in named && b in left ==> a < b
      invariant pairs == PairsOf(causes, named)
      decreases |left|
    {
      var a := LeastOf(left);
      left := left - {a};
      AscendingAdd(causes, named, a);
      named, pairs := named + [a], pairs + [PairText(a, causes[a])];
    }
    text := Join(pairs, ',');
    OneText(causes, named);
  }

  lemma OneText(causes: Causes, named: seq<nat>)
    requires Ascending(named) && forall a :: a in named <==> a in causes
    ensures Lists(causes, named)
    ensures forall attempts :: Lists(causes, attempts) ==> PairsOf(causes, attempts) == PairsOf(causes, named)
  {
    forall attempts | Lists(causes, attempts) ensures attempts == named {
      OneOrder(attempts, named);
    }
  }

  /** Causes that can be kept as text: of attempts from the first, of classes that are trimmed and hold no comma. */
  ghost predicate Keepable(causes: Causes) {
    forall a :: a in causes ==> a >= 1 && causes[a] != "" && Trimmed(causes[a]) && ',' !in causes[a]
  }

  lemma PairReadsBack(attempt: nat, class_: string)
    requires attempt >= 1 && class_ != "" && Trimmed(class_)
    ensures PairOf(PairText(attempt, class_)) == (attempt, class_)
    ensures ',' !in class_ ==> ',' !in PairText(attempt, class_)
  {
    hide TrimEnd, TrimLeft, Itoa, Number;
    DigitsArePlain(Itoa(attempt));
    NumberOfItoa(attempt);
    var text := PairText(attempt, class_);
    assert text == Itoa(attempt) + [':'] + class_;
    assert Itoa(attempt)[0] in Itoa(attempt);
    TrimmedStays(text);
    TrimmedStays(class_);
    TrimmedStays(Itoa(attempt));
    CutAtFirst(Itoa(attempt), ':', class_);
  }

  /** Whatever the order the attempts are written in, each once, they are read back as they were. */
  lemma {:induction false} PairsReadBack(causes: Causes, attempts: seq<nat>)
    requires Keepable(causes) && Ascending(attempts) && forall a :: a in attempts ==> a in causes
    ensures var read := CausesIn(PairsOf(causes, attempts));
            (forall a :: a in read <==> a in attempts) && forall a :: a in attempts ==> read[a] == causes[a]
    ensures forall p :: p in PairsOf(causes, attempts) ==> ',' !in p
  {
    hide *;
    if attempts == [] {
      NothingReadBack(causes);
    } else {
      var n := |attempts| - 1;
      var front, a := attempts[..n], attempts[n];
      assert attempts == front + [a];
      FrontAscends(causes, front, a);
      PairsReadBack(causes, front);
      PairReadsBack(a, causes[a]);
      CausesAdd(PairsOf(causes, front), PairText(a, causes[a]));
    }
  }

  lemma FrontAscends(causes: Causes, front: seq<nat>, a: nat)
    requires Keepable(causes) && Ascending(front + [a]) && forall b :: b in front + [a] ==> b in causes
    ensures Ascending(front) && (forall b :: b in front ==> b in causes) && a in causes
    ensures a >= 1 && causes[a] != "" && Trimmed(causes[a]) && ',' !in causes[a]
    ensures PairsOf(causes, front + [a]) == PairsOf(causes, front) + [PairText(a, causes[a])]
  {
    var attempts := front + [a];
    assert attempts[..|front|] == front && a in attempts;
    forall b | b in front ensures b in causes {
      assert b in attempts;
    }
    forall i, j | 0 <= i < j < |front| ensures front[i] < front[j] {
      assert attempts[i] < attempts[j];
    }
  }

  lemma CausesAdd(pieces: seq<string>, piece: string)
    ensures CausesIn(pieces + [piece]) ==
            var pair := PairOf(piece);
            if pair.0 < 1 || pair.1 == "" then CausesIn(pieces) else CausesIn(pieces)[pair.0 := pair.1]
  {
    assert (pieces + [piece])[..|pieces|] == pieces;
  }

  /** The text of any causes that can be kept is read back as those causes, and no others. */
  lemma CausesReadBack(causes: Causes, attempts: seq<nat>)
    requires Keepable(causes) && Ascending(attempts) && forall a :: a in attempts <==> a in causes
    ensures CausesIn(Split(Join(PairsOf(causes, attempts), ','), ',')) == causes
  {
    hide Split, Join, CausesIn, PairsOf, PairOf;
    PairsReadBack(causes, attempts);
    if attempts == [] {
      NothingReadBack(causes);
    } else {
      SplitJoin(PairsOf(causes, attempts), ',');
    }
  }

  lemma NothingReadBack(causes: Causes)
    ensures PairsOf(causes, []) == [] && CausesIn(Split(Join([], ','), ',')) == map[] == CausesIn([])
  {
    assert [""][..0] == [];
    assert PairOf("") == (0, "");
  }

  // ----- The attempts of one story -----

  /** How many of the first n attempts count: those whose cause is the story's own, or is not named. */
  function OwnOf(causes: Causes, n: nat): nat {
    if n == 0 then 0
    else OwnOf(causes, n - 1) + if n !in causes || causes[n] == OWN_CAUSE then 1 else 0
  }

  method OwnAttempts(attempts: nat, causes: Causes) returns (own: nat, uncounted: seq<(nat, string)>)
    requires 0 !in causes && forall a :: a in causes ==> causes[a] != ""
    ensures own == OwnOf(causes, attempts)
    // Every attempt counts or is listed with its cause, and those listed come oldest first.
    ensures own + |uncounted| == attempts
    ensures forall u :: u in uncounted <==>
              1 <= u.0 <= attempts && u.0 in causes && causes[u.0] != OWN_CAUSE && u.1 == causes[u.0]
    ensures forall i, j :: 0 <= i < j < |uncounted| ==> uncounted[i].0 < uncounted[j].0
  {
    own, uncounted := 0, [];
    for attempt := 1 to attempts + 1
      invariant own == OwnOf(causes, attempt - 1) && own + |uncounted| == attempt - 1
      invariant forall u :: u in uncounted <==>
                  1 <= u.0 < attempt && u.0 in causes && causes[u.0] != OWN_CAUSE && u.1 == causes[u.0]
      invariant forall i, j :: 0 <= i < j < |uncounted| ==> uncounted[i].0 < uncounted[j].0
    {
      if attempt !in causes || causes[attempt] == OWN_CAUSE {
        own := own + 1;
      } else {
        assert forall u :: u in uncounted ==> u.0 < attempt;
        uncounted := uncounted + [(attempt, causes[attempt])];
      }
    }
  }

  function Below(causes: Causes, attempt: nat): Causes {
    map a | a in causes && a < attempt :: causes[a]
  }

  /** The metadata of one story that its attempts and their causes are kept in. */
  class Story {
    var attempts: nat
    var text: string
    /** What the text reads as. */
    ghost var causes: Causes

    ghost predicate Valid()
      reads this
    {
      Keepable(causes) && causes == CausesIn(Split(text, ','))
    }

    constructor ()
      ensures Valid() && attempts == 0 && causes == map[]
    {
      attempts, text, causes := 0, "", map[];
      new;
      NothingReadBack(map[]);
    }

    method Write(kept: Causes)
      requires Valid() && Keepable(kept)
      modifies `text, `causes
      ensures Valid() && causes == kept
    {
      text := AttemptCausesText(kept);
      causes := kept;
      ghost var attempts :| Lists(kept, attempts);
      CausesReadBack(kept, attempts);
    }

    /** mw cause: the class is named for the story's latest attempt, every other cause left as it was. */
    method NameCause(class_: string)
      requires Valid() && class_ in CAUSE_CLASSES
      modifies `text, `causes
      ensures Valid()
      ensures causes == old(causes)[(if attempts < 1 then 1 else attempts) := class_]
    {
      var named := ParseAttemptCauses(text);
      ClassesAreKept();
      Write(named[(if attempts < 1 then 1 else attempts) := class_]);
    }

    /** A session started for the story: its attempt is counted, and a cause named for it or a later one, left from
        before the count was lowered, is cleared. */
    method Start(attempt: nat)
      requires Valid()
      modifies this
      ensures Valid() && attempts == attempt
      ensures causes == Below(old(causes), attempt)
      ensures attempt >= 1 ==> attempt !in causes && OwnOf(causes, attempt) == OwnOf(causes, attempt - 1) + 1
    {
      attempts := attempt;
      var named := ParseAttemptCauses(text);
      var kept: Causes := map a | a in named && a < attempt :: named[a];
      if kept != named {
        Write(kept);
      } else {
        assert forall a :: a in causes ==> a < attempt;
      }
    }

    /** The count lowered by hand. */
    method Lower(attempt: nat)
      requires Valid()
      modifies `attempts
      ensures Valid() && attempts == attempt
    {
      attempts := attempt;
    }

    /** The next attempt, as a dispatch or a close-out starts it. */
    method StartNext()
      requires Valid()
      modifies this
      ensures Valid() && attempts == old(attempts) + 1
      ensures causes == Below(old(causes), attempts)
      ensures OwnOf(causes, attempts) == OwnOf(causes, attempts - 1) + 1
    {
      Start(attempts + 1);
    }
  }

  lemma ClassesAreKept()
    ensures forall c :: c in CAUSE_CLASSES ==> c != "" && Trimmed(c) && ',' !in c
  {
  }

  datatype Happening = Starts | Named(class_: string) | Lowered(attempt: nat)

  /** Any history of a story: starts, causes named, and counts lowered by hand. A fresh attempt has no cause, so it
      counts as the story's own until one is named for it. */
  method Live(happenings: seq<Happening>) returns (story: Story)
    requires forall h :: h in happenings && h.Named? ==> h.class_ in CAUSE_CLASSES
    ensures story.Valid()
    ensures happenings != [] && happenings[|happenings| - 1] == Starts ==>
              && story.attempts >= 1 && story.attempts !in story.causes
              && (forall a :: a in story.causes ==> a < story.attempts)
              && OwnOf(story.causes, story.attempts) >= 1
  {
    story := new Story();
    for i := 0 to |happenings|
      invariant story.Valid() && fresh(story)
      invariant i > 0 && happenings[i - 1] == Starts ==>
                  && story.attempts >= 1 && story.attempts !in story.causes
                  && (forall a :: a in story.causes ==> a < story.attempts)
                  && OwnOf(story.causes, story.attempts) >= 1
    {
      match happenings[i] {
        case Starts => story.StartNext();
        case Named(class_) => story.NameCause(class_);
        case Lowered(attempt) => story.Lower(attempt);
      }
    }
  }
}
