/** When each rig is landed: the follower's passes, their backing off, and the draining of a queue one by one. */
module Landings {
  import opened BatchQueue

  /** A rig's landing keys: each story by itself, or a batch when `max` wait or `min` have waited `every`. */
  datatype Settings = Settings(each: bool, every: nat, min: nat, max: nat)

  /** What a rig has queued; `oldest` is 0 when the oldest was queued with no time. */
  datatype Queue = Queue(oldest: int, ids: seq<string>)

  datatype Due = Due(rig: string, each: bool, queue: Queue)

  datatype Note = Note(at: int, queue: Queue)

  /** What a look for due rigs finds: whether the harness holds the host, and the queues. */
  datatype Look = NotHome | Unread | Read(held: bool, queues: map<string, Queue>)

  datatype Outcome = Clean | LeftRunning | Broke

  /** What happens next in a pass: time goes by, and a landing ends, its end is told, or the pass looks again. */
  datatype Step =
    | Ends(which: nat, outcome: Outcome, after: Look, elapsed: nat)
    | Told
    | LooksAgain(look: Look, cancelled: bool, elapsed: nat)

  datatype Event =
    | Started(rig: string, at: int, adopted: bool)
    | Ended(rig: string, at: int, outcome: Outcome)
    | Noted(rig: string, at: int, ids: seq<string>)
    | Changed(rig: string)

  // ----- What is due -----

  predicate BatchDue(s: Settings, queued: nat, oldest: int, now: int) {
    if queued == 0 then false
    else if queued >= s.max then true
    else if queued < s.min then false
    else oldest == 0 || now - oldest >= s.every
  }

  /** Every queue of BatchMin or more is due at the latest BatchEvery after its oldest story was queued. */
  lemma DueInTime(s: Settings, queued: nat, oldest: int, now: int)
    requires queued > 0 && queued >= s.min
    ensures now >= oldest + s.every ==> BatchDue(s, queued, oldest, now)
    ensures queued < s.max && oldest != 0 ==> (BatchDue(s, queued, oldest, now) <==> now >= oldest + s.every)
  {
  }

  function RigsOf(due: seq<Due>): (rigs: seq<string>)
    ensures |rigs| == |due|
    ensures forall i :: 0 <= i < |rigs| ==> rigs[i] == due[i].rig
  {
    seq(|due|, i requires 0 <= i < |due| => due[i].rig)
  }

  ghost predicate Distinct(names: seq<string>) {
    forall i, j :: 0 <= i < j < |names| ==> names[i] != names[j]
  }

  /** The first of the names in their order. */
  method FirstOf(names: set<string>) returns (first: string)
    requires names != {}
    ensures first in names && forall n :: n in names ==> n == first || TextBefore(first, n)
  {
    first :| first in names;
    var rest := names - {first};
    while rest != {}
      invariant first in names && rest <= names
      invariant forall n :: n in names && n !in rest ==> n == first || TextBefore(first, n)
      decreases |rest|
    {
      var n :| n in rest;
      ghost var was := first;
      if TextBefore(n, first) {
        first := n;
      }
      forall m | m in names && m !in rest ensures m == first || TextBefore(first, m) {
        TextOrder(first, was, m);
      }
      TextOrder(n, was, n);
      rest := rest - {n};
    }
  }

  // ----- The history -----

  predicate Touches(e: Event, rig: string) {
    (e.Noted? || e.Changed?) && e.rig == rig
  }

  /** No landing is started within BatchEvery of a failure of its rig. */
  ghost predicate NeverSoonAfterFailure(rules: map<string, Settings>, h: seq<Event>) {
    forall i, j :: 0 <= i < j < |h| && h[i].Ended? && h[i].outcome == Broke && StartOf(h[j], h[i].rig) ==>
      h[i].rig in rules && h[j].at - h[i].at >= rules[h[i].rig].every
  }

  predicate StartOf(e: Event, rig: string) {
    e.Started? && !e.adopted && e.rig == rig
  }

  /** No landing is started within BatchEvery of one of its rig that took nothing, until the queue is seen changed. */
  ghost predicate NeverSoonOnTheSame(rules: map<string, Settings>, h: seq<Event>) {
    forall i, j :: 0 <= i < j < |h| && h[i].Noted? && StartOf(h[j], h[i].rig) && Untouched(h, i, j) ==>
      h[i].rig in rules && h[j].at - h[i].at >= rules[h[i].rig].every
  }

  ghost predicate Untouched(h: seq<Event>, i: nat, j: nat)
    requires i < j <= |h|
  {
    forall k :: i < k < j ==> !Touches(h[k], h[i].rig)
  }

  /** What the follower remembers is what happened. */
  ghost predicate Remembers(h: seq<Event>, failed: map<string, int>, nothing: map<string, Note>, now: int) {
    && (forall i :: 0 <= i < |h| && h[i].Ended? && h[i].outcome == Broke ==>
         h[i].rig in failed && h[i].at <= failed[h[i].rig])
    && (forall i :: 0 <= i < |h| && h[i].Noted? && Untouched(h, i, |h|) ==>
         h[i].rig in nothing && nothing[h[i].rig].at == h[i].at && nothing[h[i].rig].queue.ids == h[i].ids)
    && (forall r :: r in failed ==> failed[r] <= now)
  }

  ghost predicate Lawful(rules: map<string, Settings>, h: seq<Event>) {
    NeverSoonAfterFailure(rules, h) && NeverSoonOnTheSame(rules, h)
  }

  /** The rig may be started now, by all that is remembered of it. */
  predicate Ready(rules: map<string, Settings>, failed: map<string, int>, nothing: map<string, Note>, now: int, rig: string) {
    && rig in rules
    && (rig in failed ==> now - failed[rig] >= rules[rig].every)
    && (rig in nothing ==> now - nothing[rig].at >= rules[rig].every)
  }

  lemma UntouchedAdd(h: seq<Event>, e: Event, i: nat)
    requires i < |h|
    ensures Untouched(h + [e], i, |h| + 1) <==> Untouched(h, i, |h|) && !Touches(e, h[i].rig)
    ensures forall j :: i < j <= |h| ==> (Untouched(h + [e], i, j) <==> Untouched(h, i, j))
  {
    assert (h + [e])[|h|] == e;
    assert forall k :: 0 <= k < |h| ==> (h + [e])[k] == h[k];
  }

  /** One more event keeps the laws, when it is a start that is ready or no start at all. */
  lemma LawfulAdd(rules: map<string, Settings>, h: seq<Event>, failed: map<string, int>, nothing: map<string, Note>,
                  now: int, e: Event)
    requires Lawful(rules, h) && Remembers(h, failed, nothing, now)
    requires e.Started? && !e.adopted ==> e.at == now && Ready(rules, failed, nothing, now, e.rig)
    ensures Lawful(rules, h + [e])
  {
    var h' := h + [e];
    forall i, j | 0 <= i < j < |h'| && h'[i].Noted? && StartOf(h'[j], h'[i].rig) && Untouched(h', i, j)
      ensures h'[i].rig in rules && h'[j].at - h'[i].at >= rules[h'[i].rig].every
    {
      UntouchedAdd(h, e, i);
      assert h'[i] == h[i];
    }
  }

  /** What is remembered after one more event. */
  lemma RemembersAdd(h: seq<Event>, failed: map<string, int>, nothing: map<string, Note>, now: int, e: Event)
    requires Remembers(h, failed, nothing, now)
    requires e.Ended? ==> e.at == now
    ensures e.Started? ==> Remembers(h + [e], failed, nothing, now)
    ensures e.Ended? && e.outcome == Broke ==> Remembers(h + [e], failed[e.rig := now], nothing, now)
    ensures e.Ended? && e.outcome != Broke ==> Remembers(h + [e], failed, nothing, now)
    ensures e.Changed? ==> Remembers(h + [e], failed, nothing - {e.rig}, now)
    ensures forall q: Queue :: e.Noted? && q.ids == e.ids ==>
              Remembers(h + [e], failed, nothing[e.rig := Note(e.at, q)], now)
  {
    forall i: nat | i < |h| ensures Untouched(h + [e], i, |h| + 1) <==> Untouched(h, i, |h|) && !Touches(e, h[i].rig) {
      UntouchedAdd(h, e, i);
    }
  }

  function StartsIn(h: seq<Event>): seq<string> {
    if h == [] then [] else StartsIn(h[..|h| - 1]) + if h[|h| - 1].Started? then [h[|h| - 1].rig] else []
  }

  function EndsIn(h: seq<Event>): seq<string> {
    if h == [] then [] else EndsIn(h[..|h| - 1]) + if h[|h| - 1].Ended? then [h[|h| - 1].rig] else []
  }

  lemma InAdd(h: seq<Event>, e: Event)
    ensures StartsIn(h + [e]) == StartsIn(h) + if e.Started? then [e.rig] else []
    ensures EndsIn(h + [e]) == EndsIn(h) + if e.Ended? then [e.rig] else []
  {
    assert (h + [e])[..|h|] == h;
  }

  // ----- The follower's passes -----

  /** A rig is left be for its failure: within BatchEvery of it, or while the harness holds the host. */
  predicate BacksOff(rules: map<string, Settings>, failed: map<string, int>, now: int, held: bool, rig: string) {
    rig in rules && rig in failed && (held || now - failed[rig] < rules[rig].every)
  }

  /** A rig is to be landed now, by its queue as it was read. */
  predicate Wanted(rules: map<string, Settings>, failed: map<string, int>, nothing: map<string, Note>,
                   now: int, held: bool, rig: string, q: Queue) {
    && rig in rules
    && !BacksOff(rules, failed, now, held, rig)
    && !(rig in nothing && nothing[rig].queue.ids == q.ids && now - nothing[rig].at < rules[rig].every)
    && (rules[rig].each || BatchDue(rules[rig], |q.ids|, q.oldest, now))
  }

  /** A rig's queue is not what a landing took nothing from any more. */
  predicate Forgets(rules: map<string, Settings>, failed: map<string, int>, nothing: map<string, Note>,
                    now: int, held: bool, rig: string, q: Queue) {
    && rig in rules && rig in nothing
    && !BacksOff(rules, failed, now, held, rig) && nothing[rig].queue.ids != q.ids
  }

  /** The landings that took nothing still remembered, once the queues not left to look at have been. */
  function Kept(rules: map<string, Settings>, failed: map<string, int>, nothing: map<string, Note>, now: int,
                held: bool, queues: map<string, Queue>, left: set<string>): map<string, Note> {
    map r | r in nothing && !(r in queues && r !in left && Forgets(rules, failed, nothing, now, held, r, queues[r])) ::
      nothing[r]
  }

  /** A landing that ended clean left its queue as it was. */
  predicate TookNothing(d: Due, after: Look) {
    after.Read? && d.rig in after.queues && after.queues[d.rig].ids == d.queue.ids
  }

  lemma TookMeans(d: Due, after: Look)
    ensures TookNothing(d, after) <==> after.Read? && d.rig in after.queues && after.queues[d.rig].ids == d.queue.ids
  {
  }

  /** due is every rig that is wanted among the queues not left to look at, and no other. */
  ghost predicate AllDue(due: seq<Due>, rules: map<string, Settings>, failed: map<string, int>, nothing: map<string, Note>,
                         now: int, held: bool, queues: map<string, Queue>, left: set<string>) {
    && (forall d :: d in due ==>
         && d.rig in queues && d.rig !in left && Wanted(rules, failed, nothing, now, held, d.rig, queues[d.rig])
         && d == Due(d.rig, rules[d.rig].each, queues[d.rig]))
    && (forall r :: r in queues && r !in left && Wanted(rules, failed, nothing, now, held, r, queues[r]) ==>
         Due(r, rules[r].each, queues[r]) in due)
  }

  ghost predicate AllStarted(rules: map<string, Settings>, failed: map<string, int>, nothing: map<string, Note>,
                             now: int, held: bool, queues: map<string, Queue>, started: set<string>) {
    forall r :: r in queues && Wanted(rules, failed, nothing, now, held, r, queues[r]) ==> r in started
  }

  ghost predicate AllReady(due: seq<Due>, rules: map<string, Settings>, failed: map<string, int>,
                           nothing: map<string, Note>, now: int) {
    forall d :: d in due ==> Ready(rules, failed, nothing, now, d.rig)
  }

  ghost predicate ComeBefore(due: seq<Due>, left: set<string>) {
    forall d, r :: d in due && r in left ==> TextBefore(d.rig, r)
  }

  ghost predicate InOrder(due: seq<Due>) {
    forall i, j :: 0 <= i < j < |due| ==> TextBefore(due[i].rig, due[j].rig)
  }

  class BatchLandings {
    const rules: map<string, Settings>
    var failed: map<string, int>
    var nothing: map<string, Note>
    var now: int
    var started: set<string>
    var flying: seq<Due>
    var untold: nat
    ghost var history: seq<Event>

    /** Over every pass there ever was, no rig was started sooner than it may be. */
    ghost predicate Valid()
      reads `history, `failed, `nothing, `now
    {
      Lawful(rules, history) && Remembers(history, failed, nothing, now)
    }

    constructor (rules: map<string, Settings>)
      ensures Valid() && this.rules == rules && history == [] && failed == map[] && nothing == map[]
    {
      this.rules := rules;
      failed, nothing, now, started, flying, untold, history := map[], map[], 0, {}, [], 0, [];
    }

    /** The rig's queue changed since a landing took nothing from it. */
    method Forget(rig: string)
      requires Valid()
      modifies `nothing, `history
      ensures Valid() && nothing == old(nothing) - {rig}
      ensures StartsIn(history) == StartsIn(old(history)) && EndsIn(history) == EndsIn(old(history))
    {
      hide *;
      ValidMeans();
      LawfulAdd(rules, history, failed, nothing, now, Changed(rig));
      RemembersAdd(history, failed, nothing, now, Changed(rig));
      InAdd(history, Changed(rig));
      nothing, history := nothing - {rig}, history + [Changed(rig)];
      ValidMeans();
    }

    lemma ValidMeans()
      ensures Valid() <==> Lawful(rules, history) && Remembers(history, failed, nothing, now)
    {
    }

    /** Starts a landing. */
    method Start(d: Due, ghost adopted: bool)
      requires Valid() && (!adopted ==> Ready(rules, failed, nothing, now, d.rig))
      modifies `started, `flying, `history
      ensures Valid()
      ensures started == old(started) + {d.rig} && flying == old(flying) + [d]
      ensures StartsIn(history) == StartsIn(old(history)) + [d.rig] && EndsIn(history) == EndsIn(old(history))
    {
      hide *;
      ValidMeans();
      ghost var e := Started(d.rig, now, adopted);
      LawfulAdd(rules, history, failed, nothing, now, e);
      RemembersAdd(history, failed, nothing, now, e);
      InAdd(history, e);
      started, flying, history := started + {d.rig}, flying + [d], history + [e];
      ValidMeans();
    }

    /** A landing ends: what it came to is remembered, and that its end is still to be told. */
    method End(which: nat, outcome: Outcome, after: Look)
      requires Valid() && which < |flying|
      modifies `flying, `untold, `failed, `nothing, `history
      ensures Valid()
      ensures flying == old(flying)[..which] + old(flying)[which + 1..] && untold == old(untold) + 1
      ensures failed == if outcome == Broke then old(failed)[old(flying)[which].rig := now] else old(failed)
      ensures nothing == if outcome == Clean && TookNothing(old(flying)[which], after)
                         then old(nothing)[old(flying)[which].rig := Note(now, after.queues[old(flying)[which].rig])]
                         else old(nothing)
      ensures StartsIn(history) == StartsIn(old(history))
      ensures EndsIn(history) == EndsIn(old(history)) + [old(flying)[which].rig]
    {
      hide *;
      ValidMeans();
      var d := flying[which];
      flying := flying[..which] + flying[which + 1..];
      untold := untold + 1;
      ghost var e := Ended(d.rig, now, outcome);
      LawfulAdd(rules, history, failed, nothing, now, e);
      RemembersAdd(history, failed, nothing, now, e);
      InAdd(history, e);
      history := history + [e];
      if outcome == Broke {
        failed := failed[d.rig := now];
      }
      if outcome == Clean {
        var took := TookNothing(d, after);
        TookMeans(d, after);
        if took {
          ghost var n := Noted(d.rig, now, after.queues[d.rig].ids);
          LawfulAdd(rules, history, failed, nothing, now, n);
          RemembersAdd(history, failed, nothing, now, n);
          InAdd(history, n);
          nothing := nothing[d.rig := Note(now, after.queues[d.rig])];
          history := history + [n];
        }
      }
      ValidMeans();
    }

    /** One rig's queue: whether it is to be landed now. */
    method Consider(rig: string, q: Queue, held: bool) returns (wanted: bool)
      requires Valid()
      modifies `nothing, `history
      ensures Valid()
      ensures wanted <==> Wanted(rules, failed, old(nothing), now, held, rig, q)
      ensures nothing == if Forgets(rules, failed, old(nothing), now, held, rig, q) then old(nothing) - {rig} else old(nothing)
      ensures wanted ==> Ready(rules, failed, nothing, now, rig)
      ensures StartsIn(history) == StartsIn(old(history)) && EndsIn(history) == EndsIn(old(history))
    {
      if rig !in rules || BacksOff(rules, failed, now, held, rig) {
        return false;
      }
      if rig in nothing {
        if nothing[rig].queue.ids != q.ids {
          Forget(rig);
        } else if now - nothing[rig].at < rules[rig].every {
          return false;
        }
      }
      return rules[rig].each || BatchDue(rules[rig], |q.ids|, q.oldest, now);
    }

    /** The rigs whose queue is to be landed now, in name order. */
    method FindDue(look: Look) returns (due: seq<Due>)
      requires Valid()
      modifies `nothing, `history
      ensures Valid() && InOrder(due)
      ensures !look.Read? ==> due == [] && nothing == old(nothing)
      ensures look.Read? ==> AllDue(due, rules, failed, old(nothing), now, look.held, look.queues, {})
      ensures look.Read? ==> nothing == Kept(rules, failed, old(nothing), now, look.held, look.queues, {})
      ensures AllReady(due, rules, failed, nothing, now)
      ensures StartsIn(history) == StartsIn(old(history)) && EndsIn(history) == EndsIn(old(history))
    {
      hide *;
      due := [];
      NoneDue(look, nothing);
      if !look.Read? {
        return;
      }
      var left := look.queues.Keys;
      while left != {}
        invariant left <= look.queues.Keys
        invariant Valid() && InOrder(due) && ComeBefore(due, left)
        invariant AllDue(due, rules, failed, old(nothing), now, look.held, look.queues, left)
        invariant nothing == Kept(rules, failed, old(nothing), now, look.held, look.queues, left)
        invariant AllReady(due, rules, failed, nothing, now)
        invariant StartsIn(history) == StartsIn(old(history)) && EndsIn(history) == EndsIn(old(history))
        decreases |left|
      {
        var name := FirstOf(left);
        var q := look.queues[name];
        ghost var before := nothing;
        ConsiderAdds(look, old(nothing), left, name, due);
        var wanted := Consider(name, q, look.held);
        left := left - {name};
        ReadyStays(due, before, name);
        if wanted {
          AddReady(due, Due(name, rules[name].each, q));
          due := due + [Due(name, rules[name].each, q)];
        }
      }
    }

    /** Time goes by. */
    method Wait(elapsed: nat)
      requires Valid()
      modifies `now
      ensures Valid() && now == old(now) + elapsed
    {
      now := now + elapsed;
    }

    /** Starts the landings a pass begins with, those adopted first, until it is stopped. */
    method StartFirsts(firsts: seq<Due>, adopted: nat, stopAt: nat)
      requires Valid() && adopted <= |firsts|
      requires AllReady(firsts[adopted..], rules, failed, nothing, now)
      requires started == {} && flying == []
      modifies `started, `flying, `history
      ensures Valid()
      ensures flying == FirstFew(firsts, stopAt)
      ensures forall r :: r in started <==> r in RigsOf(flying)
      ensures StartsIn(history) == StartsIn(old(history)) + RigsOf(flying) && EndsIn(history) == EndsIn(old(history))
    {
      hide *;
      var n := if stopAt < |firsts| then stopAt else |firsts|;
      FewMeans(firsts, stopAt);
      for i := 0 to n
        invariant Valid() && flying == firsts[..i]
        invariant forall r :: r in started <==> r in RigsOf(flying)
        invariant StartsIn(history) == StartsIn(old(history)) + RigsOf(flying) && EndsIn(history) == EndsIn(old(history))
      {
        if i >= adopted {
          assert firsts[adopted..][i - adopted] == firsts[i];
          ReadyOne(firsts[adopted..], firsts[i]);
        }
        RigsAdd(flying, firsts[i]);
        Start(firsts[i], i < adopted);
      }
    }

    lemma ReadyOne(due: seq<Due>, d: Due)
      requires AllReady(due, rules, failed, nothing, now) && d in due
      ensures Ready(rules, failed, nothing, now, d.rig)
    {
    }

    /** Starts, of the rigs that have fallen due since, each that this pass has not started. */
    method StartUnstarted(again: seq<Due>) returns (ghost more: seq<string>)
      requires Valid() && AllReady(again, rules, failed, nothing, now)
      modifies `started, `flying, `history
      ensures Valid() && Distinct(more)
      ensures forall r :: r in started <==> r in old(started) || r in more
      ensures forall r :: r in more ==> r !in old(started)
      ensures forall r :: r in RigsOf(again) ==> r in started
      ensures StartsIn(history) == StartsIn(old(history)) + more && EndsIn(history) == EndsIn(old(history))
      ensures RigsOf(flying) == RigsOf(old(flying)) + more
    {
      hide *;
      more := [];
      NoneDistinct();
      for i := 0 to |again|
        invariant Valid() && Distinct(more)
        invariant forall r :: r in started <==> r in old(started) || r in more
        invariant forall r :: r in more ==> r !in old(started)
        invariant forall k :: 0 <= k < i ==> again[k].rig in started
        invariant StartsIn(history) == StartsIn(old(history)) + more && EndsIn(history) == EndsIn(old(history))
        invariant RigsOf(flying) == RigsOf(old(flying)) + more
      {
        if again[i].rig !in started {
          ReadyOne(again, again[i]);
          RigsAdd(flying, again[i]);
          DistinctAdd(more, again[i].rig);
          Start(again[i], false);
          more := more + [again[i].rig];
        }
      }
    }

    /** One pass: it lands each rig that is due or whose landing is pending, and while a landing runs looks again. */
    method Pass(look: Look, pending: Option<seq<string>>, here: set<string>, home: bool, stopAt: nat, steps: seq<Step>)
      returns (over: bool, ghost due: seq<Due>, ghost adopted: seq<Due>, ghost began: seq<string>)
      requires Valid()
      modifies this
      ensures Valid()
      // It starts each rig whose landing is pending and that is not due already, then what is due.
      ensures adopted == if pending.Some? && home then AdoptedOf(pending.value, here, due) else []
      ensures if look.Read? then AllDue(due, rules, old(failed), old(nothing), old(now), look.held, look.queues, {})
              else due == []
      ensures RigsOf(FirstFew(adopted + due, stopAt)) <= began
      // Landings pending are named once each by their port, and each rig is then started once in a pass: exactly
      // when what the pass adopts names none twice.
      ensures (pending.Some? ==> Distinct(pending.value)) ==> Distinct(began)
      ensures Distinct(began) <==> Distinct(RigsOf(FirstFew(adopted, stopAt)))
      ensures StartsIn(history) == StartsIn(old(history)) + began
      // A pass is over only when every landing it started has ended.
      ensures over ==> multiset(EndsIn(history)) == multiset(EndsIn(old(history))) + multiset(began)
      ensures over <==> flying == [] && untold == 0
      // And it goes on until then: every step there is is taken.
      ensures !over ==> now == old(now) + ElapsedIn(steps)
    {
      hide *;
      due, adopted := BeginPass(look, pending, here, home, stopAt);
      NoneDistinct();
      if pending.Some? && Distinct(pending.value) {
        PendingOnceIsStartedOnce(pending.value, here, due);
      }
      FewAreDistinct(adopted, stopAt);
      ghost var first := RigsOf(flying);
      var more := TakeSteps(steps);
      DistinctConcat(first, more);
      began := first + more;
      over := |flying| + untold == 0;
      if over {
        assert RigsOf(flying) == [];
        assert multiset(EndsIn(history)) == multiset(EndsIn(history)) + multiset(RigsOf(flying));
      }
    }

    /** The landings a pass begins with. */
    method BeginPass(look: Look, pending: Option<seq<string>>, here: set<string>, home: bool, stopAt: nat)
      returns (ghost due: seq<Due>, ghost adopted: seq<Due>)
      requires Valid()
      modifies this
      ensures Valid() && now == old(now) && untold == 0
      ensures adopted == if pending.Some? && home then AdoptedOf(pending.value, here, due) else []
      ensures if look.Read? then AllDue(due, rules, old(failed), old(nothing), old(now), look.held, look.queues, {})
              else due == []
      ensures flying == FirstFew(adopted + due, stopAt) && forall r :: r in started <==> r in RigsOf(flying)
      ensures Distinct(RigsOf(flying)) <==> Distinct(RigsOf(FirstFew(adopted, stopAt)))
      ensures StartsIn(history) == StartsIn(old(history)) + RigsOf(flying) && EndsIn(history) == EndsIn(old(history))
    {
      hide *;
      var dues := FindDue(look);
      var adopts: seq<Due> := [];
      if pending.Some? && home {
        adopts := Adopt(pending.value, here, dues);
        AllNew(pending.value, here, dues);
      }
      due, adopted := dues, adopts;
      assert (adopts + dues)[|adopts|..] == dues;
      FirstsDistinct(adopts, dues, stopAt);
      started, flying, untold := {}, [], 0;
      StartFirsts(adopts + dues, |adopts|, stopAt);
    }

    /** The steps of a pass, as long as a landing runs whose end is not told. */
    method TakeSteps(steps: seq<Step>) returns (ghost more: seq<string>)
      requires Valid()
      modifies this
      ensures Valid() && Distinct(more) && forall r :: r in more ==> r !in old(started)
      ensures StartsIn(history) == StartsIn(old(history)) + more
      ensures multiset(EndsIn(history)) + multiset(RigsOf(flying)) ==
              multiset(EndsIn(old(history))) + multiset(RigsOf(old(flying))) + multiset(more)
      ensures |flying| + untold > 0 ==> now == old(now) + ElapsedIn(steps)
    {
      hide *;
      NoneDistinct();
      ElapsedMeans([], Told);
      more := [];
      var i := 0;
      while |flying| + untold > 0 && i < |steps|
        invariant i <= |steps| && now == old(now) + ElapsedIn(steps[..i])
        invariant Valid() && Distinct(more)
        invariant forall r :: r in started <==> r in old(started) || r in more
        invariant forall r :: r in more ==> r !in old(started)
        invariant StartsIn(history) == StartsIn(old(history)) + more
        invariant multiset(EndsIn(history)) + multiset(RigsOf(flying)) ==
                  multiset(EndsIn(old(history))) + multiset(RigsOf(old(flying))) + multiset(more)
        decreases |steps| - i
      {
        ElapsedMeans(steps[..i], steps[i]);
        assert steps[..i + 1] == steps[..i] + [steps[i]];
        var newly := Advance(steps[i]);
        DistinctConcat(more, newly);
        more := more + newly;
        i := i + 1;
      }
      assert |flying| + untold > 0 ==> steps[..i] == steps;
    }

    /** One step of a pass. */
    method Advance(step: Step) returns (ghost more: seq<string>)
      requires Valid()
      modifies this
      ensures Valid() && Distinct(more)
      ensures forall r :: r in started <==> r in old(started) || r in more
      ensures forall r :: r in more ==> r !in old(started)
      ensures StartsIn(history) == StartsIn(old(history)) + more
      ensures multiset(EndsIn(history)) + multiset(RigsOf(flying)) ==
              multiset(EndsIn(old(history))) + multiset(RigsOf(old(flying))) + multiset(more)
      ensures !step.LooksAgain? || step.cancelled ==> more == []
      // A look again starts every rig that is due by then and has not been started.
      ensures step.LooksAgain? && !step.cancelled && step.look.Read? ==>
                AllStarted(rules, failed, old(nothing), now, step.look.held, step.look.queues, started)
      ensures now == old(now) + ElapsedIn([step])
      ensures step.Ends? && old(flying) != [] ==> |flying| == |old(flying)| - 1 && untold == old(untold) + 1
    {
      hide *;
      NoneDistinct();
      ElapsedMeans([], step);
      more := [];
      match step {
        case Ends(which, outcome, after, elapsed) =>
          Wait(elapsed);
          if flying != [] {
            var w := which % |flying|;
            RigsLess(flying, w);
            End(w, outcome, after);
          }
        case Told =>
          if untold > 0 {
            untold := untold - 1;
          }
        case LooksAgain(look, cancelled, elapsed) =>
          Wait(elapsed);
          if !cancelled {
            ghost var nothing0 := nothing;
            var again := FindDue(look);
            more := StartUnstarted(again);
            DueAreFound(look, again, nothing0);
          }
      }
    }

    lemma DueAreFound(look: Look, again: seq<Due>, was: map<string, Note>)
      requires look.Read? ==> AllDue(again, rules, failed, was, now, look.held, look.queues, {})
      requires forall r :: r in RigsOf(again) ==> r in started
      ensures look.Read? ==> AllStarted(rules, failed, was, now, look.held, look.queues, started)
    {
      hide BatchDue, BacksOff;
      if look.Read? {
        forall r | r in look.queues && Wanted(rules, failed, was, now, look.held, r, look.queues[r]) ensures r in started {
          var d := Due(r, rules[r].each, look.queues[r]);
          var i :| 0 <= i < |again| && again[i] == d;
          assert RigsOf(again)[i] == r;
        }
      }
    }

    lemma NoneDue(look: Look, nothing': map<string, Note>)
      ensures InOrder([]) && AllReady([], rules, failed, nothing', now)
      ensures look.Read? ==>
                && ComeBefore([], look.queues.Keys)
                && AllDue([], rules, failed, nothing', now, look.held, look.queues, look.queues.Keys)
                && Kept(rules, failed, nothing', now, look.held, look.queues, look.queues.Keys) == nothing'
    {
    }

    lemma ReadyStays(due: seq<Due>, before: map<string, Note>, name: string)
      requires nothing == before || nothing == before - {name}
      ensures AllReady(due, rules, failed, before, now) ==> AllReady(due, rules, failed, nothing, now)
    {
    }

    lemma AddReady(due: seq<Due>, d: Due)
      requires AllReady(due, rules, failed, nothing, now) && Ready(rules, failed, nothing, now, d.rig)
      ensures AllReady(due + [d], rules, failed, nothing, now)
      ensures d.rig in rules
    {
    }

    /** What looking at the first of the rigs left changes. */
    lemma ConsiderAdds(look: Look, was: map<string, Note>, left: set<string>, name: string, due: seq<Due>)
      requires look.Read? && left <= look.queues.Keys && name in left
      requires forall n :: n in left ==> n == name || TextBefore(name, n)
      requires nothing == Kept(rules, failed, was, now, look.held, look.queues, left)
      requires AllDue(due, rules, failed, was, now, look.held, look.queues, left)
      requires InOrder(due) && ComeBefore(due, left)
      ensures var q := look.queues[name];
              var wanted := Wanted(rules, failed, nothing, now, look.held, name, q);
              var d := Due(name, if name in rules then rules[name].each else false, q);
              var due' := if wanted then due + [d] else due;
              && (wanted ==> name in rules)
              && InOrder(due') && ComeBefore(due', left - {name})
              && AllDue(due', rules, failed, was, now, look.held, look.queues, left - {name})
              && Kept(rules, failed, was, now, look.held, look.queues, left - {name}) ==
                 if Forgets(rules, failed, nothing, now, look.held, name, q) then nothing - {name} else nothing
    {
      hide *;
      var q := look.queues[name];
      var d := Due(name, if name in rules then rules[name].each else false, q);
      OrderAdds(due, d, left);
      KeptAdds(look, was, left, name);
      DueAdds(look, was, left, name, due);
    }

    lemma KeptAdds(look: Look, was: map<string, Note>, left: set<string>, name: string)
      requires look.Read? && left <= look.queues.Keys && name in left
      requires nothing == Kept(rules, failed, was, now, look.held, look.queues, left)
      ensures var q := look.queues[name];
              && Kept(rules, failed, was, now, look.held, look.queues, left - {name}) ==
                 (if Forgets(rules, failed, nothing, now, look.held, name, q) then nothing - {name} else nothing)
              && (Wanted(rules, failed, nothing, now, look.held, name, q) <==>
                  Wanted(rules, failed, was, now, look.held, name, q))
    {
      hide BatchDue, BacksOff;
      assert name in nothing <==> name in was;
      assert name in nothing ==> nothing[name] == was[name];
    }

    lemma DueAdds(look: Look, was: map<string, Note>, left: set<string>, name: string, due: seq<Due>)
      requires look.Read? && left <= look.queues.Keys && name in left
      requires AllDue(due, rules, failed, was, now, look.held, look.queues, left)
      requires Wanted(rules, failed, nothing, now, look.held, name, look.queues[name]) <==>
               Wanted(rules, failed, was, now, look.held, name, look.queues[name])
      ensures var q := look.queues[name];
              var wanted := Wanted(rules, failed, nothing, now, look.held, name, q);
              && (wanted ==> name in rules)
              && AllDue(if wanted then due + [Due(name, rules[name].each, q)] else due,
                        rules, failed, was, now, look.held, look.queues, left - {name})
    {
      hide BatchDue, BacksOff;
    }
  }

  lemma OrderAdds(due: seq<Due>, d: Due, left: set<string>)
    requires InOrder(due) && ComeBefore(due, left) && d.rig in left
    requires forall n :: n in left ==> n == d.rig || TextBefore(d.rig, n)
    ensures InOrder(due + [d]) && ComeBefore(due + [d], left - {d.rig}) && ComeBefore(due, left - {d.rig})
  {
    hide TextBefore;
  }

  /** The time that goes by in the steps. */
  function ElapsedIn(steps: seq<Step>): nat {
    if steps == [] then 0
    else ElapsedIn(steps[..|steps| - 1]) + if steps[|steps| - 1].Told? then 0 else steps[|steps| - 1].elapsed
  }

  lemma ElapsedMeans(steps: seq<Step>, step: Step)
    ensures ElapsedIn(steps + [step]) == ElapsedIn(steps) + if step.Told? then 0 else step.elapsed
    ensures ElapsedIn([]) == 0 && ElapsedIn([step]) == if step.Told? then 0 else step.elapsed
  {
    assert (steps + [step])[..|steps|] == steps && [step][..0] == [];
  }

  lemma RigsAdd(due: seq<Due>, d: Due)
    ensures RigsOf(due + [d]) == RigsOf(due) + [d.rig]
  {
  }

  lemma RigsLess(due: seq<Due>, w: nat)
    requires w < |due|
    ensures multiset(RigsOf(due)) == multiset(RigsOf(due[..w] + due[w + 1..])) + multiset{due[w].rig}
  {
    var rigs := RigsOf(due);
    assert RigsOf(due[..w] + due[w + 1..]) == rigs[..w] + rigs[w + 1..];
    assert rigs == rigs[..w] + [due[w].rig] + rigs[w + 1..];
  }

  lemma NoneDistinct()
    ensures Distinct([])
  {
  }

  lemma DistinctAdd(names: seq<string>, name: string)
    requires name !in names
    ensures Distinct(names + [name]) <==> Distinct(names)
  {
    if Distinct(names + [name]) {
      assert (names + [name])[..|names|] == names;
      forall i, j | 0 <= i < j < |names| ensures names[i] != names[j] {
        assert (names + [name])[i] != (names + [name])[j];
      }
    }
  }

  lemma {:induction false} DistinctConcat(names: seq<string>, more: seq<string>)
    requires Distinct(more) && forall r :: r in more ==> r !in names
    ensures Distinct(names + more) <==> Distinct(names)
  {
    if more == [] {
      assert names + more == names;
    } else {
      var n := |more| - 1;
      DistinctConcat(names, more[..n]);
      assert names + more == (names + more[..n]) + [more[n]];
      DistinctAdd(names + more[..n], more[n]);
    }
  }

  function FirstFew(due: seq<Due>, n: nat): seq<Due> {
    if n < |due| then due[..n] else due
  }

  lemma FewMeans(due: seq<Due>, n: nat)
    ensures FirstFew(due, n) == due[..if n < |due| then n else |due|]
  {
  }

  // ----- The landings pending -----

  /** The pending landings to wait for first: those of this host's rigs that are not due already. */
  function AdoptedOf(names: seq<string>, here: set<string>, due: seq<Due>): seq<Due> {
    if names == [] then []
    else
      var n := |names| - 1;
      AdoptedOf(names[..n], here, due) +
      if names[n] in here && names[n] !in RigsOf(due) then [Due(names[n], false, Queue(0, []))] else []
  }

  method Adopt(names: seq<string>, here: set<string>, due: seq<Due>) returns (adopted: seq<Due>)
    ensures adopted == AdoptedOf(names, here, due)
  {
    adopted := [];
    for i := 0 to |names|
      invariant adopted == AdoptedOf(names[..i], here, due)
    {
      AdoptedAdd(names[..i], names[i], here, due);
      assert names[..i + 1] == names[..i] + [names[i]];
      if names[i] in here && names[i] !in RigsOf(due) {
        adopted := adopted + [Due(names[i], false, Queue(0, []))];
      }
    }
    assert names[..|names|] == names;
  }

  lemma {:induction false} AdoptedAreNew(names: seq<string>, here: set<string>, due: seq<Due>, d: Due)
    requires d in AdoptedOf(names, here, due)
    ensures d.rig in names && d.rig in here && d.rig !in RigsOf(due)
  {
    var n := |names| - 1;
    if d in AdoptedOf(names[..n], here, due) {
      AdoptedAreNew(names[..n], here, due, d);
    }
  }

  lemma AllNew(names: seq<string>, here: set<string>, due: seq<Due>)
    ensures forall d :: d in AdoptedOf(names, here, due) ==> d.rig !in RigsOf(due)
  {
    forall d | d in AdoptedOf(names, here, due) ensures d.rig !in RigsOf(due) {
      AdoptedAreNew(names, here, due, d);
    }
  }

  /** A pass begins with each rig once exactly when what it adopts names none twice. */
  lemma FirstsDistinct(adopted: seq<Due>, due: seq<Due>, n: nat)
    requires InOrder(due) && forall d :: d in adopted ==> d.rig !in RigsOf(due)
    ensures Distinct(RigsOf(FirstFew(adopted + due, n))) <==> Distinct(RigsOf(FirstFew(adopted, n)))
  {
    var adopted' := FirstFew(adopted, n);
    var due' := if n < |adopted| then [] else FirstFew(due, n - |adopted|);
    assert FirstFew(adopted + due, n) == adopted' + due';
    var names, more := RigsOf(adopted'), RigsOf(due');
    assert RigsOf(adopted' + due') == names + more;
    forall i, j | 0 <= i < j < |more| ensures more[i] != more[j] {
      assert TextBefore(due[i].rig, due[j].rig);
      TextOrder(due[i].rig, due[i].rig, due[i].rig);
    }
    forall r | r in more ensures r !in names {
      var i :| 0 <= i < |more| && more[i] == r;
      assert RigsOf(due)[i] == r;
    }
    DistinctConcat(names, more);
  }

  /** Pending landings each named once are adopted each once. */
  lemma {:induction false} PendingOnceIsStartedOnce(names: seq<string>, here: set<string>, due: seq<Due>)
    requires Distinct(names)
    ensures Distinct(RigsOf(AdoptedOf(names, here, due)))
  {
    if names != [] {
      var n := |names| - 1;
      PendingOnceIsStartedOnce(names[..n], here, due);
      var adopted := AdoptedOf(names[..n], here, due);
      forall d | d in adopted ensures d.rig != names[n] {
        AdoptedAreNew(names[..n], here, due, d);
        var i :| 0 <= i < n && names[..n][i] == d.rig;
        assert names[i] != names[n];
      }
      assert names[n] !in RigsOf(adopted);
      DistinctAdd(RigsOf(adopted), names[n]);
      assert RigsOf(adopted + [Due(names[n], false, Queue(0, []))]) == RigsOf(adopted) + [names[n]];
    }
  }

  lemma FewAreDistinct(due: seq<Due>, n: nat)
    ensures Distinct(RigsOf(due)) ==> Distinct(RigsOf(FirstFew(due, n)))
    ensures RigsOf([]) == []
  {
    if Distinct(RigsOf(due)) && n < |due| {
      forall i, j | 0 <= i < j < n ensures RigsOf(due[..n])[i] != RigsOf(due[..n])[j] {
        assert RigsOf(due)[i] != RigsOf(due)[j];
      }
    }
  }

  /** A rig pending twice and not due is started twice in the pass. */
  lemma PendingTwiceIsStartedTwice(rig: string, here: set<string>, due: seq<Due>)
    requires rig in here && rig !in RigsOf(due)
    ensures !Distinct(RigsOf(FirstFew(AdoptedOf([rig, rig], here, due), 2)))
  {
    hide *;
    var one := Due(rig, false, Queue(0, []));
    AdoptedAdd([], rig, here, due);
    AdoptedAdd([rig], rig, here, due);
    assert [] + [rig] == [rig] && [rig] + [rig] == [rig, rig];
    assert [] + [one] == [one] && [one] + [one] == [one, one];
    TwiceIsNotDistinct(one);
  }

  lemma AdoptedAdd(names: seq<string>, name: string, here: set<string>, due: seq<Due>)
    ensures AdoptedOf(names + [name], here, due) ==
            AdoptedOf(names, here, due) +
            if name in here && name !in RigsOf(due) then [Due(name, false, Queue(0, []))] else []
    ensures AdoptedOf([], here, due) == []
  {
    assert (names + [name])[..|names|] == names;
  }

  lemma TwiceIsNotDistinct(d: Due)
    ensures !Distinct(RigsOf(FirstFew([d, d], 2)))
  {
    assert RigsOf([d, d])[0] == RigsOf([d, d])[1];
  }

  // ----- One rig's landing -----

  datatype Drained = Landed | LandFailed | QueueUnread | LeftAsLong(remaining: nat)

  /** What the n-th mw land of a rig comes to: whether it lands, and how many are queued after it. */
  datatype Lands = Lands(ends: nat -> bool, queuedAfter: nat -> Option<nat>)

  /** Lands the queue of one rig: all of it at once, or one story at a time until none is left. */
  method LandRig(each: bool, queued: nat, ports: Lands) returns (result: Drained, ghost lefts: seq<nat>, landings: nat)
    ensures !each ==> landings == 1 && (result == Landed <==> ports.ends(0)) && result in {Landed, LandFailed}
    // Every landing but a last one that stops it leaves fewer, so a drain ends after at most `queued` of them.
    ensures each ==> lefts != [] && lefts[0] == queued && landings <= queued
    ensures each ==> forall k :: 0 <= k < |lefts| - 1 ==>
              lefts[k + 1] < lefts[k] && ports.ends(k) && ports.queuedAfter(k) == Some(lefts[k + 1])
    // It is said to have landed exactly when none is left, and otherwise what stopped it is said.
    ensures each ==> var n := |lefts| - 1;
              && (result == Landed <==> lefts[n] == 0)
              && landings == (if result == Landed then n else n + 1)
              && (result == LandFailed <==> lefts[n] > 0 && !ports.ends(n))
              && (result == QueueUnread <==> lefts[n] > 0 && ports.ends(n) && ports.queuedAfter(n) == None)
              && (result.LeftAsLong? ==>
                   ports.ends(n) && ports.queuedAfter(n) == Some(result.remaining) && result.remaining >= lefts[n])
  {
    lefts, landings := [queued], 0;
    if !each {
      return if ports.ends(0) then Landed else LandFailed, lefts, 1;
    }
    var left := queued;
    while left > 0
      invariant |lefts| == landings + 1 && lefts[0] == queued && lefts[landings] == left && left + landings <= queued
      invariant forall k :: 0 <= k < landings ==>
                  lefts[k + 1] < lefts[k] && ports.ends(k) && ports.queuedAfter(k) == Some(lefts[k + 1])
      invariant forall k :: 0 <= k < landings ==> lefts[k] > 0
    {
      var k := landings;
      landings := landings + 1;
      if !ports.ends(k) {
        return LandFailed, lefts, landings;
      }
      if ports.queuedAfter(k) == None {
        return QueueUnread, lefts, landings;
      }
      var remaining := ports.queuedAfter(k).value;
      if remaining >= left {
        return LeftAsLong(remaining), lefts, landings;
      }
      left, lefts := remaining, lefts + [remaining];
    }
    return Landed, lefts, landings;
  }
}
