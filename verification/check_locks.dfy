/** What a worktree check holds around the rig's tests: the merge slot shared, then the host's gate lock. */
module CheckLocks {
  import opened BatchQueue

  /** What the waits for the slot and the lock come to, each given a bound; a wait never outlasts its bound. Only a
      check that keeps its place in the lock's queue has that ask whether the gate fits. */
  datatype Ports = Ports(
    hasSlot: bool, hasLock: bool, keepsPlace: bool,
    slotTaken: bool, slotWait: nat, lockTaken: bool, lockWait: nat)

  /** Whether the gate fits what is left of a Builder's call. */
  datatype CallFit = CallFit(began: int, budget: int, expected: int)

  datatype Refusal = SlotHeld | LockHeld | TooLate

  datatype Turn = Turn(slot: bool, lock: bool)

  function Max(a: int, b: int): int {
    if a >= b then a else b
  }

  function Left(fit: CallFit, now: int): int {
    Max(fit.budget - (now - fit.began), 0)
  }

  predicate Late(fit: CallFit, now: int) {
    fit.expected < fit.budget && fit.expected > Left(fit, now)
  }

  /** A check that is given a call to keep to finds the gate too late for it. */
  predicate LateIn(fit: Option<CallFit>, now: int) {
    fit.Some? && Late(fit.value, now)
  }

  /** A gate found too late for its call fits a fresh one; once late it stays late; and one that no call fits is
      never late, but started as it always was. */
  lemma LateFitsAFreshCall(fit: CallFit, now: int, later: int)
    requires fit.expected > 0 && now <= later
    ensures Late(fit, now) ==> Late(fit, later) && !Late(fit.(began := later), later)
    ensures fit.expected >= fit.budget ==> !Late(fit, now)
    ensures !Late(fit, now) && fit.expected < fit.budget ==> now + fit.expected <= fit.began + fit.budget
  {
  }

  /** Locks as this check holds them, and the time it has spent waiting for them. */
  class Locks {
    var slot: bool
    var lock: bool
    var now: int

    constructor ()
      ensures !slot && !lock
    {
      slot, lock, now := false, false, 0;
    }

    /** A wait of no more than `within`: none at all still tries once. */
    method TakeSlot(ports: Ports, within: nat) returns (ok: bool)
      requires !slot
      modifies `slot, `now
      ensures ok <==> ports.slotTaken
      ensures slot == ok && old(now) <= now <= old(now) + within
    {
      now := now + if ports.slotWait <= within then ports.slotWait else within;
      slot := ports.slotTaken;
      return ports.slotTaken;
    }

    /** The lock's queue asks, once the lock is won, whether the gate still fits the call. */
    method TakeLock(ports: Ports, within: nat, fit: Option<CallFit>) returns (refused: Option<Refusal>)
      requires !lock
      modifies `lock, `now
      ensures refused ==
              if !ports.lockTaken then Some(LockHeld)
              else if ports.keepsPlace && LateIn(fit, now) then Some(TooLate)
              else None
      ensures lock == (refused == None) && old(now) <= now <= old(now) + within
    {
      now := now + if ports.lockWait <= within then ports.lockWait else within;
      if !ports.lockTaken {
        return Some(LockHeld);
      }
      if ports.keepsPlace && LateIn(fit, now) {
        return Some(TooLate);
      }
      lock := true;
      return None;
    }

    /** Takes what a run of the rig's tests holds, the slot first, both within the one bound. */
    method TakeForTests(ports: Ports, within: nat, fit: Option<CallFit>) returns (refused: Option<Refusal>, turn: Turn)
      requires !slot && !lock
      modifies this
      // A check that is refused holds nothing, and one that is not holds what it gives back, which is all there is.
      ensures refused.Some? ==> !slot && !lock
      ensures refused.None? ==> turn == Turn(slot, lock) && slot == ports.hasSlot && lock == ports.hasLock
      ensures refused ==
              if ports.hasSlot && !ports.slotTaken then Some(SlotHeld)
              else if ports.hasLock && !ports.lockTaken then Some(LockHeld)
              else if ports.hasLock && ports.keepsPlace && LateIn(fit, now) then Some(TooLate)
              else None
      // A gate that could fit a call, and was asked of with the lock, fits what is left of this one.
      ensures refused.None? && lock && ports.keepsPlace && fit.Some? && 0 < fit.value.expected < fit.value.budget ==>
                now + fit.value.expected <= fit.value.began + fit.value.budget
      // Both waits together stay within the bound.
      ensures old(now) <= now <= old(now) + within
    {
      turn := Turn(false, false);
      var began := now;
      if ports.hasSlot {
        var ok := TakeSlot(ports, within);
        if !ok {
          return Some(SlotHeld), turn;
        }
        turn := turn.(slot := true);
      }
      if !ports.hasLock {
        return None, turn;
      }
      refused := TakeLock(ports, Max(within - (now - began), 0), fit);
      if refused.Some? {
        if turn.slot {
          slot := false;
        }
        return;
      }
      turn := turn.(lock := true);
    }

    /** Gives back both, the lock first. */
    method Release(turn: Turn)
      requires turn == Turn(slot, lock)
      modifies `slot, `lock
      ensures !slot && !lock
    {
      if turn.lock {
        lock := false;
      }
      if turn.slot {
        slot := false;
      }
    }

    /** One run of the tests under what it takes, the fit asked again once the host is calm: a gate that no longer
        fits is not run, and the check ends holding nothing either way. */
    method RunTests(ports: Ports, within: nat, fit: Option<CallFit>, calm: nat)
      returns (ran: bool, refused: Option<Refusal>)
      requires !slot && !lock && (fit.Some? ==> fit.value.expected > 0)
      modifies this
      ensures !slot && !lock
      ensures ran <==> refused == None
      ensures ran <==> (ports.hasSlot ==> ports.slotTaken) && (ports.hasLock ==> ports.lockTaken) && !LateIn(fit, now)
      ensures ran && fit.Some? && fit.value.expected < fit.value.budget ==>
                now + fit.value.expected <= fit.value.began + fit.value.budget
      ensures old(now) <= now <= old(now) + within + calm
    {
      var turn;
      refused, turn := TakeForTests(ports, within, fit);
      if refused.Some? {
        return false, refused;
      }
      now := now + calm;
      if LateIn(fit, now) {
        Release(turn);
        return false, Some(TooLate);
      }
      Release(turn);
      return true, None;
    }
  }
}

/** Checks and landings on one host that wait for each other: the order they take their locks in. */
module LockOrder {

  /** How a process holds its rig's slot: a check shares it, and a landing has it alone, or shares it in a wait it gave
      it up for. */
  datatype Hold = Shared | Alone | Yielded

  /** What a process is at: each takes its rig's slot and then the host's gate lock, and runs its tests; a landing
      whose lock cannot be taken runs them without it. One that gave its slot up resumes by waiting for it alone, with
      the lock or without. */
  datatype Process =
    | Resting
    | WaitsForSlot(rig: string, landing: bool, ticket: nat)
    | WaitsForLock(rig: string, hold: Hold, ticket: nat)
    | Runs(rig: string, hold: Hold, withLock: bool)
    | Resumes(rig: string, withLock: bool)

  type State = map<nat, Process>

  predicate HoldsSlot(p: Process, rig: string) {
    (p.WaitsForLock? || p.Runs? || p.Resumes?) && p.rig == rig
  }

  predicate HoldsSlotAlone(p: Process, rig: string) {
    (p.WaitsForLock? || p.Runs?) && p.rig == rig && p.hold == Alone
  }

  predicate HoldsLock(p: Process) {
    (p.Runs? || p.Resumes?) && p.withLock
  }

  /** A landing that has its slot, however it holds it. */
  predicate Lands(p: Process) {
    p.Resumes? || ((p.WaitsForLock? || p.Runs?) && p.hold != Shared)
  }

  /** a waits for b: for the slot b holds or is before it in the queue of, or for the lock. */
  predicate WaitsFor(a: Process, b: Process) {
    match a
    case WaitsForSlot(rig, landing, ticket) =>
      || (if landing then HoldsSlot(b, rig) else HoldsSlotAlone(b, rig))
      || (b.WaitsForSlot? && b.rig == rig && b.ticket < ticket)
    case WaitsForLock(_, _, ticket) => HoldsLock(b) || (b.WaitsForLock? && b.ticket < ticket)
    case Resumes(rig, _) => HoldsSlot(b, rig)
    case _ => false
  }

  /** Processes each of which waits for the next. */
  predicate Chain(s: State, path: seq<nat>) {
    && (forall i :: 0 <= i < |path| ==> path[i] in s)
    && forall i :: 0 <= i < |path| - 1 ==> path[i] != path[i + 1] && WaitsFor(s[path[i]], s[path[i + 1]])
  }

  predicate Cycle(s: State, path: seq<nat>) {
    |path| >= 2 && Chain(s, path) && path[0] == path[|path| - 1]
  }

  /** The slot that a landing takes back is no other landing's: it is held by checks only. */
  predicate OneLandingASlot(s: State) {
    forall p, q :: p in s && q in s && p != q && s[p].Resumes? && HoldsSlot(s[q], s[p].rig) ==> !Lands(s[q])
  }

  /** A landing takes its slot back alone while it holds the lock. */
  predicate ResumesWithLock(p: Process) {
    p.Resumes? && p.withLock
  }

  predicate NoneResumesWithLock(s: State) {
    forall p :: p in s ==> !ResumesWithLock(s[p])
  }

  /** h takes the slot back that c holds, and has the lock that c waits for. */
  predicate BlockEachOther(s: State, h: nat, c: nat) {
    h in s && c in s && ResumesWithLock(s[h]) && s[c].WaitsForLock? && s[c].hold == Shared && s[c].rig == s[h].rig
  }

  /** How far a process is from running: but for those that resume with the lock, every wait is for one that is
      nearer. */
  function Rank(p: Process): (nat, nat) {
    match p
    case WaitsForSlot(_, _, ticket) => (3, ticket)
    case Resumes(_, _) => (2, 0)
    case WaitsForLock(_, _, ticket) => (1, ticket)
    case _ => (0, 0)
  }

  predicate Nearer(a: (nat, nat), b: (nat, nat)) {
    a.0 < b.0 || (a.0 == b.0 && a.1 < b.1)
  }

  lemma WaitsForNearer(s: State, p: nat, q: nat)
    requires OneLandingASlot(s) && p in s && q in s && p != q && WaitsFor(s[p], s[q]) && !ResumesWithLock(s[q])
    ensures Nearer(Rank(s[q]), Rank(s[p]))
  {
  }

  lemma {:induction false} ChainsGoNearer(s: State, path: seq<nat>)
    requires OneLandingASlot(s) && Chain(s, path) && |path| >= 2
    requires forall i :: 0 < i < |path| ==> !ResumesWithLock(s[path[i]])
    ensures Nearer(Rank(s[path[|path| - 1]]), Rank(s[path[0]]))
  {
    hide OneLandingASlot, WaitsFor, ResumesWithLock, Rank;
    WaitsForNearer(s, path[0], path[1]);
    if |path| > 2 {
      ChainRest(s, path);
      ChainsGoNearer(s, path[1..]);
    }
  }

  lemma ChainRest(s: State, path: seq<nat>)
    requires Chain(s, path) && |path| >= 2
    ensures Chain(s, path[1..])
  {
    hide WaitsFor;
    forall i | 0 <= i < |path[1..]| - 1
      ensures path[1..][i] != path[1..][i + 1] && WaitsFor(s[path[1..][i]], s[path[1..][i + 1]])
    {
      assert path[1..][i] == path[i + 1] && path[1..][i + 1] == path[i + 2];
    }
  }

  /** One that resumes with the lock, on a circle, waits for a check that waits for the lock. */
  lemma ResumingWaitsForACheck(s: State, path: seq<nat>, i: nat)
    requires OneLandingASlot(s) && Cycle(s, path) && i < |path| && ResumesWithLock(s[path[i]])
    ensures exists k :: 0 <= k < |path| - 1 && BlockEachOther(s, path[k], path[k + 1])
  {
    hide OneLandingASlot, WaitsFor, ResumesWithLock, BlockEachOther;
    var k := if i + 1 < |path| then i else 0;
    assert path[k] == path[i];
    // The one it waits for is on the circle, so it waits too.
    var next := if k + 2 < |path| then k + 1 else 0;
    assert path[next] == path[k + 1] && WaitsFor(s[path[next]], s[path[next + 1]]);
    AlsoWaits(s, path[k], path[k + 1], path[next + 1]);
  }

  lemma AlsoWaits(s: State, h: nat, c: nat, next: nat)
    requires OneLandingASlot(s) && h in s && c in s && next in s && h != c
    requires ResumesWithLock(s[h]) && WaitsFor(s[h], s[c]) && WaitsFor(s[c], s[next])
    ensures BlockEachOther(s, h, c)
  {
  }

  /** Every circle of waits goes from a landing that takes its slot back with the lock to a check that holds that
      slot and waits for the lock, which is a wait with a bound. */
  lemma EveryCircleIsBounded(s: State, path: seq<nat>)
    requires OneLandingASlot(s) && Cycle(s, path)
    ensures exists k :: 0 <= k < |path| - 1 && BlockEachOther(s, path[k], path[k + 1])
  {
    hide OneLandingASlot, WaitsFor, ResumesWithLock, BlockEachOther;
    if i: nat :| i < |path| && ResumesWithLock(s[path[i]]) {
      ResumingWaitsForACheck(s, path, i);
    } else {
      ChainsGoNearer(s, path);
      assert false;
    }
  }

  /** However many checks and landings there are and on however many rigs, some of them wait for each other in a
      circle exactly when a landing takes its slot back alone, holding the lock, from a check that waits for it. */
  lemma CircleExactlyWhen(s: State)
    requires OneLandingASlot(s)
    ensures (exists path :: Cycle(s, path)) <==> (exists h, c :: BlockEachOther(s, h, c))
  {
    hide OneLandingASlot, Cycle, BlockEachOther;
    if path :| Cycle(s, path) {
      EveryCircleIsBounded(s, path);
    }
    if h, c :| BlockEachOther(s, h, c) {
      BlockedIsACircle(s, h, c);
    }
  }

  lemma BlockedIsACircle(s: State, h: nat, c: nat)
    requires BlockEachOther(s, h, c)
    ensures Cycle(s, [h, c, h])
  {
    var path := [h, c, h];
    assert WaitsFor(s[h], s[c]) && WaitsFor(s[c], s[h]);
  }

  /** So landings that do not take their slot back while they hold the lock, and checks, never wait in a circle. */
  lemma NoCircleWithoutTheLock(s: State, path: seq<nat>)
    requires OneLandingASlot(s) && NoneResumesWithLock(s)
    ensures !Cycle(s, path)
  {
    if Cycle(s, path) {
      EveryCircleIsBounded(s, path);
    }
  }

  /** Nor do checks, and landings that keep their slot. */
  lemma NoCircleWithoutYields(s: State, path: seq<nat>)
    requires forall p :: p in s ==> !s[p].Resumes?
    ensures !Cycle(s, path)
  {
    NoCircleWithoutTheLock(s, path);
  }

  /** Whoever waits then, waits for one that waits for nobody and so goes on, through those between. */
  lemma EveryWaitEndsAtOneThatRuns(s: State, p: nat) returns (path: seq<nat>)
    requires OneLandingASlot(s) && NoneResumesWithLock(s) && p in s
    ensures path != [] && path[0] == p && Chain(s, path)
    ensures var last := path[|path| - 1]; forall q :: q in s && q != last ==> !WaitsFor(s[last], s[q])
    decreases Rank(s[p]).0, Rank(s[p]).1
  {
    hide OneLandingASlot, WaitsFor, ResumesWithLock, Rank;
    if q :| q in s && q != p && WaitsFor(s[p], s[q]) {
      WaitsForNearer(s, p, q);
      var rest := EveryWaitEndsAtOneThatRuns(s, q);
      path := [p] + rest;
      forall i | 0 <= i < |path| - 1 ensures path[i] != path[i + 1] && WaitsFor(s[path[i]], s[path[i + 1]]) {
        if i > 0 {
          assert path[i] == rest[i - 1] && path[i + 1] == rest[i];
        }
      }
    } else {
      path := [p];
    }
  }

  // ----- The states there can be -----

  datatype Action =
    | Arrives(p: nat, rig: string, landing: bool, ticket: nat)
    | TakesSlot(p: nat, ticket: nat)
    | TakesLock(p: nat)
    // A landing gives its slot up for a wait: for the lock, for a calm host with the lock, or for its fixer.
    | Yields(p: nat)
    | YieldsToFixer(p: nat)
    | WaitIsOver(p: nat)
    | TakesBack(p: nat, runs: bool, ticket: nat)
    | Ends(p: nat)

  predicate Free(s: State, p: nat, rig: string, landing: bool) {
    forall q :: q in s && q != p ==> if landing then !HoldsSlot(s[q], rig) else !HoldsSlotAlone(s[q], rig)
  }

  function Moved(s: State, p: nat, a: Action): Process
    requires p in s
  {
    match (a, s[p])
    case (TakesSlot(_, ticket), WaitsForSlot(rig, landing, _)) =>
      if Free(s, p, rig, landing) then WaitsForLock(rig, if landing then Alone else Shared, ticket) else s[p]
    case (TakesLock(_), WaitsForLock(rig, hold, _)) =>
      if exists q :: q in s && HoldsLock(s[q]) then s[p]
      else if hold == Yielded then Resumes(rig, true) else Runs(rig, hold, true)
    case (Yields(_), WaitsForLock(rig, Alone, ticket)) => WaitsForLock(rig, Yielded, ticket)
    case (Yields(_), Runs(rig, Alone, withLock)) => Runs(rig, Yielded, withLock)
    case (YieldsToFixer(_), WaitsForLock(rig, Alone, _)) => Resumes(rig, false)
    // The host is calm; or the lock could not be taken.
    case (WaitIsOver(_), Runs(rig, Yielded, withLock)) => Resumes(rig, withLock)
    case (WaitIsOver(_), WaitsForLock(rig, Yielded, _)) => Resumes(rig, false)
    case (WaitIsOver(_), WaitsForLock(rig, Alone, _)) => Runs(rig, Alone, false)
    // It goes on with its tests, or after its fixer to the lock.
    case (TakesBack(_, runs, ticket), Resumes(rig, withLock)) =>
      if !Free(s, p, rig, true) then s[p]
      else if withLock || runs then Runs(rig, Alone, withLock)
      else WaitsForLock(rig, Alone, ticket)
    case (Ends(_), _) => Resting
    case _ => s[p]
  }

  function Next(s: State, a: Action): State {
    if a.Arrives? then
      if a.p in s && s[a.p] != Resting then s else s[a.p := WaitsForSlot(a.rig, a.landing, a.ticket)]
    else if a.p !in s then s
    else s[a.p := Moved(s, a.p, a)]
  }

  function Exec(actions: seq<Action>): State {
    if actions == [] then map[] else Next(Exec(actions[..|actions| - 1]), actions[|actions| - 1])
  }

  /** A slot has one landing at most, and while that holds it alone, nobody else. */
  predicate Apart(s: State) {
    forall p, q :: p in s && q in s && p != q && Lands(s[p]) && HoldsSlot(s[q], s[p].rig) ==>
      !Lands(s[q]) && !HoldsSlotAlone(s[p], s[p].rig)
  }

  /** One process at most holds the lock. */
  predicate OneLock(s: State) {
    forall p, q :: p in s && q in s && HoldsLock(s[p]) && HoldsLock(s[q]) ==> p == q
  }

  lemma StepKeepsApart(s: State, a: Action)
    requires Apart(s)
    ensures Apart(Next(s, a))
  {
    if a.p in s && !a.Arrives? {
      MovedMeans(s, a.p, a);
    }
  }

  /** A process that moves to its slot finds it free of whoever may not share it. */
  lemma MovedMeans(s: State, p: nat, a: Action)
    requires p in s
    ensures var was, now := s[p], Moved(s, p, a);
            && (Lands(now) ==> (Lands(was) && was.rig == now.rig) || Free(s, p, now.rig, true))
            && (!now.Resting? && HoldsSlot(now, now.rig) ==>
                 (HoldsSlot(was, now.rig) && (Lands(now) ==> Lands(was))) || Free(s, p, now.rig, Lands(now)))
            && (!now.Resting? && HoldsSlotAlone(now, now.rig) ==>
                 HoldsSlotAlone(was, now.rig) || Free(s, p, now.rig, true))
  {
  }

  lemma StepKeepsLock(s: State, a: Action)
    requires OneLock(s)
    ensures OneLock(Next(s, a))
  {
    hide HoldsSlot, HoldsSlotAlone, Free;
  }

  /** In every run of any checks and landings on any rigs, a slot has one landing and the lock one holder. */
  lemma {:induction false} RunsKeepApart(actions: seq<Action>)
    ensures Apart(Exec(actions)) && OneLock(Exec(actions))
  {
    hide Apart, OneLock, Next;
    if actions == [] {
      NobodyIsApart();
    } else {
      RunsKeepApart(actions[..|actions| - 1]);
      StepKeepsApart(Exec(actions[..|actions| - 1]), actions[|actions| - 1]);
      StepKeepsLock(Exec(actions[..|actions| - 1]), actions[|actions| - 1]);
    }
  }

  lemma NobodyIsApart()
    ensures Apart(map[]) && OneLock(map[])
  {
  }

  lemma ApartIsOneLanding(s: State)
    requires Apart(s)
    ensures OneLandingASlot(s)
  {
  }

  /** So in every run there is a circle exactly when a landing and a check block each other. */
  lemma RunsCircleExactlyWhen(actions: seq<Action>)
    ensures (exists path :: Cycle(Exec(actions), path)) <==> (exists h, c :: BlockEachOther(Exec(actions), h, c))
  {
    hide *;
    RunsKeepApart(actions);
    ApartIsOneLanding(Exec(actions));
    CircleExactlyWhen(Exec(actions));
  }

  /** A landing that has its slot and waits for the gate lock, and gives the slot up for the wait. */
  function LandingYields(rig: string): seq<Action> {
    [Arrives(0, rig, true, 0), TakesSlot(0, 0), Yields(0)]
  }

  lemma LandingHasYielded(rig: string)
    ensures Exec(LandingYields(rig)) == map[0 := WaitsForLock(rig, Yielded, 0)]
  {
    hide Exec;
    var s1: State := map[0 := WaitsForSlot(rig, true, 0)];
    var s2 := map[0 := WaitsForLock(rig, Alone, 0)];
    NoActions();
    OneMore([], Arrives(0, rig, true, 0), map[], s1);
    var run := [] + [Arrives(0, rig, true, 0)];
    OneMore(run, TakesSlot(0, 0), s1, s2);
    OneMore(run + [TakesSlot(0, 0)], Yields(0), s2, map[0 := WaitsForLock(rig, Yielded, 0)]);
    assert run + [TakesSlot(0, 0)] + [Yields(0)] == LandingYields(rig);
  }

  /** A check then takes the slot shared, and the landing, given the lock, takes its slot back from a check that waits
      for the lock. */
  lemma ResumingCanMakeACircle(rig: string)
    ensures var run := LandingYields(rig) + [Arrives(1, rig, false, 0), TakesSlot(1, 1), TakesLock(0)];
            Cycle(Exec(run), [0, 1, 0])
  {
    hide Exec, Cycle, LandingYields;
    LandingHasYielded(rig);
    var s3 := map[0 := WaitsForLock(rig, Yielded, 0)];
    var s4 := s3[1 := WaitsForSlot(rig, false, 0)];
    var s5 := s3[1 := WaitsForLock(rig, Shared, 1)];
    var s6 := map[0 := Resumes(rig, true), 1 := WaitsForLock(rig, Shared, 1)];
    var run := LandingYields(rig) + [Arrives(1, rig, false, 0)];
    OneMore(LandingYields(rig), Arrives(1, rig, false, 0), s3, s4);
    OneMore(run, TakesSlot(1, 1), s4, s5);
    OneMore(run + [TakesSlot(1, 1)], TakesLock(0), s5, s6);
    assert run + [TakesSlot(1, 1)] + [TakesLock(0)] ==
           LandingYields(rig) + [Arrives(1, rig, false, 0), TakesSlot(1, 1), TakesLock(0)];
    BlockedIsACircle(s6, 0, 1);
  }

  lemma NoActions()
    ensures Exec([]) == map[]
  {
  }

  lemma OneMore(actions: seq<Action>, a: Action, s: State, s': State)
    requires Exec(actions) == s && Next(s, a) == s'
    ensures Exec(actions + [a]) == s'
  {
    assert (actions + [a])[..|actions|] == actions;
  }
}
