/** The home's ticks running staged swaps: processes that share notes and one lock, any of whose note writes may
    fail and any of which may die between two steps. */
module SwapTicks {
  import opened BatchQueue

  /** A hands step: the bead that holds it and its name. */
  datatype Key = Key(bead: string, step: string)

  /** A note asking for a swap, under the rig and commit it is kept by. */
  datatype Swap = Swap(name: string, key: Key)

  datatype Ran = Begun | Exited(exit: int)

  /** Where a tick is with the swap it has come to. */
  datatype Pc =
    | ReadTalk | TakeLock
    | ReadStep | ReadSuperseded | ReadRetired | ReadClosed | ReadRan
    | ClearSwap | WriteBegun | ForgetSwap | RunStep | Running | WriteResult(exit: int)

  datatype Process =
    | Tick(todo: seq<Swap>, at: Pc)
    | InboxBegins(key: Key)
    | InboxRuns(key: Key)
    | InboxRunning(key: Key)
    | InboxRecords(key: Key, exit: int)

  /** The notes, the lock and the processes; `runs`, `taps` and `clears` count what was done to each step, and
      `adrift` are the steps still running whose process has died: a step runs in a process group of its own. */
  datatype State = State(
    swaps: map<string, Key>, steps: set<Key>,
    superseded: set<Key>, retired: set<Key>, closed: set<string>, ran: map<Key, Ran>,
    lock: Option<nat>, processes: map<nat, Process>, adrift: multiset<Key>,
    runs: multiset<Key>, taps: multiset<Key>, clears: multiset<Key>)

  /** What the ports answer a step: a read that fails, a write that fails and may have been made all the same. */
  datatype Answer = Answer(ok: bool, applied: bool, talkOpen: bool, exit: int)

  datatype Action =
    | BeginTick(p: nat, names: seq<string>)
    | BeginInbox(p: nat, key: Key)
    | Go(p: nat, answer: Answer)
    | Die(p: nat)
    | AdriftEnds(key: Key)
    // Notes written by others, none of them under the inbox lock.
    | PutStep(key: Key) | PutSwap(name: string, key: Key) | DropSwap(name: string)
    | Supersede(key: Key) | Retire(key: Key) | CloseBead(bead: string)
    | ClearRan(key: Key) | ClearSuperseded(key: Key) | ClearRetired(key: Key)

  function SwapsOf(swaps: map<string, Key>, names: seq<string>): (todo: seq<Swap>)
    ensures forall s :: s in todo ==> s.name in swaps && swaps[s.name] == s.key
  {
    if names == [] then []
    else (if names[0] in swaps then [Swap(names[0], swaps[names[0]])] else []) + SwapsOf(swaps, names[1..])
  }

  function Without(swaps: map<string, Key>, name: string): map<string, Key> {
    map n | n in swaps && n != name :: swaps[n]
  }

  /** The process holds the inbox lock. */
  predicate Holds(proc: Process) {
    !proc.Tick? || (proc.at != ReadTalk && proc.at != TakeLock)
  }

  /** Nothing but the processes and the lock differs. */
  predicate SameNotes(s: State, s': State) {
    s' == s.(processes := s'.processes, lock := s'.lock)
  }

  function At(s: State, p: nat, todo: seq<Swap>, at: Pc): (s': State)
    ensures SameNotes(s, s') && s'.processes == s.processes[p := Tick(todo, at)]
  {
    s.(processes := s.processes[p := Tick(todo, at)])
  }

  /** The process is over, and the lock it held free. */
  function Ended(s: State, p: nat): (s': State)
    ensures SameNotes(s, s') && s'.processes == s.processes - {p}
  {
    s.(processes := s.processes - {p}, lock := if s.lock == Some(p) then None else s.lock)
  }

  /** The tick lets go of the lock, if it holds it, and comes to the next swap. */
  function OnToNext(s: State, p: nat, todo: seq<Swap>): (s': State)
    requires todo != []
    ensures SameNotes(s, s') && s'.processes - {p} == s.processes - {p}
    ensures p in s'.processes ==> s'.processes[p].Tick? && s'.processes[p].at == ReadTalk
  {
    if |todo| == 1 then Ended(s, p)
    else At(s, p, todo[1..], ReadTalk).(lock := if s.lock == Some(p) then None else s.lock)
  }

  /** A swap that is not to be run: its note goes. */
  function NotRun(s: State, p: nat, todo: seq<Swap>): State {
    At(s, p, todo, ClearSwap)
  }

  function TickStep(s: State, p: nat, todo: seq<Swap>, at: Pc, a: Answer): State
    requires todo != []
  {
    var key := todo[0].key;
    match at
    case ReadTalk => if !a.ok || a.talkOpen then OnToNext(s, p, todo) else At(s, p, todo, TakeLock)
    case TakeLock =>
      if !a.ok || s.lock.Some? then OnToNext(s, p, todo) else At(s, p, todo, ReadStep).(lock := Some(p))
    case ReadStep =>
      if !a.ok then OnToNext(s, p, todo)
      else if key !in s.steps then NotRun(s, p, todo) else At(s, p, todo, ReadSuperseded)
    case ReadSuperseded =>
      if !a.ok then OnToNext(s, p, todo)
      else if key in s.superseded then NotRun(s, p, todo) else At(s, p, todo, ReadRetired)
    case ReadRetired =>
      if !a.ok then OnToNext(s, p, todo)
      else if key in s.retired then NotRun(s, p, todo) else At(s, p, todo, ReadClosed)
    case ReadClosed =>
      // A bead that cannot be read is taken to be open.
      if a.ok && key.bead in s.closed then NotRun(s, p, todo) else At(s, p, todo, ReadRan)
    case ReadRan =>
      if !a.ok then OnToNext(s, p, todo)
      else if key in s.ran then NotRun(s, p, todo) else At(s, p, todo, WriteBegun)
    case ClearSwap =>
      OnToNext(s.(swaps := if a.ok || a.applied then Without(s.swaps, todo[0].name) else s.swaps), p, todo)
    case WriteBegun =>
      var s' := s.(ran := if a.ok || a.applied then s.ran[key := Begun] else s.ran);
      if a.ok then At(s', p, todo, ForgetSwap) else OnToNext(s', p, todo)
    case ForgetSwap =>
      var s' := s.(swaps := if a.ok || a.applied then Without(s.swaps, todo[0].name) else s.swaps);
      if a.ok then At(s', p, todo, RunStep) else OnToNext(s', p, todo)
    case RunStep =>
      At(s, p, todo, Running).(runs := s.runs + multiset{key})
    case Running => At(s, p, todo, WriteResult(a.exit))
    case WriteResult(exit) =>
      var s' := s.(ran := if a.ok || a.applied then s.ran[key := Exited(exit)] else s.ran);
      OnToNext(s'.(closed := if exit == 0 && a.ok then s.closed + {key.bead} else s.closed), p, todo)
  }

  /** A pass of the postern inbox with one approved step, made holding the lock. */
  function InboxStep(s: State, p: nat, proc: Process, a: Answer): State
    requires !proc.Tick?
  {
    match proc
    case InboxBegins(key) =>
      if !a.ok && !a.applied then Ended(s, p)
      else if key !in s.steps || key in s.superseded || (key in s.ran && s.ran[key] == Exited(0)) then Ended(s, p)
      else
        var s' := s.(ran := s.ran[key := Begun]);
        if a.ok then s'.(processes := s.processes[p := InboxRuns(key)]) else Ended(s', p)
    case InboxRuns(key) =>
      s.(taps := s.taps + multiset{key}, processes := s.processes[p := InboxRunning(key)])
    case InboxRunning(key) => s.(processes := s.processes[p := InboxRecords(key, a.exit)])
    case InboxRecords(key, exit) =>
      Ended(s.(ran := if a.ok || a.applied then s.ran[key := Exited(exit)] else s.ran), p)
  }

  /** The step the process is running. */
  function RunOf(proc: Process): Option<Key> {
    match proc
    case Tick(todo, at) => if at == Running && todo != [] then Some(todo[0].key) else None
    case InboxRunning(key) => Some(key)
    case _ => None
  }

  function Next(s: State, a: Action): State {
    match a
    case BeginTick(p, names) =>
      var todo := SwapsOf(s.swaps, names);
      if p in s.processes || todo == [] then s else At(s, p, todo, ReadTalk)
    case BeginInbox(p, key) =>
      if p in s.processes || s.lock.Some? then s
      else s.(processes := s.processes[p := InboxBegins(key)], lock := Some(p))
    case Go(p, answer) =>
      if p !in s.processes then s
      else
        var proc := s.processes[p];
        if !proc.Tick? then InboxStep(s, p, proc, answer)
        else if proc.todo == [] then s
        else TickStep(s, p, proc.todo, proc.at, answer)
    case Die(p) =>
      if p !in s.processes then s
      else
        var run := RunOf(s.processes[p]);
        Ended(s, p).(adrift := s.adrift + if run.Some? then multiset{run.value} else multiset{})
    case AdriftEnds(key) => s.(adrift := s.adrift - multiset{key})
    case PutStep(key) => s.(steps := s.steps + {key})
    case PutSwap(name, key) => s.(swaps := s.swaps[name := key])
    case DropSwap(name) => s.(swaps := Without(s.swaps, name))
    case Supersede(key) => s.(superseded := s.superseded + {key})
    case Retire(key) => s.(retired := s.retired + {key})
    case CloseBead(bead) => s.(closed := s.closed + {bead})
    case ClearRan(key) => s.(ran := s.ran - {key}, clears := s.clears + multiset{key})
    case ClearSuperseded(key) => s.(superseded := s.superseded - {key})
    case ClearRetired(key) => s.(retired := s.retired - {key})
  }

  function Exec(s: State, actions: seq<Action>): State {
    if actions == [] then s else Next(Exec(s, actions[..|actions| - 1]), actions[|actions| - 1])
  }

  /** A mill where nothing was ever swapped. */
  predicate Initial(s: State) {
    s.lock == None && s.processes == map[] && s.ran == map[] && s.runs == multiset{} && s.clears == multiset{} &&
    s.adrift == multiset{}
  }

  // ----- What holds in every reachable state -----

  /** The lock is held by the one process that is past taking it, and by no other. */
  ghost predicate OneHolder(s: State) {
    && (forall p :: p in s.processes ==> (Holds(s.processes[p]) <==> s.lock == Some(p)))
    && (s.lock.Some? ==> s.lock.value in s.processes)
  }

  /** A tick about to begin a swap has found it never begun, and that is so still. */
  ghost predicate FoundUnrun(s: State) {
    forall p :: p in s.processes && s.processes[p].Tick? ==>
      s.processes[p].todo != [] && (s.processes[p].at == WriteBegun ==> s.processes[p].todo[0].key !in s.ran)
  }

  ghost predicate OthersFoundUnrun(s: State, p: nat) {
    && (forall q :: q in s.processes && s.processes[q].Tick? ==> s.processes[q].todo != [])
    && (forall q :: q in s.processes && q != p && s.processes[q].Tick? && s.processes[q].at == WriteBegun ==>
         s.processes[q].todo[0].key !in s.ran)
  }

  /** 1 when the lock's holder has begun the step and not yet run it. */
  function Pending(s: State, key: Key): nat {
    if s.lock.Some? && s.lock.value in s.processes && s.processes[s.lock.value].Tick? &&
       s.processes[s.lock.value].at in {ForgetSwap, RunStep} && s.processes[s.lock.value].todo != [] &&
       s.processes[s.lock.value].todo[0].key == key
    then 1 else 0
  }

  ghost predicate RunsAccounted(s: State, key: Key) {
    s.runs[key] + Pending(s, key) <= s.clears[key] + if key in s.ran then 1 else 0
  }

  ghost predicate Inv(s: State, key: Key) {
    OneHolder(s) && FoundUnrun(s) && RunsAccounted(s, key)
  }

  /** What Inv says of the process that moves. */
  lemma InvMeans(s: State, p: nat, key: Key)
    requires Inv(s, key) && p in s.processes
    ensures s.runs[key] <= s.clears[key] + (if key in s.ran then 1 else 0)
    ensures OneHolder(s) && OthersFoundUnrun(s, p) && RunsAccounted(s, key)
    ensures Holds(s.processes[p]) <==> s.lock == Some(p)
    ensures s.processes[p].Tick? ==> s.processes[p].todo != []
  {
  }

  lemma EndedKeeps(s: State, p: nat, key: Key)
    requires OneHolder(s) && OthersFoundUnrun(s, p) && p in s.processes
    requires s.runs[key] <= s.clears[key] + if key in s.ran then 1 else 0
    requires s.lock != Some(p) ==> RunsAccounted(s, key)
    ensures Inv(Ended(s, p), key)
  {
  }

  /** Letting go of a swap keeps everything, whatever the tick was about to do with it. */
  lemma OnToNextKeeps(s: State, p: nat, key: Key)
    requires OneHolder(s) && OthersFoundUnrun(s, p) && p in s.processes && s.processes[p].Tick?
    requires s.runs[key] <= s.clears[key] + if key in s.ran then 1 else 0
    requires s.lock != Some(p) ==> RunsAccounted(s, key)
    ensures Inv(OnToNext(s, p, s.processes[p].todo), key)
  {
    if |s.processes[p].todo| == 1 {
      EndedKeeps(s, p, key);
    }
  }

  /** So does moving on within a swap to a step at which it is not begun. */
  lemma AtKeeps(s: State, p: nat, at: Pc, key: Key)
    requires Inv(s, key) && p in s.processes && s.processes[p].Tick?
    requires at !in {WriteBegun, ForgetSwap, RunStep}
    ensures at != ReadTalk && at != TakeLock && s.lock == Some(p) ==> Inv(At(s, p, s.processes[p].todo, at), key)
    ensures at != ReadTalk && at != TakeLock && s.lock == None ==>
              Inv(At(s, p, s.processes[p].todo, at).(lock := Some(p)), key)
    ensures s.lock != Some(p) && (at == ReadTalk || at == TakeLock) ==> Inv(At(s, p, s.processes[p].todo, at), key)
  {
  }

  /** What the lock's holder writes keeps what is said of the others. */
  lemma HolderWrites(s: State, p: nat, ran: map<Key, Ran>, swaps: map<string, Key>, closed: set<string>, key: Key)
    requires Inv(s, key) && p in s.processes && s.lock == Some(p) && s.ran.Keys <= ran.Keys
    ensures var s' := s.(ran := ran, swaps := swaps, closed := closed);
            && OneHolder(s') && OthersFoundUnrun(s', p)
            && s'.runs[key] <= s'.clears[key] + if key in s'.ran then 1 else 0
  {
  }

  /** A tick's first look and its taking of the lock. */
  lemma TakingKeeps(s: State, p: nat, a: Answer, key: Key)
    requires Inv(s, key) && p in s.processes && s.processes[p].Tick? && s.processes[p].todo != []
    requires s.processes[p].at in {ReadTalk, TakeLock}
    ensures Inv(TickStep(s, p, s.processes[p].todo, s.processes[p].at, a), key)
  {
    hide Inv, OneHolder, FoundUnrun, OthersFoundUnrun, RunsAccounted, Pending, At, OnToNext, Ended;
    InvMeans(s, p, key);
    OnToNextKeeps(s, p, key);
    AtKeeps(s, p, TakeLock, key);
    AtKeeps(s, p, ReadStep, key);
  }

  /** Its looks at the step and the notes of it, none of which it changes. */
  lemma LooksKeep(s: State, p: nat, a: Answer, key: Key)
    requires Inv(s, key) && p in s.processes && s.processes[p].Tick? && s.processes[p].todo != []
    requires s.processes[p].at in {ReadStep, ReadSuperseded, ReadRetired, ReadClosed}
    ensures Inv(TickStep(s, p, s.processes[p].todo, s.processes[p].at, a), key)
  {
    hide Inv, OneHolder, FoundUnrun, OthersFoundUnrun, RunsAccounted, Pending, At, OnToNext, Ended;
    InvMeans(s, p, key);
    OnToNextKeeps(s, p, key);
    AtKeeps(s, p, ClearSwap, key);
    match s.processes[p].at {
      case ReadStep => AtKeeps(s, p, ReadSuperseded, key);
      case ReadSuperseded => AtKeeps(s, p, ReadRetired, key);
      case ReadRetired => AtKeeps(s, p, ReadClosed, key);
      case _ => AtKeeps(s, p, ReadRan, key);
    }
  }

  /** The look at the ran note, and the writes of the swap's own note. */
  lemma NotingKeeps(s: State, p: nat, a: Answer, key: Key)
    requires Inv(s, key) && p in s.processes && s.processes[p].Tick? && s.processes[p].todo != []
    requires s.processes[p].at in {ReadRan, ForgetSwap, ClearSwap}
    ensures Inv(TickStep(s, p, s.processes[p].todo, s.processes[p].at, a), key)
  {
    hide Inv, OneHolder, FoundUnrun, OthersFoundUnrun, RunsAccounted, Pending, At, OnToNext, Ended, Without;
    InvMeans(s, p, key);
    var forgot := s.(swaps := Without(s.swaps, s.processes[p].todo[0].name));
    HolderWrites(s, p, s.ran, forgot.swaps, s.closed, key);
    OnToNextKeeps(s, p, key);
    OnToNextKeeps(forgot, p, key);
    AtKeeps(s, p, ClearSwap, key);
    ReadRanKeeps(s, p, key);
    ForgetKeeps(s, p, forgot.swaps, key);
  }

  lemma ReadRanKeeps(s: State, p: nat, key: Key)
    requires Inv(s, key) && p in s.processes && s.processes[p].Tick?
    ensures s.processes[p].at == ReadRan && s.processes[p].todo[0].key !in s.ran ==>
              Inv(At(s, p, s.processes[p].todo, WriteBegun), key)
  {
  }

  lemma ForgetKeeps(s: State, p: nat, swaps: map<string, Key>, key: Key)
    requires Inv(s, key) && p in s.processes && s.processes[p].Tick?
    ensures s.processes[p].at == ForgetSwap ==> Inv(At(s.(swaps := swaps), p, s.processes[p].todo, RunStep), key)
  {
  }

  /** The ran note written before the run: where the count of what may still run goes over to this tick. */
  lemma BeginningKeeps(s: State, p: nat, a: Answer, key: Key)
    requires Inv(s, key) && p in s.processes && s.processes[p].Tick? && s.processes[p].todo != []
    requires s.processes[p].at == WriteBegun
    ensures Inv(TickStep(s, p, s.processes[p].todo, s.processes[p].at, a), key)
  {
    hide OnToNext, Ended;
    InvMeans(s, p, key);
    var begun := s.(ran := s.ran[s.processes[p].todo[0].key := Begun]);
    HolderWrites(s, p, begun.ran, s.swaps, s.closed, key);
    if !a.ok {
      OnToNextKeeps(if a.applied then begun else s, p, key);
    }
  }

  lemma RunningKeeps(s: State, p: nat, a: Answer, key: Key)
    requires Inv(s, key) && p in s.processes && s.processes[p].Tick? && s.processes[p].todo != []
    requires s.processes[p].at in {RunStep, Running}
    ensures Inv(TickStep(s, p, s.processes[p].todo, s.processes[p].at, a), key)
  {
    hide OnToNext, Ended;
  }

  lemma ResultKeeps(s: State, p: nat, a: Answer, key: Key)
    requires Inv(s, key) && p in s.processes && s.processes[p].Tick? && s.processes[p].todo != []
    requires s.processes[p].at.WriteResult?
    ensures Inv(TickStep(s, p, s.processes[p].todo, s.processes[p].at, a), key)
  {
    hide Inv, OneHolder, FoundUnrun, OthersFoundUnrun, RunsAccounted, Pending, At, OnToNext, Ended;
    InvMeans(s, p, key);
    var exit, k := s.processes[p].at.exit, s.processes[p].todo[0].key;
    var s' := s.(ran := if a.ok || a.applied then s.ran[k := Exited(exit)] else s.ran,
                 closed := if exit == 0 && a.ok then s.closed + {k.bead} else s.closed);
    HolderWrites(s, p, s'.ran, s.swaps, s'.closed, key);
    OnToNextKeeps(s', p, key);
  }

  /** A pass of the inbox only ever adds ran notes, and holds the lock while it does. */
  lemma InboxKeeps(s: State, p: nat, a: Answer, key: Key)
    requires Inv(s, key) && p in s.processes && !s.processes[p].Tick?
    ensures Inv(InboxStep(s, p, s.processes[p], a), key)
  {
    hide Inv, OneHolder, FoundUnrun, OthersFoundUnrun, RunsAccounted, Pending, Ended;
    InvMeans(s, p, key);
    var proc := s.processes[p];
    var begun := s.ran[proc.key := Begun];
    var exited := if proc.InboxRecords? then s.ran[proc.key := Exited(proc.exit)] else s.ran;
    EndedKeeps(s, p, key);
    HolderWrites(s, p, begun, s.swaps, s.closed, key);
    EndedKeeps(s.(ran := begun), p, key);
    HolderWrites(s, p, exited, s.swaps, s.closed, key);
    EndedKeeps(s.(ran := exited), p, key);
    InboxGoesOn(s, p, begun, InboxRuns(proc.key), s.taps, key);
    InboxGoesOn(s, p, s.ran, InboxRunning(proc.key), s.taps + multiset{proc.key}, key);
    InboxGoesOn(s, p, s.ran, InboxRecords(proc.key, a.exit), s.taps, key);
  }

  lemma InboxGoesOn(s: State, p: nat, ran: map<Key, Ran>, proc: Process, taps: multiset<Key>, key: Key)
    requires Inv(s, key) && p in s.processes && !s.processes[p].Tick? && !proc.Tick? && s.ran.Keys <= ran.Keys
    ensures Inv(s.(ran := ran, taps := taps, processes := s.processes[p := proc]), key)
  {
  }

  /** Processes that begin or die. */
  lemma ComingAndGoingKeeps(s: State, a: Action, key: Key)
    requires Inv(s, key) && (a.BeginTick? || a.BeginInbox? || a.Die?)
    ensures Inv(Next(s, a), key)
  {
    hide TickStep, InboxStep, Without, SwapsOf, Ended;
    if a.Die? && a.p in s.processes {
      InvMeans(s, a.p, key);
      EndedKeeps(s, a.p, key);
      AdriftTellsNothing(Ended(s, a.p), Next(s, a).adrift, key);
    }
  }

  lemma AdriftTellsNothing(s: State, adrift: multiset<Key>, key: Key)
    requires Inv(s, key)
    ensures Inv(s.(adrift := adrift), key)
  {
  }

  /** Notes written by others: only a clear of the ran note tells, and it is counted. */
  lemma OthersKeep(s: State, a: Action, key: Key)
    requires Inv(s, key) && !a.Go? && !a.BeginTick? && !a.BeginInbox? && !a.Die?
    ensures Inv(Next(s, a), key)
  {
    hide TickStep, InboxStep, Without, SwapsOf;
  }

  lemma StepKeeps(s: State, a: Action, key: Key)
    requires Inv(s, key)
    ensures Inv(Next(s, a), key)
  {
    hide *;
    if a.BeginTick? || a.BeginInbox? || a.Die? {
      ComingAndGoingKeeps(s, a, key);
      return;
    }
    if !a.Go? {
      OthersKeep(s, a, key);
      return;
    }
    NextMeans(s, a);
    if a.p in s.processes {
      InvMeans(s, a.p, key);
      if !s.processes[a.p].Tick? {
        InboxKeeps(s, a.p, a.answer, key);
      } else if s.processes[a.p].at in {ReadTalk, TakeLock} {
        TakingKeeps(s, a.p, a.answer, key);
      } else if s.processes[a.p].at in {ReadStep, ReadSuperseded, ReadRetired, ReadClosed} {
        LooksKeep(s, a.p, a.answer, key);
      } else if s.processes[a.p].at in {RunStep, Running} {
        RunningKeeps(s, a.p, a.answer, key);
      } else if s.processes[a.p].at.WriteResult? {
        ResultKeeps(s, a.p, a.answer, key);
      } else if s.processes[a.p].at == WriteBegun {
        BeginningKeeps(s, a.p, a.answer, key);
      } else {
        NotingKeeps(s, a.p, a.answer, key);
      }
    }
  }

  lemma NextMeans(s: State, a: Action)
    requires a.Go?
    ensures a.p !in s.processes ==> Next(s, a) == s
    ensures a.p in s.processes && !s.processes[a.p].Tick? ==>
              Next(s, a) == InboxStep(s, a.p, s.processes[a.p], a.answer)
    ensures a.p in s.processes && s.processes[a.p].Tick? && s.processes[a.p].todo != [] ==>
              Next(s, a) == TickStep(s, a.p, s.processes[a.p].todo, s.processes[a.p].at, a.answer)
  {
  }

  lemma {:induction false} RunsKeep(s: State, actions: seq<Action>, key: Key)
    requires Inv(s, key)
    ensures Inv(Exec(s, actions), key)
  {
    if actions != [] {
      var n := |actions| - 1;
      RunsKeep(s, actions[..n], key);
      StepKeeps(Exec(s, actions[..n]), actions[n], key);
    }
  }

  // ----- What a step changes -----

  lemma TickWrites(s: State, p: nat, todo: seq<Swap>, at: Pc, a: Answer)
    requires todo != []
    ensures var s' := TickStep(s, p, todo, at, a);
            && s'.clears == s.clears && s'.superseded == s.superseded && s'.retired == s.retired && s.ran.Keys <= s'.ran.Keys
            && s'.adrift == s.adrift
            && s'.runs == if at == RunStep then s.runs + multiset{todo[0].key} else s.runs
  {
    hide Without, OnToNext, At;
  }

  lemma TickMoves(s: State, p: nat, todo: seq<Swap>, at: Pc, a: Answer)
    requires todo != []
    ensures var s' := TickStep(s, p, todo, at, a);
            && s'.processes - {p} == s.processes - {p}
            && (p in s'.processes ==>
                 s'.processes[p].Tick? &&
                 (s'.processes[p].at != ReadTalk ==>
                   s'.processes[p].todo == todo && Follows(s, todo[0].key, at, s'.processes[p].at)))
  {
    hide Without, OnToNext, At, Follows;
    TickFollows(s, p, todo, at, a);
  }

  lemma TickFollows(s: State, p: nat, todo: seq<Swap>, at: Pc, a: Answer)
    requires todo != []
    ensures var s' := TickStep(s, p, todo, at, a);
            p in s'.processes && s'.processes[p].Tick? && s'.processes[p].at != ReadTalk ==>
              s'.processes[p].todo == todo && Follows(s, todo[0].key, at, s'.processes[p].at)
  {
    hide Without, OnToNext, At;
  }

  /** A swap goes on past a look only when the note looked for is not there. */
  predicate Follows(s: State, key: Key, at: Pc, next: Pc) {
    match next
    case ReadRetired => at == ReadSuperseded && key !in s.superseded
    case ReadClosed => at == ReadRetired && key !in s.retired
    case ReadRan => at == ReadClosed
    case WriteBegun => at == ReadRan && key !in s.ran
    case ForgetSwap => at == WriteBegun
    case RunStep => at == ForgetSwap
    case Running => at == RunStep
    case _ => true
  }

  lemma InboxWrites(s: State, p: nat, a: Answer)
    requires p in s.processes && !s.processes[p].Tick?
    ensures var s' := InboxStep(s, p, s.processes[p], a);
            s'.clears == s.clears && s'.superseded == s.superseded && s'.retired == s.retired && s.ran.Keys <= s'.ran.Keys &&
            s'.runs == s.runs && s'.adrift == s.adrift
  {
    hide Ended;
  }

  lemma InboxMoves(s: State, p: nat, a: Answer)
    requires p in s.processes && !s.processes[p].Tick?
    ensures var s' := InboxStep(s, p, s.processes[p], a);
            s'.processes - {p} == s.processes - {p} && (p in s'.processes ==> !s'.processes[p].Tick?)
  {
    hide Ended;
  }

  // ----- The promises -----

  /** How often the note that a step was begun is cleared: by a step written over with --replace. */
  function ClearsIn(actions: seq<Action>, key: Key): nat {
    if actions == [] then 0
    else ClearsIn(actions[..|actions| - 1], key) + if actions[|actions| - 1] == ClearRan(key) then 1 else 0
  }

  lemma ClearsStep(s: State, a: Action, key: Key)
    ensures Next(s, a).clears[key] == s.clears[key] + if a == ClearRan(key) then 1 else 0
  {
    hide TickStep, InboxStep, SwapsOf, Without;
    if a.Go? && a.p in s.processes {
      if !s.processes[a.p].Tick? {
        InboxWrites(s, a.p, a.answer);
      } else if s.processes[a.p].todo != [] {
        TickWrites(s, a.p, s.processes[a.p].todo, s.processes[a.p].at, a.answer);
      }
    }
  }

  lemma {:induction false} ClearsCounted(s: State, actions: seq<Action>, key: Key)
    ensures Exec(s, actions).clears[key] == s.clears[key] + ClearsIn(actions, key)
  {
    if actions != [] {
      var n := |actions| - 1;
      ClearsCounted(s, actions[..n], key);
      ClearsStep(Exec(s, actions[..n]), actions[n], key);
    }
  }

  /** In every run of any number of ticks, a staged swap is run at most once, and once more for each time its ran
      note was cleared. */
  lemma RunAtMostOncePerClear(s: State, actions: seq<Action>, key: Key)
    requires Initial(s)
    ensures Exec(s, actions).runs[key] <= 1 + ClearsIn(actions, key)
  {
    RunsKeep(s, actions, key);
    ClearsCounted(s, actions, key);
  }

  /** The processes that are running a step. */
  function NowRunning(s: State): set<nat> {
    set p | p in s.processes && RunOf(s.processes[p]).Some?
  }

  /** The steps that are running on the host, by a process that lives or by none. */
  function InFlight(s: State): nat {
    |NowRunning(s)| + |s.adrift|
  }

  predicate DiesRunning(s: State, a: Action) {
    a.Die? && a.p in NowRunning(s)
  }

  /** How many processes died while their step ran, and how many of those steps have ended. */
  function DiedRunning(s: State, actions: seq<Action>): nat {
    if actions == [] then 0
    else
      var n := |actions| - 1;
      DiedRunning(s, actions[..n]) + if DiesRunning(Exec(s, actions[..n]), actions[n]) then 1 else 0
  }

  function EndedAdrift(s: State, actions: seq<Action>): nat {
    if actions == [] then 0
    else
      var n := |actions| - 1;
      EndedAdrift(s, actions[..n]) +
      if actions[n].AdriftEnds? && actions[n].key in Exec(s, actions[..n]).adrift then 1 else 0
  }

  lemma AdriftStep(s: State, a: Action)
    ensures |Next(s, a).adrift| ==
            |s.adrift| + (if DiesRunning(s, a) then 1 else 0) - if a.AdriftEnds? && a.key in s.adrift then 1 else 0
  {
    hide TickStep, InboxStep, SwapsOf, Without;
    if a.Go? && a.p in s.processes {
      if !s.processes[a.p].Tick? {
        InboxWrites(s, a.p, a.answer);
      } else if s.processes[a.p].todo != [] {
        TickWrites(s, a.p, s.processes[a.p].todo, s.processes[a.p].at, a.answer);
      }
    }
  }

  lemma {:induction false} AdriftAreTheDead(s: State, actions: seq<Action>)
    requires Initial(s)
    ensures |Exec(s, actions).adrift| + EndedAdrift(s, actions) == DiedRunning(s, actions)
  {
    hide Next, DiesRunning;
    if actions != [] {
      var n := |actions| - 1;
      AdriftAreTheDead(s, actions[..n]);
      AdriftStep(Exec(s, actions[..n]), actions[n]);
    }
  }

  /** One living process at most runs a step, whether it is a tick's swap or one the inbox was given; so the steps in
      flight are that one and those whose process died while they ran, and two are in flight exactly when one of
      those has not ended while another is, or a process runs one. */
  lemma OneRunAtATime(s: State, actions: seq<Action>)
    requires Initial(s)
    ensures var s' := Exec(s, actions);
            && |NowRunning(s')| <= 1
            && InFlight(s') == |NowRunning(s')| + DiedRunning(s, actions) - EndedAdrift(s, actions)
            && (InFlight(s') >= 2 <==> DiedRunning(s, actions) - EndedAdrift(s, actions) >= 2 - |NowRunning(s')|)
            && (DiedRunning(s, actions) == 0 ==> InFlight(s') <= 1)
  {
    var s' := Exec(s, actions);
    RunsKeep(s, actions, Key("", ""));
    AdriftAreTheDead(s, actions);
    RunnersHold(s');
  }

  lemma RunnersHold(s: State)
    requires OneHolder(s)
    ensures |NowRunning(s)| <= 1
  {
    if s.lock.Some? {
      assert NowRunning(s) <= {s.lock.value};
      Fewer(NowRunning(s), {s.lock.value});
    } else {
      assert NowRunning(s) == {};
    }
  }

  lemma Fewer(a: set<nat>, b: set<nat>)
    requires a <= b
    ensures |a| <= |b|
  {
    assert b == a + (b - a);
  }

  /** The notes that stop a swap when a tick looks at them. */
  datatype Bar = BySuperseded | ByRetired | ByRan

  predicate StandsIn(s: State, key: Key, bar: Bar) {
    match bar
    case BySuperseded => key in s.superseded
    case ByRetired => key in s.retired
    case ByRan => key in s.ran
  }

  function Lifting(key: Key, bar: Bar): Action {
    match bar
    case BySuperseded => ClearSuperseded(key)
    case ByRetired => ClearRetired(key)
    case ByRan => ClearRan(key)
  }

  /** The tick is past its look at that note, on its way to the run. */
  predicate Past(at: Pc, bar: Bar) {
    || at in {WriteBegun, ForgetSwap, RunStep}
    || (bar != ByRan && at in {ReadClosed, ReadRan})
    || (bar == BySuperseded && at == ReadRetired)
  }

  ghost predicate Barred(s: State, key: Key, bar: Bar) {
    && StandsIn(s, key, bar)
    && forall p :: p in s.processes && s.processes[p].Tick? && Past(s.processes[p].at, bar) ==>
         s.processes[p].todo != [] && s.processes[p].todo[0].key != key
  }

  lemma BarredStep(s: State, a: Action, key: Key, bar: Bar)
    requires Barred(s, key, bar) && a != Lifting(key, bar)
    ensures Barred(Next(s, a), key, bar) && Next(s, a).runs[key] == s.runs[key]
  {
    hide TickStep, InboxStep, SwapsOf, Without;
    if a.Go? && a.p in s.processes && s.processes[a.p].Tick? && s.processes[a.p].todo != [] {
      BarredTick(s, a.p, a.answer, key, bar);
    } else if a.Go? && a.p in s.processes && !s.processes[a.p].Tick? {
      InboxWrites(s, a.p, a.answer);
      InboxMoves(s, a.p, a.answer);
      BarredStays(s, Next(s, a), a.p, key, bar);
    }
  }

  lemma BarredTick(s: State, p: nat, a: Answer, key: Key, bar: Bar)
    requires Barred(s, key, bar) && p in s.processes && s.processes[p].Tick? && s.processes[p].todo != []
    ensures var s' := TickStep(s, p, s.processes[p].todo, s.processes[p].at, a);
            Barred(s', key, bar) && s'.runs[key] == s.runs[key]
  {
    hide TickStep;
    var s' := TickStep(s, p, s.processes[p].todo, s.processes[p].at, a);
    TickWrites(s, p, s.processes[p].todo, s.processes[p].at, a);
    TickMoves(s, p, s.processes[p].todo, s.processes[p].at, a);
    BarredStays(s, s', p, key, bar);
  }

  lemma BarredStays(s: State, s': State, p: nat, key: Key, bar: Bar)
    requires Barred(s, key, bar) && StandsIn(s', key, bar) && s'.processes - {p} == s.processes - {p}
    requires p in s'.processes && s'.processes[p].Tick? && Past(s'.processes[p].at, bar) ==>
               s'.processes[p].todo != [] && s'.processes[p].todo[0].key != key
    ensures Barred(s', key, bar)
  {
    forall q | q in s'.processes && q != p && s'.processes[q].Tick? && Past(s'.processes[q].at, bar)
      ensures s'.processes[q].todo != [] && s'.processes[q].todo[0].key != key
    {
      assert q in s'.processes - {p} && (s'.processes - {p})[q] == (s.processes - {p})[q];
    }
  }

  /** Once a swap is begun, or its step superseded or retired, and no tick is past its look at that note, no tick
      ever runs it, until the note is cleared: a failed swap stays failed for a person. */
  lemma {:induction false} BarredIsNeverRun(s: State, actions: seq<Action>, key: Key, bar: Bar)
    requires Barred(s, key, bar) && Lifting(key, bar) !in actions
    ensures Barred(Exec(s, actions), key, bar) && Exec(s, actions).runs[key] == s.runs[key]
  {
    if actions != [] {
      var n := |actions| - 1;
      BarredIsNeverRun(s, actions[..n], key, bar);
      BarredStep(Exec(s, actions[..n]), actions[n], key, bar);
    }
  }

  // ----- A swap that is run again -----

  function FineExit(exit: int): Answer {
    Answer(true, true, false, exit)
  }

  lemma {:induction false} ExecAdd(s: State, a: seq<Action>, b: seq<Action>)
    ensures Exec(s, a + b) == Exec(Exec(s, a), b)
  {
    if b == [] {
      assert a + b == a;
    } else {
      var n := |b| - 1;
      ExecAdd(s, a, b[..n]);
      assert (a + b)[..|a + b| - 1] == a + b[..n];
    }
  }

  function Goes(p: nat, exit: int, n: nat): seq<Action> {
    if n == 0 then [] else [Go(p, FineExit(exit))] + Goes(p, exit, n - 1)
  }

  /** The first n steps of a tick that comes to one swap, nothing failing and no Talk open, and whose step exits so. */
  function TickTo(p: nat, name: string, exit: int, n: nat): seq<Action> {
    [BeginTick(p, [name])] + Goes(p, exit, n)
  }

  /** The whole of such a tick. */
  function WholeTick(p: nat, name: string, exit: int): seq<Action> {
    TickTo(p, name, exit, 12)
  }

  lemma OneMore(s: State, a: Action, rest: seq<Action>)
    ensures Exec(s, [a] + rest) == Exec(Next(s, a), rest)
  {
    ExecAdd(s, [a], rest);
    assert [a][..0] == [];
    assert Exec(s, [a]) == Next(Exec(s, []), a);
  }

  predicate Runnable(s: State, p: nat, name: string, key: Key) {
    && name in s.swaps && s.swaps[name] == key && key in s.steps
    && key !in s.superseded && key !in s.retired && key.bead !in s.closed && key !in s.ran
    && s.lock == None && p !in s.processes
  }

  lemma LooksGoThrough(s: State, p: nat, name: string, key: Key, exit: int, m: nat)
    requires Runnable(s, p, name, key)
    ensures Exec(s, TickTo(p, name, exit, m + 7)) ==
            Exec(At(s, p, [Swap(name, key)], WriteBegun).(lock := Some(p)), Goes(p, exit, m))
  {
    hide Exec, Goes, Without, InboxStep;
    var go, todo := Go(p, FineExit(exit)), [Swap(name, key)];
    OneMore(s, BeginTick(p, [name]), Goes(p, exit, m + 7));
    SwapsOfOne(s.swaps, name);
    for i := 0 to 7
      invariant Exec(s, TickTo(p, name, exit, m + 7)) == Exec(LookedAt(s, p, todo, i), Goes(p, exit, m + 7 - i))
    {
      GoesMore(p, exit, m + 7 - i);
      OneMore(LookedAt(s, p, todo, i), go, Goes(p, exit, m + 6 - i));
      LookGoesOn(s, p, name, key, exit, i);
    }
  }

  /** The tick's i-th look at the swap it has come to. */
  function LookedAt(s: State, p: nat, todo: seq<Swap>, i: nat): State
    requires i <= 7
  {
    At(s, p, todo, LookPc(i)).(lock := if i <= 1 then None else Some(p))
  }

  function LookPc(i: nat): Pc {
    if i == 0 then ReadTalk else if i == 1 then TakeLock else if i == 2 then ReadStep
    else if i == 3 then ReadSuperseded else if i == 4 then ReadRetired else if i == 5 then ReadClosed
    else if i == 6 then ReadRan else WriteBegun
  }

  lemma LookGoesOn(s: State, p: nat, name: string, key: Key, exit: int, i: nat)
    requires Runnable(s, p, name, key) && i < 7
    ensures Next(LookedAt(s, p, [Swap(name, key)], i), Go(p, FineExit(exit))) == LookedAt(s, p, [Swap(name, key)], i + 1)
  {
    hide OnToNext, InboxStep, Without, SwapsOf, Next, NotRun, RunOf, Holds;
    var looked := LookedAt(s, p, [Swap(name, key)], i);
    NextMeans(looked, Go(p, FineExit(exit)));
    assert looked.processes[p] == Tick([Swap(name, key)], LookPc(i));
    assert s.processes[p := looked.processes[p]][p := Tick([Swap(name, key)], LookPc(i + 1))] ==
           s.processes[p := Tick([Swap(name, key)], LookPc(i + 1))];
  }

  lemma SwapsOfOne(swaps: map<string, Key>, name: string)
    requires name in swaps
    ensures SwapsOf(swaps, [name]) == [Swap(name, swaps[name])]
  {
  }

  lemma GoesMore(p: nat, exit: int, n: nat)
    requires n > 0
    ensures Goes(p, exit, n) == [Go(p, FineExit(exit))] + Goes(p, exit, n - 1)
  {
  }

  /** A tick in the middle of a run: the lock is its, the step is noted as begun and the swap's own note is gone. */
  function MidRun(s: State, p: nat, name: string, key: Key): State {
    At(s, p, [Swap(name, key)], Running).(lock := Some(p), ran := s.ran[key := Begun], swaps := Without(s.swaps, name),
      runs := s.runs + multiset{key})
  }

  /** A tick that finds nothing in its way comes to the run of the step. */
  lemma TickComesToTheRun(s: State, p: nat, name: string, key: Key, exit: int, m: nat)
    requires Runnable(s, p, name, key)
    ensures Exec(s, TickTo(p, name, exit, m + 10)) == Exec(MidRun(s, p, name, key), Goes(p, exit, m))
  {
    hide Exec, Goes, Without, InboxStep, Next;
    LooksGoThrough(s, p, name, key, exit, m + 3);
    var go, todo := Go(p, FineExit(exit)), [Swap(name, key)];
    var s0 := At(s, p, todo, WriteBegun).(lock := Some(p));
    var s1 := At(s, p, todo, ForgetSwap).(lock := Some(p), ran := s.ran[key := Begun]);
    var s2 := At(s1, p, todo, RunStep).(swaps := Without(s.swaps, name));
    BeginGoesOn(s, p, name, key, exit);
    GoesMore(p, exit, m + 3);
    GoesMore(p, exit, m + 2);
    GoesMore(p, exit, m + 1);
    OneMore(s0, go, Goes(p, exit, m + 2));
    OneMore(s1, go, Goes(p, exit, m + 1));
    OneMore(s2, go, Goes(p, exit, m));
  }

  lemma BeginGoesOn(s: State, p: nat, name: string, key: Key, exit: int)
    requires Runnable(s, p, name, key)
    ensures var go, todo := Go(p, FineExit(exit)), [Swap(name, key)];
            var s0 := At(s, p, todo, WriteBegun).(lock := Some(p));
            var s1 := At(s, p, todo, ForgetSwap).(lock := Some(p), ran := s.ran[key := Begun]);
            var s2 := At(s1, p, todo, RunStep).(swaps := Without(s.swaps, name));
            Next(s0, go) == s1 && Next(s1, go) == s2 && Next(s2, go) == MidRun(s, p, name, key)
  {
    hide *;
    BeginMeans(s, p, name, key);
    var todo := [Swap(name, key)];
    var s1 := At(s, p, todo, ForgetSwap).(lock := Some(p), ran := s.ran[key := Begun]);
    BeginsRun(At(s, p, todo, WriteBegun).(lock := Some(p)), p, name, key, exit);
    ForgetsSwap(s1, p, name, key, exit);
    StartsRun(At(s1, p, todo, RunStep).(swaps := Without(s.swaps, name)), p, name, key, exit);
  }

  lemma BeginMeans(s: State, p: nat, name: string, key: Key)
    ensures var todo := [Swap(name, key)];
            var s0 := At(s, p, todo, WriteBegun).(lock := Some(p));
            var s1 := At(s, p, todo, ForgetSwap).(lock := Some(p), ran := s.ran[key := Begun]);
            var s2 := At(s1, p, todo, RunStep).(swaps := Without(s.swaps, name));
            && OnTick(s0, p, todo, WriteBegun) && s1 == At(s0.(ran := s0.ran[key := Begun]), p, todo, ForgetSwap)
            && OnTick(s1, p, todo, ForgetSwap) && s2 == At(s1.(swaps := Without(s1.swaps, name)), p, todo, RunStep)
            && OnTick(s2, p, todo, RunStep)
            && At(s2, p, todo, Running).(runs := s2.runs + multiset{key}) == MidRun(s, p, name, key)
  {
    hide Without;
  }

  predicate OnTick(s: State, p: nat, todo: seq<Swap>, at: Pc) {
    p in s.processes && s.processes[p] == Tick(todo, at)
  }

  lemma BeginsRun(s: State, p: nat, name: string, key: Key, exit: int)
    requires OnTick(s, p, [Swap(name, key)], WriteBegun)
    ensures Next(s, Go(p, FineExit(exit))) ==
            At(s.(ran := s.ran[key := Begun]), p, [Swap(name, key)], ForgetSwap)
  {
    hide InboxStep, Without, SwapsOf, OnToNext, At;
  }

  lemma ForgetsSwap(s: State, p: nat, name: string, key: Key, exit: int)
    requires OnTick(s, p, [Swap(name, key)], ForgetSwap)
    ensures Next(s, Go(p, FineExit(exit))) ==
            At(s.(swaps := Without(s.swaps, name)), p, [Swap(name, key)], RunStep)
  {
    hide InboxStep, Without, SwapsOf, OnToNext, At;
  }

  lemma StartsRun(s: State, p: nat, name: string, key: Key, exit: int)
    requires OnTick(s, p, [Swap(name, key)], RunStep)
    ensures Next(s, Go(p, FineExit(exit))) == At(s, p, [Swap(name, key)], Running).(runs := s.runs + multiset{key})
  {
    hide InboxStep, Without, SwapsOf, OnToNext, At;
  }

  /** A tick that finds nothing in its way runs the step, records how it ran and lets everything go. */
  lemma WholeTickRuns(s: State, p: nat, name: string, key: Key, exit: int)
    requires Runnable(s, p, name, key) && exit != 0
    ensures Exec(s, WholeTick(p, name, exit)) ==
            s.(swaps := Without(s.swaps, name), ran := s.ran[key := Exited(exit)], runs := s.runs + multiset{key})
  {
    hide Exec, Goes, Without, InboxStep, Next, MidRun, TickTo;
    TickComesToTheRun(s, p, name, key, exit, 2);
    var go := Go(p, FineExit(exit));
    var s3 := Next(MidRun(s, p, name, key), go);
    RunEnds(s, p, name, key, exit);
    LastGoesOn(s, s3, p, name, key, exit);
    GoesMore(p, exit, 2);
    GoesMore(p, exit, 1);
    OneMore(MidRun(s, p, name, key), go, Goes(p, exit, 1));
    OneMore(s3, go, Goes(p, exit, 0));
    NoGoes(Next(s3, go), p, exit);
  }

  lemma RunEnds(s: State, p: nat, name: string, key: Key, exit: int)
    requires Runnable(s, p, name, key)
    ensures Next(MidRun(s, p, name, key), Go(p, FineExit(exit))) ==
            At(s, p, [Swap(name, key)], WriteResult(exit)).(lock := Some(p), ran := s.ran[key := Begun],
              swaps := Without(s.swaps, name), runs := s.runs + multiset{key})
  {
    hide InboxStep, Without, SwapsOf, OnToNext;
  }

  lemma LastGoesOn(s: State, s3: State, p: nat, name: string, key: Key, exit: int)
    requires Runnable(s, p, name, key) && exit != 0
    requires s3 == At(s, p, [Swap(name, key)], WriteResult(exit)).(lock := Some(p), ran := s.ran[key := Begun],
                     swaps := Without(s.swaps, name), runs := s.runs + multiset{key})
    ensures Next(s3, Go(p, FineExit(exit))) ==
            s.(swaps := Without(s.swaps, name), ran := s.ran[key := Exited(exit)], runs := s.runs + multiset{key})
  {
    hide InboxStep, Without, SwapsOf;
    assert s.ran[key := Begun][key := Exited(exit)] == s.ran[key := Exited(exit)];
    assert s.processes[p := Tick([Swap(name, key)], WriteResult(exit))] - {p} == s.processes;
  }

  lemma NoGoes(s: State, p: nat, exit: int)
    ensures Exec(s, Goes(p, exit, 0)) == s
  {
  }

  /** A swap staged, and then staged again n times, each time once a tick has run it and it has failed: a staging
      of the same commit writes its step over, and so clears the note that the swap was begun. */
  function RestagedTrace(key: Key, name: string, n: nat): seq<Action> {
    if n == 0 then [PutStep(key), PutSwap(name, key)] + WholeTick(0, name, 1)
    else RestagedTrace(key, name, n - 1) + ([ClearRan(key), PutSwap(name, key)] + WholeTick(0, name, 1))
  }

  /** The bound is met: no fewer runs can be promised than one more than the clears. */
  lemma {:induction false} RestagedIsRunAgain(s: State, key: Key, name: string, n: nat)
    requires Initial(s) && key !in s.superseded && key !in s.retired && key.bead !in s.closed
    ensures var s' := Exec(s, RestagedTrace(key, name, n));
            && s'.runs[key] == n + 1 && ClearsIn(RestagedTrace(key, name, n), key) == n
            && s'.superseded == s.superseded && s'.retired == s.retired && s'.closed == s.closed
            && key in s'.steps && key in s'.ran && s'.lock == None && s'.processes == map[]
  {
    hide Exec, WholeTick, ClearsIn, Next, At, Without;
    var tick := WholeTick(0, name, 1);
    if n == 0 {
      StagedIsRun(s, [PutStep(key), PutSwap(name, key)], key, name);
    } else {
      RestagedIsRunAgain(s, key, name, n - 1);
      var before := RestagedTrace(key, name, n - 1);
      StagedIsRun(Exec(s, before), [ClearRan(key), PutSwap(name, key)], key, name);
      ExecAdd(s, before, [ClearRan(key), PutSwap(name, key)] + tick);
      ClearsAdd(before, [ClearRan(key), PutSwap(name, key)] + tick, key);
    }
  }

  lemma StagedIsRun(s: State, staging: seq<Action>, key: Key, name: string)
    requires (staging == [PutStep(key), PutSwap(name, key)] && key !in s.ran) ||
             (staging == [ClearRan(key), PutSwap(name, key)] && key in s.steps)
    requires key !in s.superseded && key !in s.retired && key.bead !in s.closed && s.lock == None && s.processes == map[]
    ensures var s' := Exec(s, staging + WholeTick(0, name, 1));
            && s'.runs[key] == s.runs[key] + 1
            && s'.superseded == s.superseded && s'.retired == s.retired && s'.closed == s.closed
            && key in s'.steps && key in s'.ran && s'.lock == None && s'.processes == map[]
    ensures ClearsIn(staging + WholeTick(0, name, 1), key) == if staging[0] == ClearRan(key) then 1 else 0
  {
    hide *;
    StagingPuts(s, staging, key, name);
    ExecAdd(s, staging, WholeTick(0, name, 1));
    WholeTickRuns(Exec(s, staging), 0, name, key, 1);
    ClearsAdd(staging, WholeTick(0, name, 1), key);
    NoneClears(0, name, key, 12);
    WholeTickIs(0, name);
  }

  lemma WholeTickIs(p: nat, name: string)
    ensures WholeTick(p, name, 1) == [BeginTick(p, [name])] + Goes(p, 1, 12)
  {
  }

  /** What a staging writes. */
  lemma StagingPuts(s: State, staging: seq<Action>, key: Key, name: string)
    requires |staging| == 2 && staging[1] == PutSwap(name, key) && s.lock == None && s.processes == map[]
    requires (staging[0] == PutStep(key) && key !in s.ran) || (staging[0] == ClearRan(key) && key in s.steps)
    requires key !in s.superseded && key !in s.retired && key.bead !in s.closed
    ensures var s' := Exec(s, staging);
            && Runnable(s', 0, name, key)
            && s'.runs == s.runs && s'.processes == s.processes && s'.lock == s.lock && s'.steps == s.steps + {key}
            && s'.superseded == s.superseded && s'.retired == s.retired && s'.closed == s.closed
    ensures ClearsIn(staging, key) == if staging[0] == ClearRan(key) then 1 else 0
  {
    hide TickStep, InboxStep, SwapsOf, Without;
    assert staging == [staging[0]] + [staging[1]] && staging[..1][..0] == [] && staging[..1] == [staging[0]];
    ClearsAdd([staging[0]], [staging[1]], key);
    assert ClearsIn([staging[0]], key) == if staging[0] == ClearRan(key) then 1 else 0 by {
      assert [staging[0]][..0] == [];
    }
    assert ClearsIn([staging[1]], key) == 0 by {
      assert [staging[1]][..0] == [];
    }
    OneMore(s, staging[0], [staging[1]]);
    assert [staging[1]] == [staging[1]] + [];
    OneMore(Next(s, staging[0]), staging[1], []);
    assert Exec(s, staging) == Next(Next(s, staging[0]), staging[1]);
  }

  lemma {:induction false} ClearsAdd(a: seq<Action>, b: seq<Action>, key: Key)
    ensures ClearsIn(a + b, key) == ClearsIn(a, key) + ClearsIn(b, key)
  {
    if b == [] {
      assert a + b == a;
    } else {
      ClearsAdd(a, b[..|b| - 1], key);
      assert (a + b)[..|a + b| - 1] == a + b[..|b| - 1];
    }
  }

  lemma {:induction false} NoneClears(p: nat, name: string, key: Key, n: nat)
    ensures ClearsIn([BeginTick(p, [name])] + Goes(p, 1, n), key) == 0 == ClearsIn(Goes(p, 1, n), key)
  {
    if n > 0 {
      NoneClears(p, name, key, n - 1);
      ClearsAdd([Go(p, FineExit(1))], Goes(p, 1, n - 1), key);
    }
    ClearsAdd([BeginTick(p, [name])], Goes(p, 1, n), key);
  }

  // ----- Two runs at once -----

  /** A tick that dies while the step it began runs on, and the next tick, running another swap. */
  function DyingTrace(a: Key, b: Key): seq<Action> {
    [PutStep(a), PutSwap("a", a), PutStep(b), PutSwap("b", b)] + TickTo(0, "a", 0, 10) + [Die(0)] + TickTo(1, "b", 0, 10)
  }

  lemma DyingTickLeavesItsRun(s: State, a: Key, b: Key)
    requires Initial(s) && a != b
    requires forall k :: k in {a, b} ==> k !in s.superseded && k !in s.retired && k.bead !in s.closed
    ensures var s' := Exec(s, DyingTrace(a, b)); InFlight(s') == 2 && s'.adrift == multiset{a} && 1 in NowRunning(s')
  {
    hide *;
    var staging := [PutStep(a), PutSwap("a", a), PutStep(b), PutSwap("b", b)];
    DyingIs(a, b);
    assert staging + TickTo(0, "a", 0, 10) + [Die(0)] + TickTo(1, "b", 0, 10) ==
           staging + (TickTo(0, "a", 0, 10) + ([Die(0)] + TickTo(1, "b", 0, 10)));
    ExecAdd(s, staging, TickTo(0, "a", 0, 10) + ([Die(0)] + TickTo(1, "b", 0, 10)));
    BothStaged(s, a, b);
    var s1 := Exec(s, staging);
    ExecAdd(s1, TickTo(0, "a", 0, 10), [Die(0)] + TickTo(1, "b", 0, 10));
    TickComesToTheRun(s1, 0, "a", a, 0, 0);
    NoGoes(MidRun(s1, 0, "a", a), 0, 0);
    var s2 := MidRun(s1, 0, "a", a);
    OneMore(s2, Die(0), TickTo(1, "b", 0, 10));
    DeathInRun(s1, a, b);
    var s3 := Next(s2, Die(0));
    TickComesToTheRun(s3, 1, "b", b, 0, 0);
    NoGoes(MidRun(s3, 1, "b", b), 1, 0);
    TwoFly(s3, a, b);
  }

  lemma DyingIs(a: Key, b: Key)
    ensures DyingTrace(a, b) ==
            [PutStep(a), PutSwap("a", a), PutStep(b), PutSwap("b", b)] + TickTo(0, "a", 0, 10) + [Die(0)] +
            TickTo(1, "b", 0, 10)
  {
  }

  lemma BothStaged(s: State, a: Key, b: Key)
    requires Initial(s) && a != b
    requires forall k :: k in {a, b} ==> k !in s.superseded && k !in s.retired && k.bead !in s.closed
    ensures var s' := Exec(s, [PutStep(a), PutSwap("a", a), PutStep(b), PutSwap("b", b)]);
            Runnable(s', 0, "a", a) && Runnable(s', 1, "b", b) && s'.processes == map[] && s'.adrift == multiset{}
  {
    hide Exec, Next;
    var first, second := [PutStep(a), PutSwap("a", a)], [PutStep(b), PutSwap("b", b)];
    assert [PutStep(a), PutSwap("a", a), PutStep(b), PutSwap("b", b)] == first + second;
    ExecAdd(s, first, second);
    StagedIs(s, "a", a);
    StagedIs(Exec(s, first), "b", b);
  }

  lemma StagedIs(s: State, name: string, key: Key)
    ensures Exec(s, [PutStep(key), PutSwap(name, key)]) ==
            s.(steps := s.steps + {key}, swaps := s.swaps[name := key])
  {
    hide *;
    PutsMean(s, name, key);
    assert [PutStep(key), PutSwap(name, key)] == [PutStep(key)] + [PutSwap(name, key)];
    OneMore(s, PutStep(key), [PutSwap(name, key)]);
    assert [PutSwap(name, key)] == [PutSwap(name, key)] + [];
    OneMore(Next(s, PutStep(key)), PutSwap(name, key), []);
    NoActions(Next(Next(s, PutStep(key)), PutSwap(name, key)));
  }

  lemma PutsMean(s: State, name: string, key: Key)
    ensures var s' := s.(steps := s.steps + {key});
            Next(s, PutStep(key)) == s' && Next(s', PutSwap(name, key)) == s'.(swaps := s.swaps[name := key])
  {
    hide TickStep, InboxStep, SwapsOf, Without;
  }

  lemma NoActions(s: State)
    ensures Exec(s, []) == s
  {
  }

  lemma DeathInRun(s: State, a: Key, b: Key)
    requires Runnable(s, 0, "a", a) && Runnable(s, 1, "b", b) && a != b && s.processes == map[] && s.adrift == multiset{}
    ensures var s' := Next(MidRun(s, 0, "a", a), Die(0));
            Runnable(s', 1, "b", b) && s'.processes == map[] && s'.adrift == multiset{a}
  {
    hide TickStep, InboxStep, SwapsOf;
  }

  lemma TwoFly(s: State, a: Key, b: Key)
    requires s.processes == map[] && s.adrift == multiset{a}
    ensures InFlight(MidRun(s, 1, "b", b)) == 2 && MidRun(s, 1, "b", b).adrift == multiset{a}
    ensures 1 in NowRunning(MidRun(s, 1, "b", b))
  {
    assert NowRunning(MidRun(s, 1, "b", b)) == {1};
  }
}
