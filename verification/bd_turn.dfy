/** The host's one turn to run a bd, and a quiet host: waited for before bd is run, and let go whatever it comes to. */
module BdTurns {
  import opened BatchQueue
  import opened BdCalls
  import opened BdRetries

  // Half seconds, so that the default poll is 1.
  const BD_QUIET_LIMIT := 240
  const BD_QUIET_POLL := 1

  datatype TurnAnswer = Taken | HeldBy(holder: string) | TurnFails

  /** What the host's processes are; a blocker is named, so never by nothing. */
  datatype HostAnswer = Quiet | Blocked(who: string) | HostFails

  datatype Host = Host(hasTurn: bool, hasQuiet: bool, turns: nat -> TurnAnswer, hosts: nat -> HostAnswer, waits: nat -> bool)

  /** What take hands back: nothing to let go, the turn, or, of a port that names no holder, no function at all. */
  datatype Release = LetsNothingGo | LetsTurnGo | NoFunction

  datatype Take = Ready(release: Release) | Busy(who: string) | TakeFails

  ghost predicate NamesBlockers(host: Host) {
    forall n :: host.hosts(n).Blocked? ==> host.hosts(n).who != ""
  }

  /** A turn that is not taken is said to be someone's by name. */
  ghost predicate NamesHolders(host: Host) {
    forall n :: host.turns(n) != HeldBy("")
  }

  /** One look: the turn is let go again when the host is not quiet. */
  function LookOf(host: Host, n: nat): Take {
    if host.hasTurn && host.turns(n) == TurnFails then TakeFails
    else if host.hasTurn && host.turns(n).HeldBy? then
      if host.turns(n).holder == "" then Ready(NoFunction) else Busy(host.turns(n).holder)
    else if host.hasQuiet && host.hosts(n) == HostFails then TakeFails
    else if host.hasQuiet && host.hosts(n).Blocked? then Busy(host.hosts(n).who)
    else Ready(if host.hasTurn then LetsTurnGo else LetsNothingGo)
  }

  class Turn {
    var held: bool
    var taken: nat
    var released: nat

    ghost predicate Valid()
      reads this
    {
      taken == released + if held then 1 else 0
    }

    constructor ()
      ensures Valid() && !held && taken == 0
    {
      held, taken, released := false, 0, 0;
    }

    method Release()
      requires Valid() && held
      modifies this
      ensures Valid() && !held && taken == old(taken)
    {
      held, released := false, released + 1;
    }

    /** Takes the turn and looks at the host once. */
    method TryTurn(host: Host, n: nat) returns (look: Take)
      requires Valid() && !held && NamesBlockers(host)
      modifies this
      ensures Valid() && look == LookOf(host, n) && (held <==> look == Ready(LetsTurnGo))
    {
      if host.hasTurn {
        match host.turns(n) {
          case TurnFails => return TakeFails;
          case HeldBy(holder) => return if holder == "" then Ready(NoFunction) else Busy(holder);
          case Taken => held, taken := true, taken + 1;
        }
      }
      if host.hasQuiet {
        match host.hosts(n) {
          case Quiet =>
          case HostFails =>
            if held {
              Release();
            }
            return TakeFails;
          case Blocked(who) =>
            if held {
              Release();
            }
            return Busy(who);
        }
      }
      return Ready(if host.hasTurn then LetsTurnGo else LetsNothingGo);
    }

    /** Waits for the turn and for a quiet host; a negative wait waits for nothing. */
    method TakeTurn(host: Host, quietWait: int, every: nat) returns (take: Take, looks: nat)
      requires Valid() && !held && NamesBlockers(host)
      modifies this
      ensures Valid() && (held <==> take == Ready(LetsTurnGo))
      // It ends at the first look that is no wait, or when the waits before it have used the time up.
      ensures (!host.hasTurn && !host.hasQuiet) || quietWait < 0 ==> take == Ready(LetsNothingGo) && looks == 0
      ensures (host.hasTurn || host.hasQuiet) && quietWait >= 0 ==>
                && looks >= 1 && (forall k :: 0 <= k < looks - 1 ==> LookOf(host, k).Busy? && host.waits(k))
                && (take == LookOf(host, looks - 1) ||
                    (take == TakeFails && LookOf(host, looks - 1).Busy? && !host.waits(looks - 1)))
                && (looks - 1) * PollOf(every) <= LimitOf(quietWait)
                && (take.Busy? ==> looks * PollOf(every) > LimitOf(quietWait))
    {
      if (!host.hasTurn && !host.hasQuiet) || quietWait < 0 {
        return Ready(LetsNothingGo), 0;
      }
      var limit, poll := LimitOf(quietWait), PollOf(every);
      var waited := 0;
      looks := 0;
      while true
        invariant Valid() && !held && waited == looks * poll <= limit
        invariant forall k :: 0 <= k < looks ==> LookOf(host, k).Busy? && host.waits(k)
        decreases limit - waited
      {
        take := TryTurn(host, looks);
        looks := looks + 1;
        if !take.Busy? {
          return;
        }
        if waited + poll > limit {
          return;
        }
        if !host.waits(looks - 1) {
          take := TakeFails;
          return;
        }
        waited := waited + poll;
      }
    }

    /** The whole of mw bd: the turn is taken before bd is run and let go when it has ended, however it ends. */
    method RunBd(host: Host, quietWait: int, every: nat, server: Server, call: Call, began: int, limit: int, ports: Ports)
      returns (why: Option<Why>, looks: nat, ghost heldThrough: bool, crashes: bool)
      requires Valid() && !held && NamesBlockers(host) && server.runs == 0 && server.looks == 0
      modifies this, server
      // Every turn taken is let go, once.
      ensures Valid() && !held && taken == released
      ensures why == None <==> server.runs == 0
      // bd runs holding the turn, whenever there is one to take and it is waited for, by a port that names whoever
      // has it.
      ensures server.runs > 0 && host.hasTurn && quietWait >= 0 && NamesHolders(host) ==> heldThrough
      ensures NamesHolders(host) ==> !crashes
      // Of any other, it runs without the turn, and letting that go fails, exactly when the look the wait ends with
      // finds the turn someone's and is not told whose.
      ensures server.runs > 0 && host.hasTurn && quietWait >= 0 ==> (heldThrough <==> !crashes)
      ensures looks > 0 <==> (host.hasTurn || host.hasQuiet) && quietWait >= 0
      ensures forall k :: 0 <= k < looks - 1 ==>
                LookOf(host, k).Busy? && host.waits(k) && !(host.hasTurn && host.turns(k) == HeldBy(""))
      ensures crashes <==>
                host.hasTurn && quietWait >= 0 && looks > 0 && host.turns(looks - 1) == HeldBy("")
    {
      var take;
      take, looks := TakeTurn(host, quietWait, every);
      forall k | 0 <= k < looks - 1 ensures !(host.hasTurn && host.turns(k) == HeldBy("")) {
        assert LookOf(host, k).Busy?;
      }
      heldThrough, crashes := held, take == Ready(NoFunction);
      if !take.Ready? {
        return None, looks, heldThrough, false;
      }
      var w, pauses := Retry(server, call, began, limit, ports);
      if take.release == LetsTurnGo {
        Release();
      }
      return Some(w), looks, heldThrough, crashes;
    }
  }

  function LimitOf(quietWait: int): int {
    if quietWait == 0 then BD_QUIET_LIMIT else quietWait
  }

  function PollOf(every: nat): nat {
    if every == 0 then BD_QUIET_POLL else every
  }
}
