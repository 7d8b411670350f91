/** The merge slot a batch landing holds, given up and taken back around its waits. */
module BatchSlots {

  /** The waits of a batch, one inside another as they are made. */
  datatype Wait = Wait(inner: seq<Wait>)

  /** How a yield goes: it shares the slot, or fails, having shared it or not. */
  datatype YieldAnswer = Shares | FailsKeeping | FailsShared

  class BatchSlot {
    /** What the n-th yield comes to, and whether the n-th resume takes the slot back. */
    const yieldAnswers: nat -> YieldAnswer
    const resumeAnswers: nat -> bool
    /** The holding is one that can be yielded; any other is simply kept. */
    const canYield: bool
    var yielded: bool
    var lost: bool
    var troubles: nat
    /** What the host's lock really is: held by this batch alone, or shared. */
    ghost var alone: bool
    /** A yield said it failed, and yet had shared the slot. */
    ghost var leaked: bool
    /** How often the holding was asked to yield, how often it did, and how often it was taken back. */
    var asked: nat
    ghost var granted: nat
    var resumed: nat

    /** Of the first n yields one failed having shared the slot, and none after it shared it as it should, to be
        taken back. */
    predicate Leaks(n: nat) {
      n > 0 &&
      match yieldAnswers(n - 1)
      case Shares => false
      case FailsKeeping => Leaks(n - 1)
      case FailsShared => true
    }

    ghost predicate Valid()
      reads this
    {
      && !(yielded && lost)
      && granted == resumed + (if yielded then 1 else 0)
      && (!yielded && !lost ==> (alone <==> !leaked) && (leaked <==> Leaks(asked)))
      && (yielded ==> canYield && asked > 0 && yieldAnswers(asked - 1) == Shares)
      && (!canYield ==> alone && !yielded && !lost && !leaked)
    }

    constructor (canYield: bool, yieldAnswers: nat -> YieldAnswer, resumeAnswers: nat -> bool)
      ensures this.canYield == canYield && this.yieldAnswers == yieldAnswers && this.resumeAnswers == resumeAnswers
      ensures asked == 0 && resumed == 0
      ensures Valid() && alone && !yielded && !lost && !leaked && troubles == 0
    {
      this.canYield, this.yieldAnswers, this.resumeAnswers := canYield, yieldAnswers, resumeAnswers;
      asked, granted, resumed := 0, 0, 0;
      yielded, lost, troubles, alone, leaked := false, false, 0, true, false;
    }

    /** The port's Yield: it makes the hold shared; one that fails may have done so all the same. */
    method PortYield() returns (ok: bool)
      requires canYield
      modifies `alone, `leaked, `asked, `granted
      ensures asked == old(asked) + 1 && granted == old(granted) + if ok then 1 else 0
      ensures ok <==> yieldAnswers(old(asked)) == Shares
      ensures alone == (old(alone) && yieldAnswers(old(asked)) == FailsKeeping)
      ensures leaked == (old(leaked) || (old(alone) && yieldAnswers(old(asked)) == FailsShared))
    {
      var answer := yieldAnswers(asked);
      ok := answer == Shares;
      asked := asked + 1;
      granted := granted + if ok then 1 else 0;
      if answer == FailsShared && alone {
        leaked := true;
      }
      if answer != FailsKeeping {
        alone := false;
      }
    }

    /** The port's Resume: it waits for the checks sharing the slot to end, and holds it alone. */
    method PortResume() returns (ok: bool)
      requires canYield
      modifies `alone, `leaked, `resumed
      ensures ok == resumeAnswers(old(resumed))
      ensures resumed == old(resumed) + 1
      ensures ok ==> alone && !leaked
      ensures !ok ==> leaked == old(leaked)
    {
      ok := resumeAnswers(resumed);
      alone := *;
      resumed := resumed + 1;
      if ok {
        alone, leaked := true, false;
      }
    }

    /** Gives the slot up for a wait; `mine` says this wait is the one that must resume. */
    method Yield() returns (mine: bool)
      requires Valid()
      modifies this
      ensures Valid() && yielded == (old(yielded) || mine) && lost == old(lost)
      // It asks when it may, and once for a wait inside a wait; a yield that fails is a trouble noted.
      ensures asked == old(asked) + if canYield && !old(yielded) && !old(lost) then 1 else 0
      ensures mine <==> canYield && !old(yielded) && !old(lost) && yieldAnswers(old(asked)) == Shares
      ensures asked > old(asked) ==> alone == (old(alone) && yieldAnswers(old(asked)) == FailsKeeping)
      ensures mine ==> granted == old(granted) + 1 && troubles == old(troubles)
      ensures !mine ==> granted == old(granted) && troubles == old(troubles) + asked - old(asked)
      ensures resumed == old(resumed)
      ensures old(yielded) || old(lost) ==> alone == old(alone) && leaked == old(leaked)
      ensures leaked && !old(leaked) ==> troubles > old(troubles)
      ensures troubles >= old(troubles)
    {
      if !canYield || yielded || lost {
        return false;
      }
      var ok := PortYield();
      if !ok {
        troubles := troubles + 1;
        return false;
      }
      yielded := true;
      return true;
    }

    /** The end of the wait that gave the slot up. */
    method Resume()
      requires Valid() && canYield && yielded
      modifies this
      ensures Valid() && !yielded && troubles == old(troubles) && asked == old(asked) && resumed == old(resumed) + 1
      ensures lost <==> !resumeAnswers(old(resumed))
      ensures !lost ==> alone && !leaked
      ensures lost ==> leaked == old(leaked)
    {
      yielded := false;
      var ok := PortResume();
      if !ok {
        lost := true;
      }
    }

    /** A wait with the waits made inside it. */
    method During(w: Wait)
      requires Valid()
      modifies this
      ensures Valid() && yielded == old(yielded) && (old(lost) ==> lost)
      ensures old(yielded) || old(lost) ==> lost == old(lost) && alone == old(alone) && leaked == old(leaked)
      ensures leaked && !old(leaked) ==> troubles > old(troubles)
      ensures troubles >= old(troubles)
      ensures asked >= old(asked) + if canYield && !old(yielded) && !old(lost) then 1 else 0
      ensures old(yielded) || old(lost) ==> asked == old(asked)
      decreases w
    {
      var mine := Yield();
      label inside:
      for k := 0 to |w.inner|
        invariant Valid() && yielded == old@inside(yielded) && (old@inside(lost) ==> lost)
        invariant yielded || old@inside(lost) ==>
                    lost == old@inside(lost) && alone == old@inside(alone) && leaked == old@inside(leaked)
        invariant leaked && !old(leaked) ==> troubles > old(troubles)
        invariant troubles >= old(troubles) && asked >= old@inside(asked)
        invariant yielded || old@inside(lost) ==> asked == old@inside(asked)
      {
        During(w.inner[k]);
      }
      if mine {
        Resume();
      }
    }
  }

  /** A yield that fails once it has shared the slot: the batch goes on as one that holds it alone, and does not. */
  method LeakingYield() returns (slot: BatchSlot)
    ensures fresh(slot) && slot.Valid() && !slot.yielded && !slot.lost
    ensures !slot.alone && slot.leaked && slot.troubles == 1
  {
    slot := new BatchSlot(true, n => FailsShared, n => true);
    var _ := slot.Yield();
  }
}
