# Millwright, verified

Millwright (`mw`) runs a factory of coding sessions on a few hosts: it lands their branches in tested batches, stages
and swaps a rig's backend, keeps sessions' `bd` commands from being lost or doubled, and checks a story's branch
before it is landed. This project models the parts of it where being wrong is costly, and proves what they are relied
on for.

## What is modelled

**Landing a batch** (`commit_graph`, `batch_queue`, `batch_slot`, `batch_ports`, `batch_merge`, `batch_fix`,
`batch_land`, `fixer_carry`, `landings`). A rig's history is a graph of commits with what each reaches; the landing
worktree, the report and the merge slot are objects that the landing changes step by step. The queue is sorted in
place, merged or set aside story by story, given to one fixer, tested and pushed. `BatchLanding.LandIn` is the whole
run: whatever reaches the origin is the commit the last gate run passed, holds every merged branch, adds no commit of
a branch's or of the fixer's that is signed as a machine's, and was pushed holding the slot alone unless a trouble was
noted; merged and set-aside stories are always the queue between them; and every hold is one that the ports gave cause
for. `Landings` is the follower that decides when each rig lands, over any number of passes.

**Staging and swapping a backend** (`swap_ticks`, `backend_stage`). The ticks are a transition system: any number of
processes that share notes and one lock, with every note write able to fail (and to have been made all the same), and
any process able to die between two steps, or while the step it began runs on. The staging is an object over the notes
of one live binary, whose methods write and clear them as the source does.

**The retrying bd** (`bd_call`, `bd_turn`, `bd_retry`). A command line taken apart, the host's one turn taken and let
go, and the nested wait that runs a command again only once it is known not to have landed.

**The worktree check** (`text`, `check_locks`, `check_log`, `kept_tests`, `part_runs`). The slot and the gate lock
under one bound, the order of locks among checks and landings, the printed report and the commit read back from it,
tests kept across calls, and a part's process that outlives its call.

**Small exact algorithms** (`attempt_causes`, `acceptance`, `working_days`).

A port's answers are a value (`Answers`, `Ports`, ...) that a run is given and that may hold anything, so a contract
says what a run comes to for each of them; one asked again and again is a function of how often it was asked. A
fixer's commits are chosen freely where they are made.

Module names are as the `module` lines say; a row below names a member as `Module.Member` or `Module.Class.Member`.

## What was found

Each of these is something the source's own words lead one to rely on and its code does not always keep, with the
exact condition proved and an input at which it fails.

- "A swap is begun at most once" (`application/backendauto.go:38-40`): `HandsAdd.Run` clears the ran note of a step it
  writes over (`application/hands.go:266-269`), and a staging tried again writes its step over. So a swap is run at
  most once more than its ran note is cleared, and that bound is met: one that failed, and whose standby could not be
  shipped to, is staged and run again (`RunAtMostOncePerClear`, `RestagedIsRunAgain`).
- A swap is run "never while another swap or a postern inbox pass holds the inbox lock"
  (`application/backendauto.go:34-38`): the lock goes with the process that holds it, and a step runs in a process
  group of its own (`infrastructure/hands/runner.go:96-100`). One living process at most runs a step; two steps are in
  flight exactly when one whose process died during it has not ended while another runs (`OneRunAtATime`,
  `DyingTickLeavesItsRun`).
- "The merge slot could not be shared during a wait, so it was held alone through it" (`application/batchslot.go:38`):
  the adapter's Yield can fail after it has shared the lock (`infrastructure/rig/slot.go:378-387`), and the batch then
  holds the slot no more and goes on as if it did (`LeakingYield`). A batch makes its pushes alone exactly when no
  yield failed so since the slot was last taken back, by what the yields answered (`Leaks`), and what a caller can see
  of one that did is a trouble noted (`LandIn`).
- "Nothing was pushed" of a held batch (`application/batchland.go:936`): a push that is said to have failed may have
  been taken. A held batch moved the target exactly when one was, and then to the very commit its gate passed
  (`LandIn`, `HeldYetMoved`).
- One open bead to a swap (`application/backendstage.go:419-452`): a staging that carries a bead of its own from a
  failed try writes on it whatever other bead holds the swap by now. `BackendStaging.Mill.Stage` states exactly when
  one open bead is left, from what can be seen before it, and `TwoOpenBeads` leaves two.
- What a held batch's fixer made is kept in its records, as a bundle (`application/batchfix.go:664-671`): commits are
  pushed to the stories' branches before they are bundled, so what was carried is in the bundle exactly when the
  bundle could be made (`FixerCarry.BundleFixer`, `CarriedNotBundled`).
- A part of a gate is not started twice (`application/checkpartdetached.go:18-19`): a call starts a process exactly
  when a start can be made and the record names none or cannot be read (`Part.CheckPart`). A record that cannot be
  read is taken for none (`application/checkpartdetached.go:75-78`), and one that could not be written names none
  though its process runs on (`application/checkpartdetached.go:132-134`); in both another is started beside it
  (`UnreadRecordStartsTwice`, `UnwrittenRecordStartsTwice`). While the record is read and written, each is told of
  once and in order (`Live`).
- A comment is written once: a second copy is written exactly when a run wrote one after another whose own could not
  be known, because the server dated it before the slack or bd keeps another text than mw reads of its words. Any
  clock behind by more than the slack does it, and any other text (`SecondCopy`, `UnknownIsWrittenTwice`).
- An acceptance that changed is said to have changed: lines are compared by eight hex digits of their hashes
  (`application/acceptancechange.go:31-35`), so a change is missed exactly when the lines' hashes are the same in the
  same order, and two words that share a hash are such a change (`HiddenChange`, `CollisionHidesAChange`).
- `CheckedTip` is empty "for any other log" than one that passed (`application/check.go:536-541`): a refused check
  whose last refusal says a tip line and then a passed one, and nothing after them, is read to have passed at that
  tip, and of no other is any tip read (`CheckedTipReadsTheReport`, `RefusedReadAsPassed`).
- `Dropped` is documented as the lines "gone or moved" (`application/acceptancechange.go:56`); a line that only moved
  is neither added nor dropped. A change counts nothing exactly when its lines have the same hashes in another order
  or number (`ChangedSinceClaim`, `MovedIsNeitherAddedNorDropped`, `TwoLinesMoved`).
- A chase is put off when its bead moves: exactly when a working day lies between the two times its chase is counted
  from or the second is no earlier in its day. One moved on a Friday evening and again on a Saturday morning is chased
  sooner (`MovingPutsTheChaseOff`, `FridayThenSaturday`).
- The order of the slot and the gate lock keeps checks and landings from waiting for each other
  (`application/checkgatelock.go:20-29`): in every run of any number of them, some wait in a circle exactly when a
  landing takes its slot back alone, holding the gate lock, from a check that waits for that lock
  (`RunsCircleExactlyWhen`), and a run of six steps comes to one (`ResumingCanMakeACircle`). Landings that never do so
  make no circle (`NoCircleWithoutTheLock`), and every circle goes through such a check, whose wait has a bound
  (`EveryCircleIsBounded`).

Two results rest on what a port is documented to answer, and its adapter does, so they are stated of a port that does:
`LandProcesses.Pending` names each rig's landing once (`infrastructure/apartproc/apartproc.go:186-202` lists one
directory for each), and a rig is then started once in a pass (`Landings.BatchLandings.Pass`); and the bd turn's port
names whoever holds it (`infrastructure/hostlock/bdturn.go:45-52`), and bd then never runs without the turn
(`BdTurns.Turn.RunBd`). Both say what comes of any other port.

## Model

| member | source | states |
|---|---|---|
| BatchQueue.SortOldestQueued | application/batchland.go:476-491 | the queue is sorted in place: in order, and the same stories |
| BatchQueue.OneSortedOrder | application/batchland.go:476-491 | of distinct ids there is one sorted order, so it never depends on the order the tracker gave |
| BatchQueue.Queued | application/batchland.go:434-474 | the batch is the oldest story's target's stories, in queue order, or the oldest alone |
| BatchQueue.KeepOldestTarget | application/batchland.go:458-470 | the in-place filter leaves, at the front and in order, exactly the stories of the oldest one's target |
| BatchQueue.OnTargetOfKeeps | application/batchland.go:458-470 | each story of the target is kept as often as it was queued, and no other |
| BatchQueue.OnTargetOfKeepsOrder | application/batchland.go:458-470 | what is kept is still in merge order |
| BatchQueue.BatchIsTheQueues | application/batchland.go:434-474 | two reads of one queue, in whatever order, make the same batch |
| CommitGraph.MergeKeepsClean | application/batchland.go:696-725 | merging a branch with no signed commit beyond the base keeps the batch free of any but mw's own |
| CommitGraph.CleanIsOthersUnsigned | application/batchfix.go:344-356 | a batch that is clean but for what mw made itself holds nothing signed of a branch or of the fixer |
| CommitGraph.AheadZeroIsContained | application/batchfix.go:357-360 | a branch with no commit beyond another is wholly in it, and only such a one |
| BatchPorts.Repo.Merge | application/batchland.go:706-726 | a merge contains both sides and keeps a clean batch clean; one that is not made changes nothing |
| BatchPorts.Repo.RunFixer | application/batchfix.go:267-300 | a fixer only adds commits, each its own and none of mw's, whatever it signs |
| BatchSlots.BatchSlot.Yield | application/batchslot.go:31-48 | asked once for a wait inside waits, never once lost; a failure is noted as a trouble, and a leak never without one |
| BatchSlots.BatchSlot.Resume | application/batchslot.go:43-48 | the slot is held alone again, or is lost for good |
| BatchSlots.BatchSlot.During | application/batchslot.go:12-56 | over any nesting of waits: each yield granted is resumed once, and not yielded and not lost means alone exactly when no yield leaked by what the yields answered |
| BatchSlots.LeakingYield | infrastructure/rig/slot.go:374-388 | a yield that fails and leaves a slot that is taken to be held alone and is not |
| BatchMerge.MergeOne | application/batchland.go:682-727 | which of the five things becomes of a story, from what the ports say, and that one set aside leaves the batch as it stood |
| BatchMerge.MergeNext | application/batchland.go:682-728 | the story goes to the one part of the report it belongs to, and all that was so of both parts stays so |
| BatchMerge.MergeAll | application/batchland.go:682-728 | the two parts are the queue between them, each story judged on the batch as the ones before it left it |
| BatchMerge.PartsMakeTheWhole | application/batchland.go:682-728 | whatever each story's answer, nothing of the queue is lost or doubled |
| BatchMerge.GrowthKeepsOrder | application/batchland.go:682-728 | later commits change nothing of why each story was merged or set aside |
| BatchFix.TakeHeld | application/batchfix.go:367-379 | the in-place filter keeps, in order, what the fixer left and hands back, in order, what it merged |
| BatchFix.TakenAndLeft | application/batchfix.go:367-379 | taken and left are between them what was set aside |
| BatchFix.TakenAreHeld | application/batchfix.go:367-376 | only a story set aside whose branch the fixer's commit holds is taken, and it is marked so |
| BatchFix.TakingKeeps | application/batchfix.go:367-380 | taking keeps the partition, the reasons, and that every merged branch is in the batch |
| BatchFix.FirstDropped | application/batchfix.go:357-366 | no story merged before is missing, or the one named is |
| BatchFix.AfterFixer | application/batchfix.go:336-380 | the batch goes on exactly when what the fixer left is committed, readable, unsigned and drops nothing; otherwise it is held for a reason that is so |
| BatchFix.TakeSetAside | application/batchfix.go:367-380 | stories only move from set aside to merged, and the fixer's record names those that did |
| BatchFix.AwaitFixer | application/batchfix.go:267-300 | the slot is offered during the fixer's run and back before its work is looked at; each of the ways it can end holds the batch and no other does |
| BatchFix.Fix | application/batchfix.go:227-300 | a fixer that cannot start holds a red batch and leaves an untested one to land; one that starts is counted once |
| BatchLanding.Entries | application/batchland.go:551-566 | the entries of the stories the batch brings, in merge order, unless one cannot be read |
| BatchLanding.RaiseVersion | application/batchland.go:534-573 | one raise is asked for, minor when any story it brings asks, none when the batch brings nothing new; and it never loses a merged branch |
| BatchLanding.RunGate | application/batchland.go:655-676 | with any waits one after another: a run on a batch that lost its slot has no verdict, whatever the tests said; and a yield that leaks in it leaves a trouble noted |
| BatchLanding.PushRetrying | application/next.go:3108-3138 | every push is of the tested commit, tries are bounded, and the target moved exactly when a push was taken |
| BatchLanding.Publish | application/batchland.go:614-639 | landed exactly when the commit is read and the last push accepted, and held for what that answered |
| BatchLanding.MakeBatch | application/batchland.go:510-573 | a fixer is tried exactly when a story conflicted; nothing merged stays out; the version's holds are exact |
| BatchLanding.GateBatch | application/batchland.go:575-612 | a second run is made exactly when a fixer mended a red batch that is its own and not main's |
| BatchLanding.TestAndPush | application/batchland.go:575-639 | what the origin took is what the last run passed; the last verdict and the push alone decide the hold |
| BatchLanding.LandIn | application/batchland.go:510-640 | the whole run: partition, one fixer, two gate runs, what is pushed is what was tested, whole, with nothing signed of a branch or the fixer, and alone exactly when no yield leaked; each hold is exact |
| BatchLanding.HeldYetMoved | application/next.go:3108-3138 | a batch held for a push that failed, and the target moved to its commit |
| FixerCarry.HoldsEvery | application/batchfix.go:647-662 | a story whose files are none holds nothing, and any other what is all among them |
| FixerCarry.FindOwner | application/batchfix.go:600-619 | the one merged story that has all the commit's files, and none when two do |
| FixerCarry.OwnerMeans | application/batchfix.go:600-619 | an owned commit touches something, its owner covers it, and no other merged story does |
| FixerCarry.SortByStory | application/batchfix.go:598-624 | the commits are sorted by owner, each under one story and in order |
| FixerCarry.CarryFixer | application/batchfix.go:577-645 | each story is carried all that is its alone, in order, or nothing |
| FixerCarry.OwnedAreTheirs | application/batchfix.go:598-624 | a commit is under a story exactly when it is the fixer's and that story's alone |
| FixerCarry.BundleFixer | application/batchfix.go:671-707 | each story is carried all of the fixer's commits that are its alone or none, and they are in the bundle exactly when one was made |
| FixerCarry.CarriedNotBundled | application/batchfix.go:691-703 | a commit carried to its story's branch and in no bundle |
| Landings.DueInTime | application/batchland.go:1268-1284 | a queue of BatchMin is due by BatchEvery after its oldest, and below BatchMax not before |
| Landings.LawfulAdd | application/batchland.go:1520-1568 | starting only what is ready keeps, over the whole history, the two waits a rig is owed |
| Landings.RemembersAdd | application/batchland.go:1618-1684 | what the follower keeps in its two maps is what happened last |
| Landings.BatchLandings.Consider | application/batchland.go:1548-1566 | one rig's wait after a failure, after nothing taken, and until its queue changes |
| Landings.BatchLandings.FindDue | application/batchland.go:1520-1568 | exactly the rigs wanted now, in name order, forgetting only queues seen changed |
| Landings.BatchLandings.End | application/batchland.go:1611-1636 | a failure is remembered with its time, a clean end that took nothing with its queue, one left running not at all |
| Landings.BatchLandings.Advance | application/batchland.go:1645-1661 | a look again starts every due rig that this pass has not, and no other |
| Landings.BatchLandings.Pass | application/batchland.go:1591-1663 | each rig is started once, given a port that names each landing once, and exactly when it names none it adopts twice; the pass is over only when all it started has ended, and goes on until then |
| Landings.Adopt | application/batchland.go:1689-1712 | the landings pending on this host that are not due already, in order |
| Landings.FirstsDistinct | application/batchland.go:1689-1712 | a pass begins with no rig twice exactly when it adopts none twice |
| Landings.PendingOnceIsStartedOnce | application/batchland.go:1689-1712 | landings pending that are each named once are each adopted once |
| Landings.PendingTwiceIsStartedTwice | application/batchland.go:1689-1712 | why it needs them named once: a rig named twice is started twice |
| Landings.LandRig | application/batchland.go:1718-1737 | a drain lands at most as many as were queued, each leaving fewer, and ends well exactly on an empty queue |
| SwapTicks.StepKeeps | application/backendauto.go:74-174 | any step of any process, failing or not, keeps one holder of the lock, what it found, and the count of runs |
| SwapTicks.RunAtMostOncePerClear | application/backendauto.go:34-41 | in every run of any number of ticks, a swap is run at most once more than its ran note is cleared |
| SwapTicks.RestagedIsRunAgain | application/hands.go:233-274 | the bound is met for every number of stagings again |
| SwapTicks.OneRunAtATime | application/backendauto.go:83-90 | one living process at most runs a step, tick or inbox; two steps are in flight exactly when a process died during one that has not ended |
| SwapTicks.AdriftAreTheDead | infrastructure/hands/runner.go:96-100 | in every run, the steps that run on without a process are those whose process died during them and that have not ended |
| SwapTicks.DyingTickLeavesItsRun | application/backendauto.go:83-111 | a tick that dies in a run, and the next tick running another swap beside it |
| SwapTicks.BarredIsNeverRun | application/backendauto.go:130-174 | a step begun, superseded or retired before any tick's look at that note is never run until the note is cleared |
| SwapTicks.TickMoves | application/backendauto.go:74-126 | a tick goes on past each look only when the note looked for is not there |
| SwapTicks.WholeTickRuns | application/backendauto.go:74-126 | a tick with nothing in its way does run the swap, and lets go of everything |
| BackendStaging.Mill.SwapSteps | application/backendstage.go:602-637 | every step not run clean nor retired, in order, or that they cannot be read |
| BackendStaging.Mill.OpenSwapOf | application/backendstage.go:641-657 | an open bead that holds the swap is found exactly when there is one that can be read |
| BackendStaging.Mill.SupersedeOlder | application/backendstage.go:659-684 | every other swap not run clean is marked by the bead, its own unmarked, the rest untouched |
| BackendStaging.Mill.WriteStep | application/hands.go:227-272 | a step written over loses what was noted of the one before, note by note, however many of the writes go through |
| BackendStaging.Mill.WriteSwap | application/backendstage.go:537-547 | every swap that could still run then names the one commit |
| BackendStaging.Mill.Stage | application/backendstage.go:450-514 | when it succeeds, on which bead, which one it carries on if not, that one commit is left, and exactly when one open bead still holds the swap |
| BackendStaging.Mill.Attempt | application/backendstage.go:382-417 | another process's claim is no try; a failure is one, kept with its bead; the third is said |
| BackendStaging.Mill.Ticks | application/backendstage.go:261-292 | a landing is tried at each tick until its staging clears it or three failures are kept, and what each try came to is what its ports answered |
| BackendStaging.GivenUpOnce | application/backendstage.go:382-417 | while failures are kept, it is said that nothing more is tried once, and exactly after the third |
| BackendStaging.Mill.StageHeld | application/backendstage.go:382-514 | a staging of any landing, fresh, kept or read a while ago, leaves one open bead for every swap unless it would not write on the one there is; one with no bead of its own that can read the others' always does |
| BackendStaging.Mill.Happen | application/backendstage.go:419-447 | so do any stagings of any commits in any order, from what was kept of them or not, with steps run, retired and beads closed between |
| BackendStaging.TwoOpenBeads | application/backendstage.go:445-487 | two open beads to one swap, from a bead carried on past another process's staging |
| BdCalls.ParseBdCall | application/bdretry.go:106-139 | nothing is lost, the globals are flags with their values, and the subcommand is no flag |
| BdCalls.OneWayToTake | application/bdretry.go:124-139 | there is one such way to take a command line apart |
| BdCalls.Positional | application/bdretry.go:141-156 | the words that are neither flags nor flags' values, in order |
| BdCalls.FlagsAreNotPositional | application/bdretry.go:141-156 | flags put anywhere among the words change none of them |
| BdCalls.KindIsOfTheWords | application/bdretry.go:180-195 | how a command may be run again does not depend on its flags, and only the known ones may be |
| BdRetries.EightPausesFit | application/bdretry.go:11-23 | the default limit holds eight pauses and no ninth |
| BdRetries.Server.ReadBack | application/bdretry.go:333-405 | a comment is said to have landed exactly when one not dated before it is there; a close when every bead is closed |
| BdRetries.WaitAndLook | application/bdretry.go:227-259 | a command is run again only once it is known not to have landed, and what ends the wait is so |
| BdRetries.Retry | application/bdretry.go:197-262 | the waits stay in the limit, what cannot be told is run once, and a success means the text, as bd keeps it or as mw reads it, is on the bead or the beads are closed |
| BdRetries.RetryWithin | application/bdretry.go:11-23 | at the default limit nine runs and eight pauses at most; and exactly when a comment has a second copy |
| BdRetries.OneCopyAtMost | application/bdretry.go:40-49 | a server clock within the slack and a text read as it is kept mean one copy at most |
| BdRetries.SecondCopy | application/bdretry.go:391-404 | a second copy is written exactly when a run wrote one after another that could not be known for its own |
| BdRetries.UnknownIsWrittenTwice | application/bdretry.go:374-404 | any clock behind by more than the slack, and any text kept but the one read, and the comment written twice |
| BdTurns.Turn.TryTurn | application/bdquiet.go:187-215 | one look: the turn is held exactly when it was free and the host quiet |
| BdTurns.Turn.TakeTurn | application/bdquiet.go:151-185 | it ends at the first look that is no wait, and its waits stay in the limit |
| BdTurns.Turn.RunBd | application/bdretry.go:200-206 | every turn taken is let go once; bd runs holding it, given a port that names its holder, and of any other exactly when it does not |
| CheckLocks.Locks.TakeForTests | application/checkgatelock.go:86-138 | refused holds nothing, granted holds what it gives back and fits what is left of the call, each refusal for its own reason, and both waits stay in the one bound |
| CheckLocks.Locks.RunTests | application/checkgatelock.go:201-220 | the tests run exactly when both are had and the gate still fits the call after the calm, and nothing is held after |
| CheckLocks.LateFitsAFreshCall | application/checkgatelock.go:173-185 | a late gate stays late and fits a fresh call; one that no call fits is never late |
| LockOrder.NoCircleWithoutYields | application/checkgatelock.go:20-29 | checks and landings that keep their slot never wait in a circle |
| LockOrder.CircleExactlyWhen | application/checkgatelock.go:20-29 | in any state of any number of them, a circle exists exactly when a landing takes its slot back with the lock from a check that waits for it |
| LockOrder.RunsKeepApart | application/batchslot.go:8-16 | in every run a slot has one landing at most, and while that has it alone nobody else, and the lock one holder |
| LockOrder.RunsCircleExactlyWhen | application/checkgatelock.go:20-29 | so in every run a circle exists exactly when a landing and a check block each other |
| LockOrder.NoCircleWithoutTheLock | application/checkgatelock.go:20-29 | landings that never take their slot back while they hold the lock make no circle |
| LockOrder.EveryWaitEndsAtOneThatRuns | application/checkgatelock.go:20-29 | where no landing resumes with the lock, whoever waits, waits through some chain for one that waits for nobody |
| LockOrder.ResumingCanMakeACircle | application/gate.go:328-344 | a run in which a landing that gave its slot up for the lock takes it back with the lock, from a check that waits for it |
| LockOrder.EveryCircleIsBounded | application/checkgatelock.go:20-29 | every circle goes from a landing that resumes with the lock to a check that waits for the gate lock, which has a bound |
| CheckLog.CheckedTipReadsTheReport | application/check.go:534-605 | what is read of any report's log: the tip of one that passed, and of another nothing but what its last refusal's last words say |
| CheckLog.RefusedReadAsPassed | application/check.go:542-605 | a refused report, its last refusal saying a tip line and a passed one, that is read as passed |
| CheckLog.LogReadBack | application/check.go:542-552 | the last three lines of a log are what is read of it |
| KeptTests.RecordVouches | application/checkaftertests.go:53-88 | a record vouches for the one commit it was written for |
| KeptTests.CheckRuns.KeptTests | application/checkaftertests.go:66-88 | an answer exactly when the attempt's last keeper kept at this commit |
| KeptTests.CheckRuns.WholeCheck | application/check.go:341-377 | tests are skipped exactly when the last call to keep any kept them at this very commit, clean, with its last run passed |
| KeptTests.CheckRuns.KeepTests | application/checkaftertests.go:53-64 | kept exactly when the last run passed at a known tip that the branch is still at |
| PartRuns.RecordNamesIt | application/checkpartdetached.go:70-88 | the record of a process is read back as that process |
| PartRuns.ToldNamesNone | application/checkpartdetached.go:70-88 | a record that was told names none |
| PartRuns.Part.StartPart | application/checkpartdetached.go:111-139 | a process is started and recorded, or started and named by no record, or none is started, and exactly when each |
| PartRuns.Part.WaitForPart | application/checkpartdetached.go:141-169 | it waits for all the time there is and no longer than the process |
| PartRuns.Part.PartEnded | application/checkpartdetached.go:186-208 | the verdict is what the process kept, and none when that cannot be read; the process is then told |
| PartRuns.Part.CheckPart | application/checkpartdetached.go:90-109 | exactly when a process is started; an outstanding one whose record is read is joined; what is told is the last one's, for the first time |
| PartRuns.Live | application/checkpartdetached.go:12-19 | over any calls and ends of processes, while the record is read and written, the processes are told of in the order they were started, each once and as it ended, and only the last may be alive |
| PartRuns.UnreadRecordStartsTwice | application/checkpartdetached.go:75-78 | a call that cannot read the record starts the part beside the process that is outstanding |
| PartRuns.UnwrittenRecordStartsTwice | application/checkpartdetached.go:129-134 | a process that could not be recorded, and the next call starting the part beside it with every read and write going through |
| AttemptCauses.ParseAttemptCauses | application/cause.go:33-50 | the pairs that can be read, a later one of an attempt in place of an earlier |
| AttemptCauses.AttemptCausesText | application/cause.go:52-65 | every cause once, oldest attempt first |
| AttemptCauses.CausesReadBack | application/cause.go:33-65 | causes that can be kept are read back from their text as they were |
| AttemptCauses.OwnAttempts | application/cause.go:74-89 | every attempt counts or is listed with its cause, oldest first |
| AttemptCauses.Story.NameCause | application/cause.go:184-191 | the latest attempt's cause is named and every other left |
| AttemptCauses.Story.Start | application/attempts.go:89-117 | only causes of earlier attempts are left, so the new one counts as the story's own |
| AttemptCauses.Story.StartNext | application/attempts.go:119-127 | the count goes up by one, and so does what counts |
| AttemptCauses.Live | application/attempts.go:89-127 | after any history that ends in a start, the attempt has no cause and counts |
| Acceptance.RecordReadBack | application/acceptancechange.go:36-49 | the record is read back as the lines' hashes, and an empty acceptance as its own mark |
| Acceptance.SameRecord | application/acceptancechange.go:36-49 | two texts have one record exactly when their lines have the same hashes in the same order |
| Acceptance.HiddenChange | application/acceptancechange.go:60-85 | a change is missed exactly when the texts differ and their lines' hashes do not |
| Acceptance.AddedAreUnhashed | application/acceptancechange.go:68-77 | a line is said to be added exactly when it is there now and no line before had its hash |
| Acceptance.ChangedSinceClaim | application/acceptancechange.go:60-85 | changed exactly when the lines' hashes differ; where no two lines of the texts share one, exactly when the lines do, with the new lines in order and the distinct ones gone |
| Acceptance.CollisionHidesAChange | application/acceptancechange.go:31-49 | a word put in place of another with its hash is a change that is missed |
| Acceptance.AcceptanceChangedSince | application/acceptancechange.go:60-85 | the comparison of any record at all, and none of one that was not made |
| Acceptance.SpacingIsNoChange | application/acceptancechange.go:18-29 | two lines are the same exactly when they have the same words |
| Acceptance.MovedIsNeitherAddedNorDropped | application/acceptancechange.go:52-85 | of lines that only change places the comparison adds and drops none, and is a change exactly when their hashes come in another order |
| Acceptance.NothingAddedNorDropped | application/acceptancechange.go:64-84 | nothing is counted exactly when the lines' hashes are the same ones |
| Acceptance.TwoLinesMoved | application/acceptancechange.go:52-85 | two lines in the other order: a change with nothing added and nothing dropped |
| WorkingDays.AddWorkingDays | application/ask.go:59-70 | it ends, on the n-th working day after, at the same time of day |
| WorkingDays.ExactlyN | application/ask.go:59-70 | exactly n working days lie between |
| WorkingDays.LeastDay | application/ask.go:59-70 | no day before it has as many |
| WorkingDays.AddsUp | application/ask.go:59-70 | in two steps as in one |
| WorkingDays.LaterEndsLater | application/ask.go:59-70 | a later start never ends on an earlier day |
| WorkingDays.WeeksOfFive | application/ask.go:59-70 | five working days from a working day are a week, for any number of weeks |
| WorkingDays.AskChaseAt | application/ask.go:82-94 | a chase is three working days after the later of the two times known |
| WorkingDays.MovingPutsTheChaseOff | application/ask.go:82-94 | exactly when a bead that moves is chased no sooner, whether or not the start of its wait is known, and never on an earlier day |
| WorkingDays.FridayThenSaturday | application/ask.go:82-94 | a bead that is chased sooner for having moved |
| WorkingDays.ChasedInItsTime | application/ask.go:82-94 | never before three working days since its wait began and since it last changed |

## Left out

- Everything a person reads but the check's own report: `BatchReport.String`, mails, comments, notes, `swapSaid`.
- Git, tmux, ssh, beads, files and the chain themselves: each is what its port is said to answer.
- The ticks and the inbox pass are one transition system and not objects: their meaning is in how they interleave.
- The close of a swap's bead and the record of how it ran are one answer of the tracker's.
- BackendStaging.Mill.Stage: is one step from its claim to its release, as the claim makes it; a `mw hands add` by hand, which takes no claim, is not among what happens between.
- A step is named by its commit's short hash: two commits that share one are one swap here.
- `findUnstaged`, and the standby's own bead: the second half repeats the first on another live path, which is taken to differ.
- The changed specs' own process (`checkspecsdetached.go`), the notices while a check waits, and the kept places of a queue.
- CheckLocks.Locks.TakeForTests: models whole time units, and a wait that ends no later than its bound.
- LockOrder.EveryCircleIsBounded: does not model how long a bound is; a wait that runs out is a process that ends, and one may take a lock whatever its place in the queue.
- `BdBlocker` and `BdBeadsDir`: which processes a host is not quiet for is path text; only that a blocker is named is used.
- The reads of bd are truthful but for what their answers say, and a close names the beads that mw reads of it; another's identical comment within the slack is taken for this command's, as the source takes it.
- BdCalls.ParseBdCall: keeps apart a subcommand that is the empty word and none at all, which the source does not.
- PartRuns.Part.CheckPart: one call at a time, and a process id the host does not give twice; a call that is cut off ends as one whose time is up.
- AttemptCauses.Live: causes are named by `mw cause`; text put in the field by hand is read as any text is, and not followed on.
- Acceptance.RecordReadBack: of the hash only that it writes eight hex digits is used, not that it is a SHA-256's.
- WorkingDays.AddWorkingDays: reads days in one zone and keeps the time of day; a zone that changes its clocks is not modelled.
- Landings.BatchLandings.Pass: takes a due rig's start together with the look that found it; an end that falls between is of another rig.
- `Atoi` reads digits alone: a number written with a sign is none.
- The statistics of batches, the after-landing steps, and the readers that are one regular expression.
