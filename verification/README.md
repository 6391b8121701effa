# Verification of the tokio-actors stop, kill and shutdown protocols

A Dafny model of the concurrent core of `tokio-actors`: how a `Kill` is raised, recorded and enforced, how a system
is shut down by any number of overlapping calls, how the reaper enforces abort deadlines, and the two smaller caches
that stand beside them. `dafny verify dfyconfig.toml` checks everything.

## How it is modelled

Concurrency is a state and its atomic steps. `Next(s, a)` is one step of one thread, `Run(states, acts)` a finite run
from the start, and a theorem about a protocol is a lemma about every state of every run, for any number of threads
and any interleaving. An access under a lock or to one atomic is one step; what the code reads first and acts on later
is two. Code that is one thread's loop over mutable state is a class or a method with its loop: the shutdown walk, the
reaper, the snapshots, the helper slots, the whole calls of the system object and of the timer cache. While a walk
waits, everything else may change; `World.Later` says what may and what may not, and `LaterHolds` derives it from the
runs of the gate, of the registrations and the lanes, of the ends and of the abort records. What a walk did and saw is
kept in a log of deeds, each with the incarnation as it was at that moment: after what it was when the walk began and
before what it is when the walk ends, its lane, its record and its entries included. So what the log says was done
shows in the world the walk leaves (`World.TrailShown`). What is not of the code's own choosing, such as which tasks
fail or end, when a reaper is cut and what arrives meanwhile, is an input. The sweep deadline that the system holds is
kept in two parts, what this walk folded into it and what other calls did, so that what a walk is responsible for can
be told.

Incarnations go by their registration serial, and instants are nanoseconds from an arbitrary origin.

| file | what it models |
|---|---|
| `Lane`, `AbortRecord`, `Verdict`, `Base` | the stop lane, the abort record and the verdict floor, the outcome classifiers, deadline arithmetic |
| `StepCell` | the 16-bit cell that counts a call's `Kill` raisers |
| `Decision` | the cell that settles who owes the steps of a bounded stop |
| `Registry`, `Handshake`, `Ownership`, `KillArmed`, `Isolation`, `Deadlines`, `Steps`, `Instants`, `Requests` | registration, attach, kill declaration, stops and aborts by id and teardown over incarnations that reuse ids and names, and the instants they go by |
| `Gate`, `Admission`, `System` | phases, overlapping shutdowns, registrations against them, and the system object |
| `Sweep` | overlapping final sweeps over one leftover, and whether they agree |
| `World`, `Walk`, `Force`, `Shutdown`, `Passes`, `FinalSweep` | the shutdown walk: what it acts on, the ladder, the concurrent force, a batch of roots, all roots, the sweep and the whole |
| `LaterHolds` | why a walk may rely on what it relies on while it waits |
| `Reaper`, `ReaperTruth`, `ReaperLoop` | the reaper's entries, step by step, what its log says of tasks and lanes, and its task |
| `Enforcement` | from an accepted `Kill` to the abort in the record |
| `TimeProbe`, `TimeRuns` | the time-driver cache, and more of its runs |
| `Helpers` | the helper slots |

## Where the code and its comments disagree

The comment on the final sweep says that one end gets one outcome whichever call reports it
(`src/system.rs:2134-2138`), and the comment on the fold that a lowering cannot land on an end already final
(`src/system.rs:2236-2242`). The fold reads the clock before it takes the lock that publishes the lowered deadline, so
an end can become final in between. `Sweep.SplitFoldDisagrees` is a run of the code in which two calls report one end
as `Graceful` and as `Killed`. `Sweep.FoldKeepsVerdict` gives the exact condition under which a fold keeps a verdict,
`Sweep.UnsafeFoldSplits` shows that a fold outside it does split the verdict of two calls, and
`Sweep.StrictVerdictsAgree` that with each fold as one step, and no wait task failing, all calls agree.
`Sweep.FailedWaitDisagrees` shows that the second proviso is needed too.

## Model

| member | source | states |
|---|---|---|
| `Lane.KillIsRefusedOrStands` | src/actor/supervision/rules.rs:2028-2047 | a `Kill` on a lane in any state is refused with nothing changed, or recorded and standing at once; it is never superseded |
| `Lane.RequestsOnlyStrengthen` | src/types/stop_lane.rs:225-247 | whatever is done to a lane, the pending request never weakens, a standing `Kill` stands for good, and a refusal is final |
| `Lane.AnswerIs` | src/actor/supervision/rules.rs:2028-2047 | in any state: refused exactly when the lane is closed to the reason, superseded exactly below the level of the request standing, recorded otherwise; recording moves the generation by one, round 64 bits, and the stronger of the two requests, or the newer of two equals, stands |
| `Lane.StrongestStands` | src/types/stop_lane.rs:225-247 | whatever is asked of an open lane, in whatever order, the last of the strongest requests stands |
| `Lane.ClosedForGood` | src/types/stop_lane.rs:104-120 | once closed to all but `Kill`, sealed, or its receiver dropped, a lane refuses so for good |
| `StepCell.CellCountsShares` | src/system.rs:3160-3266 | in every run of at most 65,534 raisers at once, with unwinds at any point and spurious exchange failures, the cell is `KILLED` or exactly the number of shares not yet settled |
| `StepCell.KilledForGood` | src/system.rs:3160-3266 | `KILLED` is never left, and an accepted raise is never forgotten |
| `StepCell.NoAcceptedKillReadsGraceful` | src/system.rs:3160-3266 | once a raise of the call is accepted no reader is answered `Graceful`; `Killed` is answered only for an accepted raise or an unwind out of one; and with no raiser in flight every reader is answered |
| `StepCell.RaisersRaise` | src/system.rs:3160-3266 | in every run a raiser past its raise that did not unwind has raised: the lane holds a `Kill` or refuses one, and the raise was accepted unless the lane refused a `Kill` before |
| `StepCell.DoneRaiserReadsKilled` | src/system.rs:3160-3266 | once such a raiser is done, and unless the lane refused a `Kill` before, no reader is answered `Graceful`, and with none in flight every reader is answered `Killed` |
| `StepCell.UnwoundReadsKilled` | src/system.rs:3160-3266 | a raiser that unwinds out of its raise with a share leaves the cell `KILLED` once it is done |
| `StepCell.RaiserFinishes` | src/system.rs:3160-3266 | any run can go on to the end of any raiser by the steps of that raiser alone |
| `StepCell.CapacityIsExact` | src/system.rs:3052-3057 | the bound is exact: one raiser more makes a reader see `Killed` with no raise ever entered |
| `Decision.OwedByExactlyOne` | src/system.rs:3078-3130 | in every interleaving of the caller's decision with the loss of the stop task, no step is taken before the request is decided accepted, and the steps of an accepted request whose task is lost are handed over exactly once, those of any other never |
| `Decision.AcceptedTakesItsSteps` | src/system.rs:3078-3130 | in every run the stop task ends without its steps only for a request not accepted |
| `Registry.DeclareRecords` | src/system.rs:206-212 | a recorded deadline stays the exact minimum of all declared, 0 meaning none |
| `Registry.EarlierDueRecords` | src/system.rs:1370-1384 | combining the two entries' deadlines gives the minimum over what was declared on either |
| `Registry.AccessesAreLocal` | src/system.rs:1255-1264 | an access guarded by a registration's serial changes only entries of that registration's incarnation |
| `Ownership.SerialNamesInc` | src/system.rs:1255-1264 | a serial is carried by an entry exactly where the incarnation that drew it holds its id or name |
| `Ownership.StepTidy` | src/system.rs:1164-1248 | every step of registration, attach, declaration, raise and teardown changes nothing of any incarnation but its own and leaves its own entries right |
| `Ownership.StepOwned` | src/system.rs:1164-1264 | every step keeps the ownership of all entries |
| `Instants.AcceptedKillIsArmed` | src/system.rs:258-289 | for any number of by-id and by-name raisers and one attach, once those are done an accepted `Kill` on an incarnation that stays registered has an abort armed on that incarnation's own task, through its own record: by its raiser, its window or else the kill grace after that step, or by the attach, no later after that step than up to the deadline the raiser declared |
| `Instants.ArmedOnlyOnKilled` | src/system.rs:1328-1366 | an abort is armed only on an incarnation whose lane holds a `Kill`, by a raiser or by the attach at some step, for an instant no earlier than that step |
| `Instants.RaiserArms` | src/system.rs:1470-1491 | in every run a raiser that schedules arms exactly one abort, on its target's own task, its window or else the target's kill grace from that step on, up to the thirty-year horizon |
| `Instants.DeclaresWhatItWants` | src/system.rs:1407-1429 | in every run the deadline a raiser declared is its window, or else its target's kill grace, after a clock it read, in 64 bits, and is among those declared on its target |
| `Instants.EveryArm` | src/system.rs:1328-1366 | in every run every armed abort was armed at some step, by a raiser or by the attach, for the instant that one wants |
| `Instants.AttachClock` | src/system.rs:1353-1366 | in every run the clock an attach counts its delay from is one it read |
| `Steps.RaisersDeclareAndRaise` | src/system.rs:1407-1491 | in every run a raiser past its declaration has declared a deadline exactly if it found its target under its key then; it has raised its `Kill`, which the lane took if the raiser goes on or ends accepted and refused if it ends refused |
| `Steps.AttachGoesByItsOwn` | src/system.rs:1328-1366 | in every run an attach reads the lane, and so arms, only if it found its own entry under its id, and the deadline it goes by was declared on its own incarnation |
| `Steps.EachStepCounts` | src/system.rs:1328-1491 | nothing holds up a raiser or a spawn: each step of its own brings it nearer to its end |
| `KillArmed.RunMet` | src/system.rs:1470-1491 | in every reachable state an accepted raiser has left an armed abort behind or an attach that has still to read the lane |
| `Isolation.OthersOutOfReach` | src/system.rs:1191-1264 | over any stretch of any run, what is started on other incarnations, stops and aborts by id included, leaves the entries, abort handle, declared deadlines, lane, guard and aborts of an incarnation unchanged, whichever ids and names they share |
| `Isolation.EntriesFollowTheGuard` | src/system.rs:347-362 | an id entry stands exactly while its guard holds it, a name entry exactly while the registration or the guard holds it; a refused registration and a freed guard leave nothing in either map |
| `Isolation.LookupsFindTheirOwn` | src/system.rs:2510-2560 | a lookup that matches an incarnation by plane or serial finds it and no other, with its own abort handle |
| `Requests.ErrandsCarried` | src/system.rs:2510-2560 | in every run a stop or an abort by id that is over missed its target, or did to it what it was for: its lane has a request standing or refuses it, or its task, if it had one by then, was aborted there and then through its own record |
| `Deadlines.KillDueIsTheEarliest` | src/system.rs:1407-1429 | in every run the deadline an entry holds is the minimum of those declared on it, 0 exactly when none was |
| `Deadlines.ArmingCovers` | src/system.rs:1353-1363 | the deadline an attach is about to arm by is a declared one, and no later than that of any raiser whose `Kill` its lane read saw |
| `Deadlines.AttachArmsInTime` | src/system.rs:1353-1396 | the delay armed is no longer than up to any such deadline, and up to a declared one; it is the kill grace exactly when none was found |
| `Deadlines.LaneReadSeesTakenRaises` | src/system.rs:1353-1358 | the attach's lane read sees every raise the lane took before it, with its declared deadline |
| `Gate.PhaseIsByCount` | src/system.rs:2745-2792 | over every run of overlapping enters, completed and cut-short ends, folds and reactivations, the phase, the count in flight and the completed flag are functions of how many entered and ended which way since the system was last `Active`; a deadline is held only while `ShuttingDown` |
| `Gate.OrderDoesNotMatter` | src/system.rs:2745-2792 | the phase does not depend on the order in which the shutdowns ended |
| `Gate.PhasesMean` | src/system.rs:1292-1306 | `Active` is exactly the opening state; `Defunct` holds exactly when none is in flight and one completed; exactly such a system is reactivated, to the opening state |
| `Gate.DeadlineOnlyFalls` | src/system.rs:2243-2260 | the held sweep deadline never rises until the era closes |
| `Admission.RunKeeps` | src/system.rs:1176-1229 | the count in flight is the number of live walks, a registration holds the gate only while the system is `Active`, and every walk under way has taken on every root registered |
| `Admission.DefunctLeavesNoRootBehind` | src/system.rs:2057-2106 | whenever the system is `Defunct`, a walk has completed since it was last `Active`, and every root still registered was taken on by every such walk |
| `Admission.LatePassFindsNone` | src/system.rs:2089-2104 | the pass for late roots finds none, since registrations are refused while a shutdown is in flight |
| `Admission.RegistrationsLandBetweenShutdowns` | src/system.rs:1176-1229 | a registration, of a root or of any other actor, lands only in the opening state of the gate, with no shutdown live |
| `Admission.RegisteredRootIsTakenOn` | src/system.rs:2057-2106 | a root that has landed and was not unregistered since stands registered, and has been taken on by every walk past its snapshot and by every walk completed since the system was last `Active` |
| `System.ReachableGateOk` | src/system.rs:2745-2792 | what the phases mean holds after every run of the gate |
| `System.ActorSystem.RegisterActor` | src/system.rs:1164-1248 | refused exactly when not `Active`, or else the name is taken, or else the id, each with its own error; a refusal leaves both maps as they were; a registration is under both keys with a fresh serial, and removing it gives the maps back |
| `System.ActorSystem.UnregisterById` | src/system.rs:1255-1258 | removes the entry of this registration only |
| `System.ActorSystem.UnregisterByName` | src/system.rs:1261-1264 | the same for the name |
| `System.ActorSystem.DropGuard` | src/system.rs:347-362 | nothing of the registration is left, and every entry of any other is as it was |
| `System.ActorSystem.DeclareKill` | src/system.rs:1407-1415 | the deadline asked for, the window given or else the entry's grace after the clock, joins those recorded, on the entry of the incarnation meant and on no other |
| `System.ActorSystem.DeclaredKillDue` | src/system.rs:1370-1384 | the minimum over both entries of the registration, 0 exactly when neither has one |
| `System.ActorSystem.EnterShutdown` | src/system.rs:2750-2767 | every registration is refused from here on |
| `System.ActorSystem.LeaveShutdown` | src/system.rs:2769-2792 | leaves a system that can be reactivated exactly when this was the last in flight and one has completed |
| `System.ActorSystem.ReactivateSystem` | src/system.rs:1292-1306 | succeeds exactly with none in flight and one completed, and gives the opening state |
| `System.ActorSystem.FoldSweepDeadline` | src/system.rs:2243-2251 | the deadline becomes the call's own, raised past the clock read, or stays the one held if that is earlier |
| `Sweep.FoldKeepsVerdict` | src/system.rs:2243-2251 | a fold keeps the verdict of a published end if and only if its floor is after the instant of that end or the deadline held was not; always so for an end final by the fold's clock reading |
| `Sweep.RaisedAgrees` | src/system.rs:2939-2949 | the force's flag and the instant give one verdict if and only if the end became final at or after the deadline |
| `Sweep.VerdictsAgree` | src/system.rs:2177-2220 | in every run whose folds are safe and whose forces are not early, any two calls that report a leftover's end report it the same way |
| `Sweep.StrictVerdictsAgree` | src/system.rs:2899-2949 | with each fold one step and no wait failing, any two calls agree, in every interleaving |
| `Sweep.UnsafeFoldSplits` | src/system.rs:2243-2260 | a fold that is not safe makes a call that has seen the end report it otherwise than one that has reported it |
| `Sweep.SplitFoldDisagrees` | src/system.rs:2243-2251 | a run, with no wait failing, in which two calls report one end as `Graceful` and as `Killed` |
| `Sweep.FailedWaitDisagrees` | src/system.rs:2187-2214 | a run, with each fold one step, in which a failed wait makes two calls disagree |
| `Sweep.SweepsByTheSystem` | src/system.rs:2243-2260 | in every run the deadlines a sweep goes by, the one of its verdict and the one it waits for, were the deadline the system held at some moment since the sweep folded |
| `Sweep.ExpiresByTheSystem` | src/system.rs:2899-2929 | in every run a wait is given up only on a leftover that has not ended, and when a deadline the system held since the fold has passed; one that looks again waits no longer than the deadline held then |
| `AbortRecord.FirstAbortStands` | src/actor/subtree.rs:687-800 | whatever is done to a record, the first abort stands, none reads both issued and owed, and nothing is owed after the end |
| `AbortRecord.RecordIs` | src/actor/subtree.rs:687-800 | after anything that is done to a record it reads the instant of the first abort issued to a task that had not finished, ended exactly if the actor or its task was seen to have ended, and owed exactly when an abort was owed and neither has come |
| `AbortRecord.FloorBounds` | src/actor/supervision/rules.rs:1294-1309 | the verdict floor is never before the wait's deadline nor past its ceiling, and leaves an abort issued up to the cap its whole settle time |
| `AbortRecord.OpsAreLater` | src/actor/subtree.rs:687-800 | whatever is done to a record, what is owed stays owed until it is issued or the actor ends |
| `AbortRecord.SettledForGood` | src/actor/subtree.rs:687-800 | a record with an abort issued, or whose actor ended, is owed nothing from then on |
| `LaterHolds.PlanesGoOn` | src/types/mod.rs:263-306 | in every run of an end and the sweeps over it, a published `Stopped`, its instant and a closed plane are never taken back, and a closed plane publishes nothing |
| `LaterHolds.RecordsGoOn` | src/actor/subtree.rs:726-775 | the first abort stands whatever is done to the record |
| `LaterHolds.LanesGoOn` | src/types/stop_lane.rs:225-247 | in every run of the registry, the raisers and the stops by id, no lane forgets a request, a `Kill` or a refusal |
| `LaterHolds.RegistryGoesOn` | src/system.rs:1164-1264 | in every run, over a stretch in which no registration lands, entries only go or get their abort handle |
| `LaterHolds.SerialsUnique` | src/system.rs:1164-1248 | in every run no serial is registered under two ids |
| `LaterHolds.LaterFromProtocols` | src/system.rs:2081-2088 | two moments of a live walk, over any stretches of any runs of the gate, the registry with its lanes, and the ends, with whatever was done to the records, are related as the walk relies on: nothing registered meanwhile, no attached task is detached, no lane forgot anything, what this call and what the others folded into the deadline only fell, planes and records went on; no serial is registered twice; and the deadline held is the earlier of the two parts |
| `Admission.WhileAWalkLives` | src/system.rs:1176-1229 | over any stretch of any run in which a walk is live no registration lands, no root comes, and the held deadline and what each call folded into it only fall |
| `Admission.HeldByParts` | src/system.rs:2243-2260 | the deadline held is the earlier of what one call folded and what the others did |
| `World.TrailShown` | src/system.rs:2266-2379 | what a walk logged shows in the world it leaves: every `Kill` it says was taken stands; an incarnation it tried a `Kill` on, or asked to stop, and that is still registered holds a `Kill` or has a request standing, or refuses it; a task it aborted while running has an abort in its record |
| `World.World.WaitTerminal` | src/system.rs:2982-2992 | waits until `Stopped` is published or the plane closed, or the whole of the capped bound |
| `World.World.SendStop` | src/system.rs:2510-2519 | the request goes to the lane of the incarnation meant if it is still registered, and to no other; the incarnation logged is that of the moment before with only its lane raised on |
| `World.World.RaiseKill` | src/system.rs:2526-2548 | says whether the `Kill` was taken: taken only by the incarnation registered, where it then stands, and not taken by one registered only if its lane refuses it |
| `World.World.AbortTask` | src/actor/subtree.rs:726-734 | an abort through the record of one incarnation, the first standing, and none for a task that has finished; no other record and nothing else changes |
| `World.World.AbortById` | src/system.rs:2551-2560 | the task of the incarnation meant is aborted if it is registered with one that has not finished; no other incarnation's record, and nothing else, changes |
| `World.World.FoldSweepDeadline` | src/system.rs:2243-2251 | the clock is read, and up to a lag later the deadline becomes the one then held or the sweep's own raised past the clock read, whichever is earlier |
| `World.World.WaitEndOrFloor` | src/system.rs:3331-3373 | ends by the ceiling, and gives up only at or after the floor of the record as it then stands |
| `World.World.WaitEndByTheSystemDeadline` | src/system.rs:2899-2929 | never past its own deadline nor past the one the system held when it began, and gives up only when the earliest deadline held meanwhile has passed |
| `World.World.AbortAndSettle` | src/system.rs:3304-3316 | the abort and the settle time of a forced stop: given up on only with an abort recorded, if there is a task that has not finished, at or after the floor |
| `World.World.ForceStop` | src/system.rs:3293-3316 | reads the plane as it is at its end, takes no longer than its bound, and gives up only after the grace, the abort and the floor |
| `Walk.HonestStays` | src/system.rs:3002-3008 | what an outcome says of its incarnation stays so afterwards |
| `Walk.LeftoverStays` | src/system.rs:2939-2949 | what a leftover's outcome says stays so afterwards, whatever becomes of the deadline |
| `Walk.AskToStop` | src/system.rs:2337-2346 | the first rung: asks the incarnation meant at once, and waits the per-actor bound within the global deadline; an incarnation registered at its start has a request standing at its end, or refuses one |
| `Walk.KillAndWait` | src/system.rs:2348-2362 | the second rung: its `Kill` is taken only by the incarnation registered, and stands at the end of the wait, the grace within the deadline; not taken by one registered only if its lane refuses it |
| `Walk.AbortAndWait` | src/system.rs:2367-2378 | the third rung: a task found attached that has not finished has its abort recorded, and the settle time is waited within the deadline |
| `Walk.Escalate` | src/system.rs:2348-2379 | the rungs after the first, each acting on the incarnation as it then is and at its time, and what they report |
| `Walk.StopRootSequential` | src/system.rs:2328-2379 | the rungs in their order, none skipped, the `Kill` exactly the per-actor bound after the stop and the abort exactly the grace after the `Kill`; never past the deadline nor its own bound; a root registered at its start is asked at once and has heard of it at the end; what the rungs say they did shows in the lane and the record; `Killed` only if `Stopped` was published and this incarnation took a `Kill`, `Graceful` only if published and none was taken, `Aborted` only if closed without it, `Unresponsive` only after all three rungs with their whole waits, or up to the deadline, and a plane that then read as running; cut only at the deadline, while it waits on the stop or on the `Kill` and only if the deadline comes before that wait is over, with the flag of its `Kill` |
| `Force.StartForce` | src/system.rs:2415-2478 | tries a `Kill`, which stands if it is taken and is refused if the target is registered and does not take it; reads the abort handle, and fixes the flag from the answer and the one carried across the cut |
| `Force.RunForce` | src/system.rs:2474-2477 | a force task by itself is a forced stop, with what the round asks of an ended task |
| `Force.StepGrace` | src/system.rs:3300-3308 | a task whose grace is over reads the end, or aborts |
| `Force.StepSettle` | src/system.rs:3309-3316 | a task at its floor reads the end, or gives up; its end is that of a forced stop |
| `Force.AwakeAtLast` | src/system.rs:3331-3373 | a task never sleeps past its bound |
| `Force.JoinForce` | src/system.rs:2481-2501 | a joined task's line is honest, also when the task failed or its target ended between the task and the join; a failed task whose target ended is not reported `Unresponsive` |
| `Force.StartForces` | src/system.rs:2415-2478 | a `Kill` is tried on each target in order, all at one instant; every target still registered then holds a `Kill` or refuses it |
| `Force.JoinForces` | src/system.rs:2480-2502 | tasks go on, end, fail and are joined in any order; each is reported once, within the longest bound |
| `Force.ConcurrentForceSweep` | src/system.rs:2403-2503 | a `Kill` is tried on every target, and every target still registered at the end holds one or refuses it; each is reported exactly once, honestly, `Unresponsive` only after the grace, the abort and the floor unless its task failed; and the round takes the maximum of the targets' bounds, not their sum |
| `Shutdown.Snapshot` | src/system.rs:2302-2314 | exactly the wanted entries, each once, most recently registered first |
| `Shutdown.StopRoots` | src/system.rs:2266-2295 | one ladder after another in the order given up to the cut, each over within its bound before the next begins, then at the deadline a `Kill` on the cut root and on each after it, all at once; every root still registered at the end has heard of it, those forced hold a `Kill` or refuse it; every root is reported exactly once, in the order given up to the cut; the ladders' waits together never pass the deadline, and one force round may follow |
| `Shutdown.CourseTakes` | src/system.rs:2266-2295 | the ladders of a batch take no longer than their bounds together |
| `Shutdown.ForceCut` | src/system.rs:2278-2292 | the cut root and those after it go to one round, the cut root's flag carried across, and those still registered hold a `Kill` or refuse it |
| `Shutdown.ReportedOnce` | src/system.rs:2266-2295 | the lines of a batch are about its roots, each once |
| `Shutdown.CourseReaches` | src/system.rs:2266-2295 | every root of a batch was asked to stop or had a `Kill` tried on it, under its id |
| `Shutdown.CourseHeard` | src/system.rs:2266-2295 | every root of a batch still registered has a request standing or refuses one, and those forced a `Kill` |
| `Passes.StopMore` | src/system.rs:2076-2081 | a batch not yet taken on adds its lines and keeps every line so far right; its roots still registered have heard of it |
| `Passes.StopLateRoots` | src/system.rs:2089-2104 | the late-root loop ends, with no registered root left to take on; it does nothing when all were taken on; what it did shows |
| `Passes.StopAllRoots` | src/system.rs:2076-2104 | the roots given come first, in their order up to the cut, then late ones; each once, each reached, and each still registered has a request standing or refuses one |
| `FinalSweep.JoinWaits` | src/system.rs:2177-2196 | waits joined in any order, none past the deadline; a leftover not seen to end is one whose wait fails, or the system's deadline had passed |
| `FinalSweep.LineUp` | src/system.rs:2204-2210 | the line of a leftover seen to end is its plane against the deadline held at that moment |
| `FinalSweep.Classify` | src/system.rs:2197-2214 | the leftovers seen to end have their lines in order, the others are the stragglers in order |
| `FinalSweep.ForceStragglers` | src/system.rs:2215-2220 | after the force every leftover has one honest line, and every straggler still registered holds a `Kill` or refuses it |
| `FinalSweep.ForcedLate` | src/system.rs:2197-2220 | every `Kill` of the force came when the system's deadline had passed, or to a leftover whose wait fails |
| `FinalSweep.SweepListed` | src/system.rs:2173-2220 | waits, lines and force over the leftovers listed: each reported once, no `Kill` early, and a leftover still registered and running at the end holds a `Kill` or refuses it |
| `FinalSweep.FoldAndList` | src/system.rs:2139-2172 | the sweep goes by its call's own deadline, raised past the clock it read, unless another call had folded an earlier one, and lists exactly what is registered and not taken on |
| `FinalSweep.SweepLeftovers` | src/system.rs:2139-2220 | whatever is registered and not taken on is reported exactly once; the sweep goes by its call's own deadline unless another call had folded an earlier one; no `Kill` is tried on any leftover before the call's own deadline, at the instant of the try, unless another call had folded one that had passed, or the wait on it fails; one still registered and running at the end holds a `Kill` or refuses it; the time it takes is bounded |
| `FinalSweep.ShutdownWalk` | src/system.rs:2065-2234 | all lines, roots and leftovers, are about distinct incarnations; everything registered at the sweep is among them, no root among the swept; every line is honest at the end; every `Kill` said to be taken stands; every root reported was reached and, if still registered, has a request standing or refuses one, the forced ones a `Kill`; a leftover still registered and running holds a `Kill` or refuses it, and none is killed early |
| `FinalSweep.ShutdownWith` | src/system.rs:2006-2044 | the outcomes are about exactly the roots registered at entry, each once, in reverse registration order up to the cut; the leftovers get the timeout the caller asked for unless another call folded an earlier deadline; all of the above of the walk; and the call is over by its timeout and two force rounds |
| `Reaper.PopEarliest` | src/system.rs:3538-3545 | takes an entry that no other is due before |
| `Reaper.KillFires` | src/system.rs:3493-3509 | the first stage leaves an abort stage no earlier than the whole grace from when it fired, and conserves the entries |
| `Reaper.AbortFires` | src/system.rs:3510-3513 | a firing ends its entry with one call for its abort, and never aborts a running task before the grace kept for it |
| `Reaper.DropHeld` | src/system.rs:3516-3522 | an entry dropped out of the heap, before its first stage or between its stages, calls for its abort once |
| `Reaper.DropLoose` | src/system.rs:3516-3522 | an entry dropped in the queue or refused calls for its abort once |
| `ReaperTruth.KillFiresTrue` | src/system.rs:3493-3509 | the first stage leaves a `Kill` standing or refused on the task's lane, and every entry with its abort stage left past its `Kill` stage |
| `ReaperTruth.AllInTime` | src/system.rs:3485-3513 | over the whole log: a `Kill` stage fires on a running task no earlier than it was submitted for; no firing aborts a running task before the deadline submitted, nor before its `Kill` stage, nor earlier after that than the span between the two as submitted |
| `ReaperLoop.AbortAfterKill` | src/system.rs:3485-3513 | an abort that came by the firing of a two-stage entry came at least the whole grace after the entry's `Kill` stage fired, and the task's lane holds a `Kill` or refuses it, unless the task has finished |
| `ReaperLoop.ReaperTask.DropEntry` | src/system.rs:3516-3522 | what runs when an entry goes: the abort, unless it fired |
| `ReaperLoop.ReaperTask.FireEntry` | src/system.rs:3493-3513 | a pending first stage of a running task raises `Kill` on the task's lane, which holds it then or refuses it, and hands the entry back; anything else fires it, calls for its abort once, and lets it go |
| `ReaperLoop.ReaperTask.FireDue` | src/system.rs:3573-3579 | the action logged is on the earliest entry due of the heap as it was, and the heap is what that leaves; a task it says was not running has finished, a record it leaves as ended is of an actor that has ended |
| `ReaperLoop.ReaperTask.FireNext` | src/system.rs:3581-3614 | nothing fires before it is due, and what the firing says of the task and its lane is so |
| `ReaperLoop.ReaperTask.ReceiveNext` | src/system.rs:3581-3614 | the next entry of the feed moves to the heap |
| `ReaperLoop.ReaperTask.NewEntry` | src/system.rs:3440-3471 | an abort is owed to the task from the moment the entry exists, and the entry has the instants it is made for and the span between them |
| `ReaperLoop.ReaperTask.DropAll` | src/system.rs:3516-3522 | a reaper that is cut calls for the abort of every entry it holds or has queued; then every entry there was has called for its abort once, and its task's record holds an abort or its actor has ended |
| `ReaperLoop.ReaperTask.FeedReaper` | src/system.rs:1575-1582 | an entry is queued once, on the first reaper or on the one tried second, or, refused twice, its abort is called for and its record holds it unless its actor has ended |
| `ReaperLoop.ReaperTask.Submit` | src/system.rs:1443-1458 | an entry made and handed over, with the instants it was submitted with, is in the feed or has called for its abort, never both |
| `ReaperLoop.ReaperTask.Run` | src/system.rs:3581-3614 | whatever comes, whoever ends meanwhile and however it is cut, the loop ends with nothing held; every turn that brought an entry brought that task with those instants; every entry has called for its abort exactly once, and its task's record holds an abort, owing none, unless its actor had ended or was one of those that ended meanwhile; every action of the whole loop was on the earliest entry due; whatever fires on a running task fires no earlier than it was submitted for, and an abort no earlier after its `Kill` stage than the span submitted; a lane a `Kill` stage came to holds a `Kill` or refuses it; uncut, none is dropped |
| `Enforcement.EnforceArmed` | src/system.rs:1443-1458 | every armed abort ends in its task's record, with none owed, unless its actor had ended or was one of those that end meanwhile, whether its feed is open, closed once or twice, and whether the reaper runs out or is cut; and none fires on a running task before the instant it was armed for |
| `Enforcement.EnforceKill` | src/system.rs:258-289 | end to end: an accepted `Kill` on an incarnation that stays registered ends with an abort in that incarnation's record, unless its actor had ended or is one of those that end meanwhile; it was armed as its raiser wants it, and fires on a running task no earlier than that |
| `TimeProbe.EntriesAgree` | src/time_probe.rs:234-248 | in every run, for any threads, runtimes and start-overs, a thread's entry of the current generation is an answer the table holds, or held when a start-over still under way cleared it; the table never exceeds its limit |
| `TimeProbe.FirstAnswerStays` | src/time_probe.rs:255-269 | the first answer stored stays until a start-over |
| `TimeProbe.AnswersAreTrue` | src/time_probe.rs:294-364 | `Missing` is never answered for a runtime with the driver, `Has` only for one with it, `ShutDown` only for one that ended |
| `TimeProbe.OneAnswerPerGeneration` | src/time_probe.rs:335-364 | within a generation every call about a runtime gets the same yes or no, on every thread |
| `TimeRuns.NeverMissingAfterTheEnd` | src/time_probe.rs:335-364 | in every run a call for the full answer about a runtime that had ended when the call began is never told that the runtime lacks the driver, whatever is kept of it |
| `TimeRuns.HasIsKept` | src/time_probe.rs:234-269 | in every run a call that answers `Has` leaves its thread with that answer as its own entry |
| `TimeRuns.StartsOverOnlyWhenFull` | src/time_probe.rs:255-262 | in every run the table starts over only when it is full |
| `TimeProbe.TimerCache.CachedState` | src/time_probe.rs:234-248 | the thread's shortcut gives the table's answer |
| `TimeProbe.TimerCache.Remember` | src/time_probe.rs:255-269 | keeps the first answer; a full table starts over and forgets every thread's entry with it |
| `TimeProbe.TimerCache.RuntimeTimerState` | src/time_probe.rs:335-364 | the kept answer stands, except that one kept as `Missing` is asked again whether it ended |
| `Helpers.PruneKeeps` | src/helper.rs:111-137 | a prune discards no slot that a guard holds, so none that counts a live helper |
| `Helpers.RecordsOnce` | src/helper.rs:263-276 | a guard records exactly once if it has ended, and not before |
| `Helpers.HelperSlots.AddSlot` | src/helper.rs:111-137 | a new runtime gets an empty slot of its own after a prune that drops only slots counting nothing and leaves only slots some guard holds |
| `Helpers.HelperSlots.Reserve` | src/helper.rs:111-137 | a guard holds its runtime's slot; nothing is counted yet; where a slot was made for it, every slot kept is held by some guard |
| `Helpers.HelperSlots.Count` | src/helper.rs:111-137 | the slot counts the helper from here on |
| `Helpers.HelperSlots.Record` | src/helper.rs:263-276 | a second end is ignored |
| `Helpers.HelperSlots.Uncount` | src/helper.rs:263-276 | the count taken down was not zero |
| `Helpers.HelperSlots.DropGuard` | src/helper.rs:279-285 | an unrecorded helper is recorded cancelled, a recorded one not again |
| `Helpers.HelperSlots.Close` | src/helper.rs:220-251 | a helper that finishes, panics or is cancelled records that end alone |
| `Helpers.HelperSlots.Live` | src/helper.rs:141-148 | the counts read one after another while helpers start and end add up to at least those live all along and at most those live at some point; exactly to the guards made and not yet recorded when nothing changes meanwhile |

## Left out

- Supervision strategies, restarts, restart budgets, timers, mailboxes and the turn watchdog.
- Panic containment, waker panics, logging and the test-only hooks.
- Tokio's scheduler and channels, and DashMap: an access to one entry is one step, and a snapshot of a whole map is one step too, where the code's iteration locks shard by shard.
- The time a step takes: waits take what they ask for, and everything else takes no time of its own, so the time bounds are those of the waits.
- Machine limits of instants and counters: `Instant` never overflows, and registration serials, the table generation and the live counts do not wrap. The kill clock and the lane generation are cut to 64 bits as in the code.
- The debug assertion that a raiser past the capacity of the step cell trips: the cell is modelled as in a release build.
- A raiser with no system at hand, which arms nothing, and the plane's reason field, which the reports carry along.
- Where a walk runs: the walk host, the helper it is spawned as, and the caller that walks itself when that helper fails. Each is a walk of its own here.
- The reaper entries a walk arms for its leftovers; to the walk their effects are changes made by others.
- The subtree bookkeeping behind an abort record: the chain of ancestors, and what it adds to their waits.
- The step cell that an entry of a bounded stop carries: its first stage is a raise on the lane here, and the cell has a model of its own.
- The reaper's heap is a sequence that an earliest entry is taken from; which of two equally due entries goes first is left open.
- World.World.Elapse: what others do meanwhile is any change that `Later` allows; it stands for no code.
- LaterHolds.LaterFromProtocols: that the clock goes on and that a finished task stays finished is the runtime's, and taken as given.
- ReaperLoop.ReaperTask.FeedReaper: whether the feed is closed at each try is a parameter, and a reaper that is gone has dropped what it held by then.
- FinalSweep.JoinWaits: which waits fail is a parameter, as is which force tasks fail in `Force.JoinForces`.
- TimeProbe.TimerCache.RuntimeTimerState: what asking and probing would find are parameters.
