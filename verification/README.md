# Change Planner, verified

A Dafny model of Change Planner, the system that turns an authoritative snapshot of a network and a
target intent into an ordered, staged plan of typed operations, or refuses. A stage may be executed
in any interleaving, so the planner and its verifier replay interleavings; this project proves what
that replay establishes, and what the algorithms around it do, for all inputs.

`dafny verify dfyconfig.toml` checks the whole project.

## What is modelled

**Planner and verifier** (`Permutations`, `Worlds`, `Kahn`, `Plans`, `Verification`,
`Interleavings`, `Search`, `Completeness`, `Schedule`, `ScheduleProperties`, `Generate`, `Planner`,
`Blocking`, `Cycles`, `Windows`, `Replan`). The planner is generic in a `World`: condition evaluation,
operation application, the obligations and the derived conditions are functions of the world, so the
theorems hold for whatever obligations are enforced. The search is the stack of frames and saved states of
the original, in a class whose fields are the search context; the scheduler is a class that grows
its batch and its stages; verification is the nested replay loops. The main result is
`Interleavings.AcceptedIffAllExecutionsSafe`: acceptance is equivalent to the safety of every
execution that respects stage boundaries.

**Transition system** (`Snapshots`, `Wholeness`, `Operations`, `Evaluate`, `Gates`, `Acceptance`,
`Writes`, `Conditions`, `Readiness`, `Dependencies`, `Orderings`, `Tangles`, `RouteTangles`,
`Commutation`, `DerivedSchedules`, `Compensations`, `Derivation`, `Goals`, `Needs`, `Convergence`).
All 23 operation kinds with their rejections, canonical form and validation; conditions; dependency,
operation and compensation derivation. Commutation of unlinked operations is what makes stages sound.
`Wholeness`, `Gates`, `Writes`, `Readiness`, `Orderings`, `Goals` and `Needs` say what these functions
mean over the fields of snapshots, operations and targets, without using them.

**Planning over the network** (`Networks`, `Executions`, `TangledTargets`, `RemovedRoutes`,
`RouteRefusals`, `Rebindings`, `Strategies`, `Settings`, `MissedChanges`, `HandMadePlans`,
`DrainObligation`, `Obligations`, `Relaxations`, `PlannedChanges`). The generic planner over this
transition system: what can never be planned, when the edges are acyclic, when an executed plan has
reached its target, where the search is complete, and planning from end to end in
`PlannedChanges.PlanChange`.

**Safety arithmetic** (`Eligibility`, `Diversity`, `Capacity`). The branch-and-bound search for
link-disjoint paths with its call budget, survivability of failure domains, saturating loads and
per-mille headroom.

**Codecs** (`Bytes`, `Sha256Stream`, `Utf8`, `Utf8Grammar`, `Codec`, `CanonicalStream`, `PlanDocument`,
`Artifacts`, `Json`, `JsonEscapes`, `JsonMembers`, `JsonTokens`, `JsonRoundTrip`, `JsonParser`). The
canonical binary form as schemas over a mutable encoder and a decoder with sticky failure, the whole
plan document as one schema, the artifact envelope, JSON parsing and writing, UTF-8 and the buffering
of SHA-256.

Identities are numbers, ordered as their texts are; digests are assumed injective, so states are
compared where the original compares their digests, and a step identity is an arbitrary function of
the operation. Collections of a snapshot are maps keyed by identity. Cancellation is a boolean read.
64-bit arithmetic is explicit wherever it saturates, wraps or is checked.

## Where the code does less than its comments say

The model follows the code; each point is stated by the members named.

- Stages are not always enumerated completely. `next_permutation` runs from the identity-sorted
  order of the slots, so only the orders at or after it are replayed; the enumeration is complete
  exactly when the stage lists its identities in ascending order
  (`Interleavings.CoversStageIffAscending`). The planner writes them that way, so its plans are
  fully enumerated by `verify_plan`; a plan written by hand can escape
  (`Interleavings.DescendingListEscapes`), for example one that moves a route and removes the link
  below it in one stage (`HandMadePlans.RerouteEscapes`). The scheduler's own batches are in search order
  (`Schedule.VerifyBatch`); what it leaves out is harmless for derived edges
  (`DerivedSchedules.UncheckedOrdersAgree`).
- The search never tries a second choice in a frame, since steps that are ready together are never
  linked (`Search.ReadyTogetherIndependent`). The comment justifies skipping by commutation, which
  not every pair of ready steps has: the search is complete where ready steps do not disturb each
  other (`Completeness.RefusalMeansNoOrder`), which changes of policies and configuration beside work
  on one device never do (`Settings.SettingsAreNeverMissed`), and incomplete in general: removing a
  link and moving the route that runs over it is missed when riskier steps go first
  (`Strategies.SearchCanMissAnOrder`), and a change of four workloads that share two links is refused
  under all four strategies although a safe order exists (`MissedChanges.SafeChangeIsMissed`).
- Derived edges can form a cycle. They do exactly when a later listed prerequisite is answered by a
  path (`Tangles.CyclicIffBackwardAnswered`); for derived operations, exactly when a device is drained
  and removed while something else is caught between, or a workload holds two routes that are to be
  removed, or workloads are to be bound to removed routes in one of two ways
  (`RemovedRoutes.CyclicIffTargetTangled`). Such targets are always refused: two devices in use of one
  failure domain cannot be removed by one plan, nor a device together with a change of its
  configuration, nor two routes of one workload (`TangledTargets.TwoRemovalsOfADomainAreRefused`,
  `TangledTargets.ConfiguredRemovalsAreRefused`, `RouteRefusals.TwoRoutesOfAWorkloadAreRefused`). The
  branch on network contracts in dependency derivation cannot add an edge
  (`Dependencies.ContractsAddNothing`).
- A workload cannot be removed together with a route it is bound to, since the release of the route is
  ordered behind the removal of the workload it changes (`RouteRefusals.RemovedHoldersAreRefused`).
- The conditions derived for adding a route demand that it be absent and walkable, so a target with
  a new route is always refused (`Conditions.RouteAddIsNeverReady`, `Networks.NewRoutesAreRefused`).
  Removing a device in service demands that it be draining or in maintenance first, so where no
  drain is derived for it such a target is always refused (`Networks.UndrainedRemovalsAreRefused`).
- Reserved capacity is compared by operation derivation and never written by the evaluator, so a
  target that changes it is never reached; nor is one that asks for a removed device under `ensure`,
  or for configuration on a device it removes (`Convergence.ConvergesIffReachable`).
- A plan that replaces a route can miss its target. The release of the removed route writes the old
  bindings without it, and where that is listed behind the new bindings it undoes them; which comes
  first is decided by the content digests of the two operations (`Rebindings.SettlesIffRebindsLast`,
  `Rebindings.ReplacementCanBeUndone`).
- A compensation is not always an inverse: removal leaves a tombstone for devices and links, the
  compensation of a route state change is a path change, and configuration revisions only grow
  (`Compensations.CompensationRestoresExactly`).
- The reported blocking core is irreducible where, among what the first pass switched off, switching
  more off never hurts (`Blocking.CoreNeeds`), and need not be otherwise
  (`Relaxations.CoreCanBeReducible`). Switching off can hurt in two ways. Only the first headroom
  obligation that is on counts, so a stricter one behind it takes over once it is off: switching off
  is harmless in every snapshot exactly when no headroom obligation is stricter than one before it
  (`Relaxations.MonotoneIffRelaxing`). And the drain obligation makes some removals possible
  (`DrainObligation.DrainingIsNotMonotone`, `DrainObligation.DrainObligationHelps`).
- When usable capacity times the kept per-mille overflows, the headroom is dropped
  (`Capacity.HeadroomCanBeDropped`).
- Entity-reference lists claim at least 6 bytes per element, but a global reference takes 5, so some
  plan documents cannot be read back (`PlanDocument.PlanComesBackExactly`,
  `PlanDocument.CrowdedPlanIsLost`).

## Model

| member | source | states |
|---|---|---|
| Permutations.NextStep | src/plan/verify.cpp:184-187 | One `next_permutation` step rearranges the slots and raises their rank (Lehmer code) by exactly one. |
| Permutations.NextEnd | src/plan/verify.cpp:184-187 | There is no next order exactly when the rank is n! - 1, that is, when the enumeration has reached the last order. |
| Permutations.RankBound | src/plan/verify.cpp:97-188 | Ranks of orders of n slots lie below n!, so an enumeration is finite. |
| Permutations.RankIsLexOrder | src/plan/verify.cpp:97-188 | Rank order is dictionary order and ranks are injective: no order is visited twice, and a walk from `p` visits what is at or after `p`. |
| Permutations.NextIsLeastAbove | src/plan/verify.cpp:184-187 | The successor is the least order above the current one: nothing is jumped over. |
| Permutations.RankZero | src/plan/verify.cpp:36-42 | Only the ascending arrangement has rank 0, so only a walk from the identity visits all n! orders. |
| Checked.CheckedFactorial | include/change_planner/core/checked.hpp:66-76 | Returns n! exactly when n! fits 64 bits, though the loop gives up at the first intermediate product that does not. |
| Checked.FactorialFits | include/change_planner/core/checked.hpp:66-76 | n! fits 64 bits exactly for n up to 20, the widest stage that can be verified at all. |
| Checked.GuardIsExact | include/change_planner/core/checked.hpp:36-41 | The division guard of the checked product is true exactly when the product overflows. |
| Worlds.RunAppend | src/plan/verify.cpp:102-160 | Running one list of steps after another is running their concatenation. |
| Worlds.RunIsSafeThroughout | src/plan/verify.cpp:102-160 | At every step of an accepted run the preconditions held before it, the operation applied, its postconditions held after it and no obligation was violated. |
| Worlds.RunReplays | src/plan/verify.cpp:190-203 | An accepted run ends where bare replay of its operations ends. |
| Worlds.ByIdAscends | src/plan/verify.cpp:78-81 | The starting order lists the slots by ascending step identity. |
| Worlds.ByIdIdentity | src/plan/verify.cpp:78-81 | On a stage that already lists its identities in ascending order the starting order is the identity, so the enumeration is complete. |
| Kahn.Tables | src/plan/plan.cpp:653-661 | The successor lists and in-degrees built in one pass over the edges count every edge once, with multiplicity. |
| Kahn.Visit | src/plan/plan.cpp:669-678 | Taking a step off the ready list lowers its successors' in-degrees so that the table again counts unvisited predecessors and the list again holds exactly the unvisited steps with none. |
| Kahn.Acyclic | src/plan/plan.cpp:650-681 | The pass visits every step exactly when no nonempty set of steps has each member waiting for another member of the set. |
| Kahn.RisingUntrapped | src/plan/plan.cpp:650-652 | Edges along which some rank strictly rises trap no set of steps. |
| Plans.CheckSteps | src/plan/plan.cpp:571-597 | Reports no fault exactly when every step has its own operation's identity, both kinds of conditions, verified invariants, and no identity occurs twice; a fault it reports is there. |
| Plans.CheckStages | src/plan/plan.cpp:599-626 | Reports no fault exactly when stage indices are contiguous from 0, stages are nonempty, every listed step exists, carries the index of its stage, and is listed once; a fault it reports is there. |
| Plans.CoverageBySize | src/plan/plan.cpp:627-630 | The comparison of set sizes succeeds exactly when every step is listed in its stage. |
| Plans.CheckEdges | src/plan/plan.cpp:632-648 | Reports no fault exactly when every edge joins two different known steps and goes to a later stage; a fault it reports is there. |
| Plans.EdgesRise | src/plan/plan.cpp:650-652 | The explicit acyclicity pass can never reject what the edge check accepted. |
| Plans.VerifyStructure | src/plan/plan.cpp:549-684 | The whole structural check accepts exactly the well-formed plans, including plans with no work, and what it finds wrong with any other is wrong with it. |
| Verification.ReplayOrder | src/plan/verify.cpp:102-160 | Replays one interleaving; it succeeds exactly when the interleaving is a safe run, and otherwise names the first step that cannot be taken and why: an unmet condition before or after it, a rejection or a violation. |
| Verification.ReplayStage | src/plan/verify.cpp:91-188 | Succeeds exactly when every order from the start order on is a safe run into one state, after n! - rank(start) replays of all its steps; otherwise the order tried last shows what is reported: a step that cannot be taken where it is reached, or another end state than the first order's. |
| Verification.CanonicalReplay | src/plan/verify.cpp:190-203 | The state carried to the next stage is the bare replay in identity order. |
| Verification.VerifyStage | src/plan/verify.cpp:62-204 | One stage passes exactly when its interleavings converge from the carried state; the carried state is then the common end state. Otherwise the step and the reason reported are those of one of its interleavings, or the stage has more than 20 steps. |
| Verification.VerifyPlan | src/plan/verify.cpp:46-209 | Accepts exactly the plans that are well formed, bound to the request, start from a state with no violation and whose stages all pass; counts the interleavings replayed and the steps applied; otherwise names the first stage that does not pass, the step and the reason, and blames order dependence only where two orders of the stage diverge. |
| Interleavings.Cut | src/plan/verify.cpp:62-204 | Any execution that finishes a stage before starting the next splits into an execution of the earlier stages and a free interleaving of the last one. |
| Interleavings.PassingIsSafe | src/plan/verify.cpp:62-204 | If the first k stages pass, every such execution of them is a safe run into the one canonical state. |
| Interleavings.SafeIsPassing | src/plan/verify.cpp:62-204 | Conversely, if all executions are safe up to both boundaries of a stage of at most 20 steps, the stage passes. |
| Interleavings.AcceptedIffAllExecutionsSafe | src/plan/verify.cpp:46-209 | For plans whose stages list identities ascending, acceptance is equivalent to: well formed, bound to the request, safe start, stages of at most 20 steps, and every stage-respecting execution, interleaved freely inside stages, safe and ending in the single canonical state at every boundary. |
| Interleavings.SafeStepByStep | src/plan/verify.cpp:102-160 | An execution is safe and ends in a state exactly if it passes from the start to that state with each step's preconditions holding before it, its operation accepted, its postconditions holding after it and no obligation broken. |
| Interleavings.EdgesHonoured | src/plan/plan.cpp:632-648 | Every complete execution takes the source of each dependency edge before its target. |
| Interleavings.CoversStageIffAscending | src/plan/verify.cpp:78-97 | A stage is enumerated completely if and only if it lists its identities in ascending order. |
| Interleavings.DescendingListEscapes | src/plan/verify.cpp:78-97 | A plan of any two actions in one stage that lists them in descending order is accepted exactly when the one order by identity is safe; the other order, which is an execution of it too, is not looked at. |
| HandMadePlans.RerouteEscapes | src/plan/verify.cpp:78-97 | For a network and two operations of it, a change of a route's path and the removal of the link it ran over, with the conditions derived for them, such a plan is accepted although one of its executions is unsafe. |
| Search.CandidatesReady | src/plan/generate.cpp:188-250 | The candidates of a frame are exactly the steps not applied whose predecessors all are, each once, under every strategy's ordering. |
| Search.ReadyTogetherIndependent | src/plan/generate.cpp:252-264 | Two steps that are ready at the same time are never joined by an edge, so committing to one skips all the others. |
| Search.SearchContext.Attempt | src/plan/generate.cpp:304-362 | Trying a candidate costs one visited state and changes the state, the order and the applied marks exactly when its preconditions hold, it applies and nothing is violated. |
| Search.SearchContext.Advance | src/plan/generate.cpp:301-372 | A fresh frame commits to its first candidate that fits, or none fits; a frame that has committed before finds nothing more to try. |
| Search.SearchContext.Backtrack | src/plan/generate.cpp:376-387 | Closing a frame restores the saved state and takes back exactly the step the frame committed to. |
| Search.SearchContext.Step | src/plan/generate.cpp:293-391 | One round of the loop keeps: the order is the committed steps of the open frames, the marks are exactly its members, the state is its replay, and visited states stay within the bound. |
| Search.SearchContext.SearchOrder | src/plan/generate.cpp:270-393 | Success gives all steps, predecessors first, each ready with satisfied preconditions and no violation on the way, and is what the greedy run gives; exhaustion restores the initial state with nothing applied and means the greedy run is stuck; at most n(n+1)/2 candidates are tried. |
| Search.TriangleClosed | src/plan/generate.cpp:270-393 | The bound on candidate trials in closed form: twice it is n(n+1). |
| Completeness.TopologicalAcyclic | src/plan/generate.cpp:270-393 | A complete order found by the search shows that the dependency relation has no cycle. |
| Completeness.MoveToFront | src/plan/generate.cpp:266-269 | Where steps that are ready together never disturb each other in the states that runs of ready steps reach, a ready step that fits now can be moved to the front of any order that works. |
| Completeness.RefusalMeansNoOrder | src/plan/generate.cpp:266-269 | Where steps that are ready together never disturb each other in the states that runs of ready steps reach, a stuck search means no safe order exists, and the search reaches the state every safe order reaches. Nothing is asked of steps joined by an edge, nor of states no such run reaches. |
| Settings.LightIsUndisturbed | src/plan/generate.cpp:266-269 | Derived operations that change policies and configuration, beside any work on one device that leaves its windows alone, never disturb each other, for any obligations that do not look at policies and configuration. |
| Settings.SettingsAreNeverMissed | src/plan/generate.cpp:270-393 | For such operations no strategy's search refuses what has a safe order, and all end in the one state safe orders end in. |
| Strategies.ComparesConsistently | src/plan/generate.cpp:207-250 | Each of the four arrangements of ready steps compares them consistently: never both ways round, and transitively. |
| Strategies.TriedInOrder | src/plan/generate.cpp:207-250 | Of the steps that are ready none is tried after one it precedes: maintenance last and mild kinds of operation first; what most steps wait for, then mild kinds; maintenance first and grave kinds first; or the canonically last; ties go by the canonical order, and kinds are graded as the risk table grades them. |
| Strategies.RerouteIsMissed | src/plan/generate.cpp:233-241 | Riskier steps first, the search for removing a link and moving the route that runs over it removes the link wherever it can and is then stuck, whatever the network and the obligations. |
| Strategies.SearchCanMissAnOrder | src/plan/generate.cpp:266-269 | So the search is incomplete: a snapshot and a target whose two derived operations are unlinked, where moving the route and then removing the link is safe, and where the search that takes riskier steps first finds no order. |
| MissedChanges.EveryApproachIsStuck | src/plan/generate.cpp:207-250 | Where two workloads are to change places on two links and two more are to use both, and capacity is all that is enforced, each of the four arrangements of ready steps starts with a step after which the exchange never fits. |
| MissedChanges.SafeChangeIsMissed | src/plan/generate.cpp:1093-1257 | Planning is incomplete even with all four strategies: for every request for that change the derived operations can be walked through in another order, and no strategy's search succeeds, so that an attempt cannot return a plan. |
| Schedule.ReplayWithin | src/plan/generate.cpp:441-498 | Replays one interleaving of a batch within the state budget; a run not cut short by the budget gives exactly the safe run. |
| Schedule.VerifyBatch | src/plan/generate.cpp:409-516 | Accepts a batch after n! - rank(start) interleavings, start being the slots sorted by identity, all of them safe and ending alike; a refusal not caused by a budget means they are not. |
| Schedule.Scheduler.Conflicts | src/plan/generate.cpp:542-549 | Finds a conflict exactly when an edge, in either direction, joins the candidate to the batch. |
| Schedule.Scheduler.Seal | src/plan/generate.cpp:580-656 | Sealing appends the batch as one stage whose steps carry its index and the conditions derived at its entry state, and moves the state to the batch's end. |
| Schedule.Scheduler.Place | src/plan/generate.cpp:641-715 | Placing a step keeps everything placed so far in order and adds the step at the end, whichever of the four branches is taken; a batch is closed before the step only if it is full, linked to the step or refuted together with it; and placing fails only if a budget is exceeded or the step does not replay safely by itself where it would start. |
| Schedule.Scheduler.Compress | src/plan/generate.cpp:572-741 | The sealed batches laid end to end are the linear order; compression fails only if a budget is exceeded or a step of the order does not replay safely by itself behind the batches before it. |
| ScheduleProperties.StepsAreLinear | src/plan/generate.cpp:594-622 | The steps written out are the nodes of the linear order in order, each with the index of the batch it is in. |
| ScheduleProperties.EdgeRises | src/plan/generate.cpp:537-549 | Every dependency edge goes from a strictly earlier stage to a later one. |
| ScheduleProperties.ScheduleIsWellFormed | src/plan/generate.cpp:530-742 | The stages and steps pass the structural check: a partition of the steps, contiguous indices, rising edges; lists ascend and no stage is wider than the limit. |
| ScheduleProperties.FinalStateIsLinearReplay | src/plan/generate.cpp:627-639 | Where the steps of a stage commute, the state carried from stage to stage is the replay of the linear order. |
| ScheduleProperties.RefusalIsReal | src/plan/generate.cpp:409-516 | A batch the scheduler refuses has an order that is unsafe, or two that end differently. |
| ScheduleProperties.StagesAreMaximal | src/plan/generate.cpp:641-715 | Stages are maximal: a stage of a finished schedule has the full width, or an edge joins one of its steps to the first step of the next stage, or with that step added it would have an unsafe order or two that end differently. |
| Generate.BuildNodes | src/plan/generate.cpp:1069-1092 | Refuses exactly on two operations with one identity; otherwise the nodes are the operations, a node is another's predecessor exactly when an edge goes from the one to the other, and its successor count is the number of edges that go from it to a known step. |
| Generate.MetadataIsFree | src/plan/generate.cpp:1197-1198 | Fields written after the internal verification do not affect it: two plans with the same stages, steps, edges, binding and instant verify alike. |
| Generate.RunSchedule | src/plan/generate.cpp:551-742 | A schedule that comes out is a finished partition of the greedy search's order, which is topological and replays safely. One that does not is stopped, over a budget, or the search is stuck or a step of its order cannot be placed. |
| Planner.TryStrategy | src/plan/generate.cpp:1099-1205 | Trying one strategy comes to nothing for want of budget, to no schedule, or to a candidate: then the timetable is made from the order the greedy search finds, and the verdict is that of exhaustive verification. |
| Planner.RunAttempt | src/plan/generate.cpp:943-1257 | Each way of refusing has its exact condition: no derivation, too many or unsupported operations, an unsafe start, a repeated operation. Otherwise, unless it is stopped or out of attempts, every strategy is tried, and a plan comes back exactly if some candidate passed exhaustive verification: the preferred one of those, the earliest of equals, with each other strategy recorded for what became of it; no safe ordering means that nothing passed and nothing was cut short. The plan performs exactly the derived operations, converged empty plans included. A candidate that is set aside by verification is never malformed, and never order dependent where order never matters. |
| Planner.GeneratePlan | src/plan/generate.cpp:1474-1544 | Invalid, stale and unshiftable requests are refused exactly as such; otherwise the outcome is that of the attempt at the instant the shift chose: a plan exactly if some candidate verifies. Every plan returned passes exhaustive verification against the original request, lists its stages ascending within the width limit, and performs each derived operation once. |
| Planner.CandidateStagesAreMaximal | src/plan/generate.cpp:641-715 | The stages of every candidate, and so of every plan returned, are maximal in the same sense. |
| Generate.ReturnedPlansAreSafe | src/plan/generate.cpp:1474-1544 | Every stage-respecting execution of a returned plan, interleaved freely inside stages, is a safe run into the one canonical state and respects every edge. |
| Blocking.SwitchOff | src/plan/generate.cpp:1358-1386 | The first pass ends, within the attempt budget; for a deterministic oracle what it switches off is the growth defined slot by slot under that budget. |
| Blocking.GrowFinds | src/plan/generate.cpp:1358-1386 | That growth switches something off exactly when a single obligation within the attempt budget unblocks planning. |
| Blocking.SwitchBackOn | src/plan/generate.cpp:1388-1406 | The second pass ends in a part that still unblocks planning, after one attempt for each obligation that was off; for a deterministic oracle it is the shrinking defined member by member. |
| Blocking.CoreNeeds | src/plan/generate.cpp:1331-1466 | The core is empty exactly when no single obligation within the budget unblocks planning; otherwise it unblocks planning, each member was needed beside some of what the first pass switched off, and it is irreducible if, among that alone, switching more off never hurts. |
| Blocking.MinimiseBlockingCore | src/plan/generate.cpp:1331-1466 | For a deterministic oracle the reported core is the shrunk growth; with the guarantees of that core, irreducibility under monotonicity within what the first pass switched off included. |
| Relaxations.AttemptWithout | src/plan/generate.cpp:1346-1356 | An attempt of the core search succeeds exactly as an attempt with one candidate does for the request with those obligations off: if there is work, exactly if the candidate of the first strategy verifies, unless it is stopped; where nothing is to be done, exactly if that request starts safe. |
| Relaxations.MonotoneIffRelaxing | src/model/constraints.cpp:106-122 | Switching more obligations off never makes a snapshot break one, in every snapshot, if and only if no headroom obligation asks for more than one listed before it. |
| Relaxations.RelaxingIsIrreducible | src/plan/generate.cpp:1331-1466 | For requests that ask for nothing under such obligations the reported core is irreducible. |
| Relaxations.CoreCanBeReducible | src/plan/generate.cpp:1331-1466 | Otherwise it need not be: for every request that asks for nothing in a concrete snapshot, under connectivity, no headroom and then half of every capacity, connectivity and the last are reported although connectivity alone is enough. |
| DrainObligation.DrainingIsNotMonotone | src/plan/generate.cpp:1331-1466 | What can be walked through is not monotone in the obligations: a removal that can be under the drain obligation cannot once that obligation is switched off as well. The first pass does not go there, and what is reported is irreducible. |
| DrainObligation.DrainObligationHelps | src/plan/generate.cpp:943-1257 | For requests for that removal every strategy's search finds the order under the drain obligation, and no sound plan exists once it is switched off as well. |
| Windows.Candidates | src/plan/generate.cpp:1280-1297 | The candidate instants are exactly the planning instant and the window begins and exclusion ends at or after it on devices taking part in maintenance work, ascending. |
| Windows.PermittedSince | src/plan/generate.cpp:1280-1297 | A device permitted at an instant was already permitted at the last candidate before it: testing candidates loses nothing. |
| Windows.ShiftInstant | src/plan/generate.cpp:1262-1329 | Returns the least permitted instant at or after the planning instant among all instants, and fails exactly when there is none. |
| Windows.PermittedOpensGates | src/model/evaluate.cpp:91-114 | At a permitted instant neither window gate of the evaluator stops a maintenance operation. |
| Windows.PermittedExactly | src/plan/generate.cpp:1299-1329 | An instant is permitted exactly if each maintenance operation finds its device, where there is one, outside its exclusions and inside one of its maintenance windows. |
| Replan.DeriveCompensations | src/plan/replan.cpp:235-260 | Succeeds exactly when every compensation is accepted after the ones before it and no state passed through breaks an obligation; each step then carries preconditions from the state before it and postconditions from the observed state. |
| Replan.RetryEdges | src/plan/replan.cpp:281-308 | The new edges are exactly those from a compensation to a continuation step writing the same entity. |
| Replan.PrependKeepsStructure | src/plan/replan.cpp:262-317 | Putting a compensation stage in front and moving every stage one on turns a well-formed continuation into a well-formed plan. |
| Replan.PrependedExactly | src/plan/replan.cpp:262-280 | The plan made has one more stage, in front, that lists the compensations and counts as one interleaving; the other stages and steps are those of the continuation, one later; nothing else but the edges is changed. |
| Replan.AscendShifted | src/plan/replan.cpp:262-279 | The compensation stage and the moved stages still list ascending; the moved stages are the old ones. |
| Replan.PrependCompensations | src/plan/replan.cpp:204-319 | Gives up exactly if a compensation, in identity order, is rejected or breaks an obligation, or if the plan made does not pass structural checks and exhaustive verification; otherwise returns that plan: the continuation one stage later behind one stage of the compensations, derived at the request's own instant, with the old edges and exactly the new ones to steps that write the same. |
| Replan.CompensationsComeFirst | src/plan/replan.cpp:262-279 | In every execution of the result all compensations come before all continuation steps. |
| Snapshots.CanonicalTwice | src/model/state.cpp:495-513 | Putting a snapshot in canonical form twice is the same as once. |
| Snapshots.CanonicalMeans | src/model/state.cpp:495-513 | Canonical form orders windows by begin, end and identity, domains by identity without repetition and bindings by route, and changes nothing else. |
| Snapshots.RouteIsWalkable | src/model/state.cpp:920-939 | The cursor walk decides walkability. |
| Snapshots.WalkableMeansJoined | src/model/state.cpp:920-939 | A route is walkable exactly when its path is nonempty and its links join up, each in either direction, through some row of devices from source to sink. |
| Snapshots.CanonicalPermits | src/safety/checker.cpp:269-309 | Canonical form does not change when a device permits changes or maintenance. |
| Wholeness.ValidIffWhole | src/model/state.cpp:515-692 | A snapshot is valid exactly if everything its entities refer to is there, and each makes sense by itself: lasting windows of different identity, links between two devices that reserve no more than they have, routes with a path, workloads bound to a route once, texts of at most 512 bytes. |
| Evaluate.CheckGates | src/model/evaluate.cpp:91-114 | Passes exactly when no supporting device is in an exclusion and the device itself is in a maintenance window, each where enforced. |
| Gates.WindowsDecide | src/model/evaluate.cpp:86-114 | An operation is refused as an unsafe transition if a device it touches is excluded, or if it is maintenance of a device outside its maintenance windows, each where enforced; otherwise windows make no difference. Touched are the device itself, the ends of links and routes named or stored, of routes bound before or after, and of what a policy is for. |
| Gates.RefusedFor | src/model/evaluate.cpp:117-483 | Windows aside, the exact cases of each rejection: conflict with what is there, something named that is not there, a capacity below what is reserved, a missing policy identity, a full revision counter. |
| Acceptance.MovesAreAllowed | src/model/evaluate.cpp:119-188 | An accepted operation moves a device between states only as allowed: never to absent, under draining first to maintenance not straight from use, and to removed only from draining or maintenance. |
| Acceptance.AdmissibleExactly | src/model/evaluate.cpp:117-483 | For each kind, exactly the snapshots in which the operation meets no objection, as sets of states and memberships. |
| Evaluate.ChangeRoute | src/model/evaluate.cpp:233-317 | Route operations are rejected exactly for their listed objections, unknown path links and live bindings included, and otherwise change that route only. |
| Evaluate.ChangeWorkload | src/model/evaluate.cpp:318-368 | Workload operations are rejected exactly for their listed objections and otherwise change that workload only. |
| Acceptance.ValidExactly | src/model/evaluate.cpp:485-486 | From a valid canonical snapshot the outcome is valid exactly when the entity written is in order and no policy, workload or route refers to what is taken away. |
| Acceptance.AppliedTwice | src/model/evaluate.cpp:86-492 | Doing an accepted operation again: additions, removals and maintenance steps are refused; a configuration value counts its revision up until that overflows; everything else is accepted with no further change, except that new windows may exclude the change that set them. |
| Acceptance.DrainedOnTheWay | src/model/evaluate.cpp:434-483 | Under draining first, a device in use is in any other state at the end of an accepted run only if it was draining somewhere on the way. |
| Acceptance.AcceptedExactly | src/model/evaluate.cpp:86-492 | An operation is accepted exactly when both gates are open, it is admissible, the entity it writes comes out in order and nothing else refers to what it takes away. |
| Acceptance.OnlyTheWritten | src/model/evaluate.cpp:485-492 | An accepted operation changes the one entity it writes and no other, up to canonical form; what comes back is valid and canonical. |
| Writes.WrittenExactly | src/model/evaluate.cpp:117-492 | The entity an accepted operation writes is, field by field, what the operation asks for where it asks for something and what it was where it does not: states, capacities, windows, paths, bindings, requirements, policies, values and revisions. |
| Conditions.RouteAddIsNeverReady | src/model/evaluate.cpp:556-564 | The conditions derived for adding a route ask for it to be absent and walkable at once, so they hold in no snapshot. |
| Readiness.ReadyExactly | src/model/evaluate.cpp:498-632 | The conditions derived for an operation hold exactly where it is ready, field by field: the entity is there, or not yet; what it names is in service; the device has not changed state since the plan was made; no device it has to do with is excluded; maintenance has its window and a device on its way out has been drained. |
| Readiness.DoneExactly | src/model/evaluate.cpp:634-739 | The postconditions of an operation hold exactly where it has been carried out: what is new is there with the capacity asked for, what is gone is gone, and states, values, paths in use and active bindings are the ones asked for. |
| Conditions.RemovalNeedsDrain | src/model/evaluate.cpp:517-539 | The conditions derived for removing a device hold only where it is draining or in maintenance. |
| Conditions.BoundBindingsActive | src/model/evaluate.cpp:706-716 | After bindings are stored in a valid snapshot, every active one is found active by the condition evaluator. |
| Conditions.PostconditionsFollow | src/model/evaluate.cpp:634-739 | An operation that was ready and accepted has all its postconditions, except that a route path must also be in service, a requirements change must not name bindings that are not there, and a configuration key must not be empty: exactly then. |
| Dependencies.LinkedIsSymmetric | src/plan/graph.cpp:1049-1151 | Whether two operations are ordered at all does not depend on which is listed first. |
| Dependencies.ContractsAddNothing | src/plan/graph.cpp:1104-1149 | The branch on network contracts never adds an edge: whatever satisfies it has already been ordered for sharing a failure domain. |
| Dependencies.DeriveDependencies | src/plan/graph.cpp:929-1157 | The edges are exactly those of the pairs, sorted, each once. |
| Orderings.EdgesAreDue | src/plan/graph.cpp:929-1157 | In terms of the fields of the operations: two of them are joined, from the earlier listed one unless the later has to come first, exactly if one has to wait for the other or, unless they set different things of one entity, both write the same, one writes what the other names, or both take capacity out of one failure domain; with that reason. |
| Orderings.AdditionsComeFirst | src/plan/graph.cpp:950-1089 | Whatever adds a device, link, route or workload has an edge to everything that names it: as link or route end, path link, bound route, policy target or owner of configuration. |
| Orderings.EdgesInOrder | src/plan/graph.cpp:1152-1157 | The edges are listed strictly ascending by their source, their target and their reason. |
| Cycles.StuckIffBackCycle | src/plan/plan.cpp:650-681 | A relation has a set each member of which is preceded by a member exactly when some pair of it that goes back is answered by a path from its end to its start. |
| Tangles.DerivationGivesEdges | src/plan/graph.cpp:1049-1157 | What dependency derivation returns, reasons aside, are exactly the ordered pairs of the list. |
| Tangles.CyclicIffBackwardAnswered | src/plan/graph.cpp:1049-1157 | For any list of operations, the derived edges form a cycle if and only if some operation listed later is a prerequisite of one listed earlier that has to come, directly or through others, before it. |
| RouteTangles.CyclicIffTangled | src/plan/graph.cpp:929-1157 | For every list of the form derivation gives, route removals included, the derived edges form a cycle if and only if some device is both removed and drained while a third operation changes or reads it, removes a later device of its failure domain or drains an earlier one; or two changes of bindings each keep a removed route the other frees, or one keeps a removed route that a later change of the same workload frees. |
| TangledTargets.TangledIffTarget | src/plan/graph.cpp:615-927 | The derived list is tangled if and only if the target is: it has a device in use removed under draining first and asks, beside that, for something that is caught between, entry by entry. |
| RemovedRoutes.RouteTangledIffTarget | src/plan/graph.cpp:760-790 | A derived list is tangled in its routes if and only if a workload holds two routes that are to be removed, or two workloads are to be bound to different removed routes, or one is to be bound to a removed route by a change listed before another change of it that frees the route: a condition on target, snapshot and canonical order. |
| RemovedRoutes.CyclicIffTargetTangled | src/plan/graph.cpp:615-1157 | So for every target the derived edges form a cycle if and only if the target is tangled, in its devices or in its routes. |
| Commutation.EffectAbsorbs | src/model/evaluate.cpp:485-486 | An operation's effect is the same on a snapshot and on its canonical form. |
| Commutation.UnlinkedDoNotClash | src/plan/graph.cpp:216-245 | Two operations left unlinked either write different entities or update the independent fields of one device or route. |
| Commutation.EffectsCommute | src/plan/graph.cpp:216-245 | Two operations that do not clash have the same effect in both orders, same-entity field updates included. |
| Commutation.AnyOrder | src/plan/graph.cpp:1049-1151 | The combined effect of pairwise unlinked operations is the same in every order. |
| Commutation.UnlinkedIsOrderFree | src/plan/graph.cpp:1049-1151 | Any two orders of pairwise unlinked operations that are both accepted end in equal snapshots. |
| Commutation.UnlinkedNeverDiverges | src/plan/verify.cpp:172-178 | A stage of pairwise unlinked operations can never be rejected for order dependence. |
| DerivedSchedules.DerivationCovers | src/plan/generate.cpp:537-541 | Every pair the derivation orders is linked for the scheduler. |
| DerivedSchedules.DerivedStagesAreOrderFree | src/plan/generate.cpp:530-742 | With derived edges, every stage the scheduler seals is order free. |
| DerivedSchedules.DerivedFinalState | src/plan/generate.cpp:627-639 | With derived edges, the scheduler's final state is the replay of the search's linear order. |
| DerivedSchedules.UncheckedOrdersAgree | src/plan/generate.cpp:413-419 | Orders the scheduler never replayed, being before its starting order, still end in the stage's end state whenever they are accepted. |
| DerivedSchedules.StagesNeverDiverge | src/plan/verify.cpp:172-181 | The steps of a stage of a plan scheduled over derived edges, as verification replays them, never have two safe orders that end differently. |
| DerivedSchedules.PlanFinalState | src/plan/verify.cpp:190-203 | The state verification ends in for such a plan is the replay of the search's linear order. |
| Compensations.CompensationRestoresExactly | src/plan/graph.cpp:386-613 | After an accepted operation, its recorded inverse restores the snapshot exactly if and only if the gates let it through and the operation is of the undoable kind, judged in the snapshot before it: adding or removing devices or links is never undone; device states are unless the old one was a tombstone state, or was maintenance under the drain rule while the new one is in service; removing a route or changing its path is if the old path was walkable, a change of its state only if it changed nothing; setting a configuration entry only if there was none, clearing one only at revision 0; everything else always is. |
| Compensations.ConfigValueRestored | src/plan/graph.cpp:386-613 | Undoing an overwrite of a configuration entry restores everything except the revision, which ends two higher. |
| Compensations.AdditionLeavesTombstone | src/plan/graph.cpp:386-470 | Undoing the addition of a device or link leaves the snapshot it was added to with a tombstone for it and nothing else changed; for a device under draining first it is let through only if the device is out of use. |
| Compensations.RemovalStays | src/plan/graph.cpp:386-470 | Undoing a removal would add exactly what was removed, and is refused because the tombstone is still there. |
| Compensations.RouteStateStays | src/plan/graph.cpp:510-524 | Undoing a change of a route's state, where it is let through, changes nothing. |
| Compensations.DeviceAmendAnswers | src/plan/graph.cpp:386-613 | The equivalence for capacity, windows, state, drain and maintenance operations on devices. |
| Compensations.RouteStateAnswers | src/plan/graph.cpp:510-524 | The inverse of a route state change is a path change, which leaves the state where it is. |
| Compensations.WorkloadAnswers | src/plan/graph.cpp:525-558 | Every workload operation is undone exactly. |
| Compensations.PolicyAnswers | src/plan/graph.cpp:559-586 | Every policy operation is undone exactly. |
| Derivation.DeriveOperations | src/plan/graph.cpp:615-927 | Fails exactly when some entry conflicts with the snapshot; otherwise lists exactly the operations of the entries, each once, in canonical order: by kind, target and content. |
| Goals.FailsIffConflict | src/plan/graph.cpp:615-927 | Derivation fails exactly if something ensured was removed for good, differs in a field that cannot be changed, or refers to something that neither is there nor is asked for. |
| Goals.NothingDerivedIffMet | src/plan/graph.cpp:615-927 | Nothing is derived exactly where the snapshot is, field by field, as the target asks for; the one exception is a device in state absent, which counts as present. |
| Needs.DerivedExactly | src/plan/graph.cpp:386-927 | What is derived is, kind by kind, exactly what the target calls for: each operation changes something that is not as asked for, carries what is asked for and names no more than it changes; and for everything called for the like is derived, maintenance on the way and releases of removed routes included. |
| Convergence.StateNext | src/plan/graph.cpp:672-707 | Whatever accepted order the state operations of a device come in, the state after each is fixed by which of them have been applied. |
| Convergence.RunKeepsPhases | src/plan/graph.cpp:615-927 | Throughout any accepted run of derived operations, every entity is exactly where the operations applied so far put it. |
| Convergence.DerivationConverges | src/plan/graph.cpp:615-927 | For targets in canonical form that keep reserved capacities, ensure no device in a removed or absent state and ensure no configuration on a device they remove: once all derived operations have been applied, in any accepted order, everything is as the target asks for if and only if, for every workload ensured, the last change of its bindings in that order stores the ones asked for. |
| Convergence.ReservedFixed | src/model/evaluate.cpp:154-161 | No accepted run changes the reserved capacity of an existing device or link, or makes either disappear. |
| Convergence.RemovalLasts | src/model/evaluate.cpp:137-153 | A device removed anywhere along a run of derived operations is a tombstone at its end. |
| Convergence.ConvergesIffReachable | src/plan/graph.cpp:615-927 | For a target in canonical form, route removals included, once everything derived has been applied, in any accepted order, everything is as the target asks for if and only if the target leaves reserved capacities in service alone, asks for no removed or absent state a device is not already in, and ensures no configuration on a device it removes; and the bindings have settled in that order. |
| Networks.WalksAddNoRoute | src/model/evaluate.cpp:556-564 | No order of operations that adds a route gets through the search, whatever else is in it. |
| Networks.NewRoutesAreRefused | src/plan/generate.cpp:1474-1544 | No plan is ever returned for a target that ensures a route not yet in the snapshot. |
| Networks.UndrainedRemovalsAreRefused | src/plan/generate.cpp:1474-1544 | No plan is ever returned for a target that removes, or ensures removed or absent, a device in service that is not draining or in maintenance and for which no drain is derived, because draining first is not enforced or the device is not in state present. |
| Executions.ReplayIsApplied | src/plan/verify.cpp:190-203 | Replay in the planner's sense is the accepted application of the operations one by one. |
| Executions.ExecutedInOrder | src/plan/verify.cpp:62-204 | What an edge orders comes in that order in every execution of a sound plan. |
| Executions.SameLastBindings | src/plan/graph.cpp:1049-1157 | The last change of a workload's bindings is the same operation in every execution of a sound plan: the one listed last in canonical order. |
| Executions.PlansReachTheirTarget | src/plan/generate.cpp:1474-1544 | Every stage-respecting execution of a returned plan ends with everything as the target asks for if and only if the target can be reached and, in canonical order, the last change of the bindings of every workload ensured stores the ones asked for. |
| Rebindings.SettlesIffRebindsLast | src/plan/graph.cpp:914-925 | That condition in terms of target, snapshot and canonical order: every workload ensured that holds a removed route is bound anew by a change listed behind each differing release of it. |
| Rebindings.ReplacementCanBeUndone | src/plan/graph.cpp:760-790 | A concrete replacement of one route by another: all three derived operations are accepted in both orders, with the release first the target is reached, with the release second it is not, and their digests decide which is listed first. |
| TangledTargets.CyclicIsRefused | src/plan/generate.cpp:1474-1544 | Where the edges trap a set of steps, no plan is ever returned. |
| TangledTargets.TangledTargetsAreRefused | src/plan/generate.cpp:1474-1544 | No plan is ever returned for a tangled target, whatever else it asks for, route removals included. |
| TangledTargets.TwoRemovalsOfADomainAreRefused | src/plan/generate.cpp:1474-1544 | Draining first, no plan ever removes two devices in use of one failure domain. |
| TangledTargets.ConfiguredRemovalsAreRefused | src/plan/generate.cpp:1474-1544 | Draining first, no plan ever removes a device in use and writes or clears a configuration value on it. |
| RouteRefusals.TwoRoutesOfAWorkloadAreRefused | src/plan/graph.cpp:1010-1040 | No plan ever removes two routes that one workload is bound to. |
| RouteRefusals.GoneBindingsAreRefused | src/plan/graph.cpp:1010-1040 | No plan ever binds a workload to a route the target removes. |
| RouteRefusals.RemovedHoldersAreRefused | src/plan/graph.cpp:1010-1040 | No plan ever removes a workload together with a route it is bound to. |
| PlannedChanges.OrderNeverMattersToChanges | src/plan/verify.cpp:172-181 | For derived operations and edges no candidate of any strategy is ever found order dependent: that answer of the verifier is unreachable from the planner. |
| PlannedChanges.CandidatesEndWhereTheSearchDid | src/plan/generate.cpp:1099-1198 | An accepted candidate ends, whatever order its stages are taken in, in the state the search reached in its linear order. |
| PlannedChanges.PlanChange | src/plan/generate.cpp:943-1544 | Operation derivation, dependency derivation, window shift and plan generation composed: a plan comes back exactly if some candidate verifies, as for plan generation; it is sound for the operations derived from the target and the edges between them, at the least permitted instant if a shift is allowed; every execution of it ends as the target asks for if and only if that can be reached and no rebinding is listed before a release that undoes it; none is returned for an unplannable target; no candidate is ever malformed or order dependent. |
| Eligibility.EligibleRoutes | src/safety/checker.cpp:137-163 | Collects the eligible routes in binding order. |
| Eligibility.EligibleInService | src/safety/checker.cpp:111-163 | A route is collected exactly when one of the workload's bindings to it is active, it carries traffic and it avoids the forbidden domains. |
| Eligibility.EligibleExactly | src/safety/checker.cpp:90-163 | A route is collected exactly when a binding to it is active and the route is, its links join up from source to sink, both ends and all links are in state present, none of them draining, and no end, end of a link or domain a link passes through is forbidden. |
| Diversity.MostIsAttained | src/safety/checker.cpp:165-204 | The maximum the branching search defines is reached by an actual set of pairwise link-disjoint paths. |
| Diversity.MostIsMost | src/safety/checker.cpp:165-204 | No set of pairwise link-disjoint paths is larger. |
| Diversity.UnboundedFinds | src/safety/checker.cpp:165-204 | Without a budget the search ends with the required number or with the maximum. |
| Diversity.DisjointSearch.Explore | src/safety/checker.cpp:165-204 | The search gives back the used links, never reports more than can be realised, runs out exactly if without a budget it would take more calls, and otherwise ends as it would without one. |
| Diversity.MaximumLinkDisjointPaths | src/safety/checker.cpp:212-226 | What is reported is always there; if the budget lasts and it is short of the ceiling, there is no more among the first 24 routes; and the budget of 200000 calls runs out exactly if the search without one would take more. |
| Diversity.DisjointMeans | src/safety/checker.cpp:165-204 | So many routes are link disjoint exactly if that many can be chosen no two of which have a link of their paths in common. |
| Diversity.CallsOfSixteen | src/safety/checker.cpp:84-87 | The budget of 200000 calls covers every search over 16 routes; for 17 the worst case exceeds it. |
| Diversity.DomainRedundancy | src/safety/checker.cpp:237-265 | At least k routes survive the loss of any one failure domain exactly when k is at most the reported number. |
| Capacity.AddPath | src/safety/checker.cpp:462-467 | Adding a route's demand link by link counts a link as often as the path crosses it, saturating. |
| Capacity.AccumulateLoads | src/safety/checker.cpp:460-474 | The loads are the true sums over all eligible routes, capped at 2^64 - 1. |
| Capacity.LoadsAnyOrder | src/safety/checker.cpp:460-474 | Link and device loads do not depend on the order of the routes. |
| Capacity.HeadroomExact | src/safety/checker.cpp:528-530 | While usable capacity times the kept per-mille fits 64 bits, the limit is exact on true sums; when it does not fit, the test is against the bare usable capacity. |
| Capacity.HeadroomCanBeDropped | src/safety/checker.cpp:528-530 | A concrete link on which a load of twice what the headroom allows is not reported. |
| Capacity.CheckHeadroom | src/safety/checker.cpp:518-556 | Exactly the links and devices in service whose load exceeds their limit are reported. |
| Capacity.NothingReported | src/safety/checker.cpp:518-556 | Nothing is reported exactly when, on all links and devices still there, every true sum times 1000 is at most usable capacity times (1000 - headroom), or, where that product overflows 64 bits, the sum is within the usable capacity or that is as far as loads are counted. |
| Sha256Stream.Sha256.Update | src/core/digest.cpp:116-136 | Bytes are buffered and folded so that what has been folded and what waits are the message so far. |
| Sha256Stream.Sha256.PadZeros | src/core/digest.cpp:142-145 | The padding loop ends, with exactly 56 bytes waiting, after the least number of zeros. |
| Sha256Stream.Sha256.Finalize | src/core/digest.cpp:138-157 | The digest is the fold of the block function over the padded message. |
| Sha256Stream.PaddingIsStandard | src/core/digest.cpp:138-150 | The padding is that of section 5.1.1 of FIPS 180-4: the message, 0x80, zeros, the bit length big-endian, whole blocks; the length is exact below 2^61 bytes. |
| Sha256Stream.FewestZeros | src/core/digest.cpp:142-145 | No smaller number of zeros completes a block. |
| Sha256Stream.HashChunks | src/core/digest.cpp:159-169 | Every way of cutting a message into updates gives the same digest. |
| Bytes.LittleRoundTrip | src/core/canonical.cpp:18-28 | Reading back a number written byte by byte, low byte first, gives the number. |
| Bytes.LittleOnto | src/core/canonical.cpp:91-117 | Every byte string is the little-endian form of the number it reads as. |
| Bytes.LittleDigits | src/core/canonical.cpp:18-28 | The bytes written are the digits of the number to the base 256, the lowest first. |
| Utf8.AppendUtf8 | src/core/utf8.cpp:8-31 | Appends the encoding of a code point exactly when it is a scalar value, and nothing otherwise. |
| Utf8.IsValidUtf8 | src/core/utf8.cpp:33-83 | Accepts exactly the texts that are concatenations of encodings of scalar values, as section 3 of RFC 3629 defines them. |
| Utf8.ReadEncodes | src/core/utf8.cpp:33-83 | Whatever the validator reads at a position is the shortest encoding of a scalar value. |
| Utf8.DecodeEncodes | src/core/utf8.cpp:8-83 | Validating what was appended recovers the code points: encodings are never ambiguous. |
| Utf8.EncodeDecodes | src/core/utf8.cpp:8-83 | Encoding the code points of a valid text gives back the text. |
| Utf8Grammar.EncodedIsOctets | src/core/utf8.cpp:8-31 | What a scalar value is encoded as are octets that section 4 of RFC 3629 derives, and their free bits spell it. |
| Utf8Grammar.OctetsAreEncoded | src/core/utf8.cpp:8-31 | Octets the grammar derives are the encoding of the scalar value their free bits spell. |
| Utf8Grammar.ValidExactly | src/core/utf8.cpp:33-83 | A text is valid exactly if it is a row of characters the grammar derives. |
| Codec.RoundTrip | include/change_planner/core/canonical.hpp:235-259 | Decoding an encoded value, whatever follows it, gives the value back and leaves what follows, exactly when every list passes the element-count check; otherwise decoding fails. |
| Codec.EncodeInjective | include/change_planner/core/canonical.hpp:98-100 | Two values whose encodings start the same byte string are equal: encodings are prefix free. |
| Codec.MinBytesHold | src/core/canonical.cpp:178-197 | No encoding is shorter than the smallest size computed from its schema. |
| Codec.HonestFits | src/core/canonical.cpp:178-197 | If every list claims at most the true smallest element size, the count check never refuses an honest document. |
| Codec.IdentitySpelling | src/core/strong.cpp:7-50 | Identities are spelled with letters, digits and - . / : @ _ alone. |
| Codec.SignedAsUnsigned | src/core/canonical.cpp:30-32 | A signed number is written as the unsigned one equal to it modulo 2^64. |
| CanonicalStream.CanonicalEncoder.Put | include/change_planner/core/canonical.hpp:235-241 | Writing a value appends exactly its encoding to the buffer. |
| CanonicalStream.CanonicalDecoder.GetText | src/core/canonical.cpp:121-141 | Reads a length-prefixed valid UTF-8 text within the limit, or fails. |
| CanonicalStream.CanonicalDecoder.GetCount | src/core/canonical.cpp:178-197 | Fails exactly on a count over the limit or one the remaining bytes could not hold at the claimed minimum. |
| CanonicalStream.CanonicalDecoder.GetItems | include/change_planner/core/canonical.hpp:243-259 | Reads the declared elements in order; the first failure sticks. |
| CanonicalStream.CanonicalDecoder.Get | include/change_planner/core/canonical.hpp:57-96 | The decoder object reads exactly what decoding the remaining bytes gives, and once failed never recovers. |
| PlanDocument.OnlyReferencesOverclaim | src/plan/plan.cpp:175-189 | In the whole plan document the entity-reference lists are the only ones that claim more than the true smallest element: 6 bytes where a reference can take 5. |
| PlanDocument.RefListComesBackExactly | src/plan/plan.cpp:168-189 | A reference list decodes back if and only if its length is at most the identity bytes in it plus the bytes that follow it. |
| PlanDocument.PlanComesBackExactly | src/plan/plan.cpp:168-189 | A whole plan document decodes to itself if and only if every list of entity references in it, in whatever step, justification or rejected alternative, has at most as many elements as identity bytes in it plus bytes of the document after it; no other list can be refused. |
| PlanDocument.CrowdedPlanIsLost | src/plan/plan.cpp:175-189 | An otherwise empty plan document with global references in its justification decodes to itself with up to twelve of them and cannot be decoded with more: the empty rationale, notes and label after them take twelve bytes. |
| Codec.OverclaimsDecide | src/core/canonical.cpp:178-197 | Whether the count checks pass depends only on the lists whose claimed minimum exceeds what an element takes at least. |
| Artifacts.SerializePlanArtifact | src/persist/artifact.cpp:108-130 | The bytes are magic, versions, payload length, digest over header and payload, payload. |
| Artifacts.EnvelopeParts | src/persist/artifact.cpp:145-178 | The parser's header reads find in serialised bytes exactly the fields that were written. |
| Artifacts.PartsEnvelope | src/persist/artifact.cpp:145-187 | Bytes that pass every header check are exactly the envelope of their payload. |
| Artifacts.DecodePayload | src/persist/artifact.cpp:189-213 | A payload is accepted exactly when it is the canonical encoding of a structurally valid plan within the limits; each reason for refusing it has its exact condition. |
| Artifacts.ParsePlanArtifact | src/persist/artifact.cpp:136-224 | Parsing returns a plan if and only if the bytes are the serialised form of that plan within the limits, its lists of references have room in the above sense, and the plan is structurally valid: parsing and serialising undo each other. Other bytes are refused for the first thing that is wrong with them, size, magic, versions, length, digest and payload in this order. |
| Artifacts.FlagsNeedTheCheck | src/persist/artifact.cpp:203-213 | The re-encoding check is not redundant: a boolean byte above 1 decodes but is not what would be written. |
| JsonParser.Parser.ParseHex4 | src/core/json.cpp:219-234 | Reads four hexadecimal digits of either case or fails. |
| JsonParser.Parser.ParseUnicode | src/core/json.cpp:236-323 | An escape is a scalar value or a pair of surrogates in order; anything else fails. |
| JsonParser.Parser.ParseString | src/core/json.cpp:236-323 | Reads exactly the string the grammar gives: escapes resolved, no raw control bytes, valid UTF-8, within the limit. |
| JsonParser.Parser.SkipNumber | src/core/json.cpp:325-399 | Delimits exactly the number token of the grammar in section 6 of RFC 8259. |
| JsonParser.Parser.ParseNumber | src/core/json.cpp:325-399 | Integers in range become signed when they carry a minus sign and unsigned otherwise; other numbers keep their token if it spells a number the platform can represent, and are refused if not. |
| JsonParser.Parser.ParseArray | src/core/json.cpp:125-159 | Follows the array production with its element limit. |
| JsonParser.Parser.ParseObject | src/core/json.cpp:161-217 | Follows the object production with its member limit; members end up sorted by key and a repeated key is refused. |
| JsonParser.Parser.ParseValue | src/core/json.cpp:84-113 | Dispatches on the first byte exactly as the grammar does, within the depth limit. |
| JsonParser.ParseJson | src/core/json.cpp:43-57 | The position-moving parser computes exactly the grammar's reading of the whole document. |
| JsonMembers.ObjectHolds | src/core/json.cpp:161-217 | Members that are read are refused exactly if a key occurs twice among them; otherwise the object holds all of them, in strictly ascending order of their keys. |
| JsonEscapes.ScalarReads | src/core/json.cpp:219-323 | A scalar value below 10000 hexadecimal, written as one escape of four digits of either case, reads as its UTF-8 encoding. |
| JsonEscapes.PairReads | src/core/json.cpp:273-316 | A scalar value from 10000 hexadecimal on, written as a surrogate pair, reads as its UTF-8 encoding. |
| JsonEscapes.OnlyScalarsRead | src/core/json.cpp:219-323 | Whatever is read from an escape of digits is one of these: a lone or reversed surrogate never is. |
| JsonEscapes.ShortReads | src/core/json.cpp:236-272 | The eight short escapes read as what they stand for, and no other letter does. |
| JsonTokens.NumberReads | src/core/json.cpp:325-399 | Every number laid out as section 6 of RFC 8259 has it, a sign, integer digits without a leading zero, a fraction and an exponent, is read to its end: as an integer if it has neither fraction nor exponent and fits 64 bits, as it is written if it has one and can be represented, and refused otherwise. |
| JsonTokens.OnlyNumbersRead | src/core/json.cpp:325-399 | Nothing else is read as a number. |
| JsonTokens.SpaceIsSkipped | src/core/json.cpp:73-82 | Exactly spaces, tabs, line feeds and carriage returns are skipped between tokens. |
| JsonRoundTrip.BodyReads | src/core/json.cpp:402-441 | An escaped valid UTF-8 string reads back as itself. |
| JsonRoundTrip.UnsignedReads | src/core/json.cpp:443-477 | An unsigned number written in decimal reads back as itself. |
| JsonRoundTrip.NegativeReads | src/core/json.cpp:443-477 | A negative number reads back as itself, the most negative 64-bit one included. |
| JsonRoundTrip.ValueReads | src/core/json.cpp:479-551 | A written value, compact or pretty and at any depth within the limits, reads back up to signs of non-negative numbers. |
| JsonRoundTrip.DocumentRoundTrip | src/core/json.cpp:708-720 | Parsing a written document gives the value in normal form. |
| JsonRoundTrip.DocumentComesBackExactly | src/core/json.cpp:708-720 | It gives exactly the value written if and only if no signed number in it is non-negative. |
| JsonRoundTrip.NormalSame | src/core/json.cpp:443-477 | Normal form changes a value exactly when it holds a signed number that is not negative. |
| Json.RisingMembersStay | src/core/json.cpp:597-615 | Members already in ascending key order are kept as they are and contain no duplicate. |

## Left out

- GeneratePlan: the texts and diagnostics of a refusal are not modelled; that no candidate is preferred to the plan returned supposes that the objective compares candidates consistently.
- RunAttempt: says of a budget only that it had run out by the end, not which budget suffices for a change; capability gating is an arbitrary predicate of the operations.
- RunSchedule: a failure while a batch is sealed counts as over budget, which is the only way sealing can fail.
- Scheduler: its methods (Seal, SealBatch, Place, Compress) promise nothing about the partial stages built when they fail, since the original throws those away.
- PrependCompensations: the count of interleavings and the digest that the original writes into the plan afterwards are not written.
- VerifyPlan: the conditions and violations listed for a failing step are not reported, only the step and the reason.
- RefusalMeansNoOrder: the hypothesis on ready steps is sufficient; it is discharged for changes of settings beside work on one device, and no exact condition is given for other mixes of operations.
- MinimiseBlockingCore: irreducibility needs a deterministic, uncancelled oracle, monotone within what the first pass switched off, which is sufficient and not necessary; the entries' explanatory fields and final order are not modelled.
- RouteTangledIffTarget: digests of different operations are taken to differ, as elsewhere.
- SafeChangeIsMissed: a search that succeeds is what the contract of an attempt demands of a returned plan; when a successful search yields a candidate that verifies is the contract of the planner.
- Breaks: the change-serialisation limits, which like the headroom come from the first such obligation, are not modelled.
- PlanChange: states when a returned plan is right and which targets are always refused, not that every other target is planned.
- MaximumLinkDisjointPaths: between 17 and 24 routes exactness is conditional on the budget lasting; beyond 24 routes only the sound direction holds, as in the original.
- DocumentRoundTrip: excludes real numbers, whose text form is left to the platform's number formatting.
- Finalize: takes the SHA-256 block function as a parameter; the compression rounds and collision resistance are not modelled.
- Snapshot collections are maps, so the order of the original's vectors and its checks for duplicate identities are not modelled; the lists inside an entity keep their order.
- Condition lists are kept in the order they are derived; the original sorts them and removes duplicates, which changes neither their conjunction nor whether they are empty.
- The obligations as one function: connectivity, concurrency budgets, serialisation, capability evidence and contracts are an arbitrary predicate of the state; diversity, survivability, capacity and windows are modelled on their own.
- The guaranteed-capacity check, which reads loads accumulated only up to the current workload.
- Explanations, refusal documents, rejected alternatives, risk and duration tables, objective comparison, token tables.
- Trace and content digests of plans, and the reproducibility of the verification digest.
- Fencing of observations and the choice of steps to compensate; plan invalidation.
- Files, directories, process identifiers, threads, mutexes, the repository and the command line.
- Wrap-around of step, stage and permutation counters beyond 64 bits, which the limits exclude.
