# Verification of the Cosy World rules, names, prompts and jobs

A Dafny 4.11 model of the repository's rule-bearing code, with proofs about every
input, every run or every reachable state.  `dafny verify dfyconfig.toml` checks
all of it.

## What is modelled

**The rules kernel** (`v2/core-c/src/cosy_kernel.c`) is one mutable world of
counted tables that a single entry point advances with some forty kinds of
action.  It appears twice.  `KernelTypes` to `Dispatcher` and `Offers` give the
rules as functions on a world value: `Step` is one call, `StepLog` the events it
writes, `Run` and `Trace` a sequence of calls.  The `Live…` modules give the same
handlers in the source's own form, a `WorldState` object changed in place, with
its search loops, its compaction and its in-place insertion sort; every handler
is proved against its function, up to `LiveKernel.Apply`, whose status, world and
event log are exactly those of `Step`, and `LiveOffers.ListOffers`.  The laws are
proved about the functions and so hold of the live world:

* `Claims`: gate transitions take effect exactly once; repeats are invisible.
* `Atomicity`: a call that does not succeed changes nothing.
* `Travel`, `Histories`: no stale authorisation, and every location history is a
  legal path, also while gates are defined and redefined between the calls.
* `CombatLaws`, `TurnLaws`: the structure of encounters, when and only when a
  fight gets stuck, the way out, and fair turns.
* `OfferLaws`: what is offered can be done, and what can be done was offered.
* `ItemLaws`, `RestLaws`, `EventLaws`: items, rests, events.
* `CapacityLaws`, `LoadLaws`: who can bear what after each kind of call, and what
  alone can push anybody over capacity.
* `GateArena`: the flat gate tables refine nested gate definitions.
* `GateMeaning`, `TransitionMeaning`, `DefinitionMeaning`, `EvidenceMeaning`,
  `CombatMeaning`, `EncounterMeaning`, `ItemMeaning`, `CraftMeaning`,
  `ActorMeaning`, `OfferMeaning`, `CallMeaning`: what each rule does, told over the
  tables and without the rules' own helpers: exactly when a call succeeds, and the
  whole new state and the events when it does.  `RefusalMeaning` tells what a call
  is told when it does not.  `BitsMeaning` does the same for the word operations
  and the hash behind a gate's digest.

`Effects` states, rule by rule, which tables a call may touch; `GateView` what a
gate decision depends on; `Lookup`, `Carrying` and `Bits` hold the small searches
and sums.

**The avatar names** (`v2/ai-model-rust/src/lib.rs`): the weighted schedule of
name forms (`NamingSchedule`), the coprime multiplier search and the affine
permutation (`NumberTheory`), mixed-radix selection (`MixedRadix`, `Naming`),
patterns (`NamingText`, `NamingValidity`) and the configuration validator
(`NamingValidator`).  `NamingLaws` proves that an accepted configuration names
everybody validly, and when exactly two actors get the same components;
`NamingSpelling` when they get the same name, and which forms keep names apart;
`NamingMeaning` which culture a context gets, which configurations are accepted,
and what the name is.

**The prompt packer** (`v2/orchestrator-rust/src/ai_context.rs`) in
`PromptPacking`, with its guarantees in `PackingLaws` and the exact prompt and
telemetry in `PromptMeaning`.

**The practice projection** (`v2/orchestrator-rust/src/actor_practice.rs`) in
`Practice`, with idempotence, order independence and hysteresis in
`PracticeLaws` and the exact projection in `PracticeMeaning`.

**The job table** (`v2/orchestrator-rust/src/actor_jobs.rs`): `ActorJobs` is the
table and its updates; `JobLaws` a state machine in which any number of workers
interleave selections, conditional updates and writes by identifier alone, with
the fencing of attempt numbers; `JobLeases` how long leases and completions are
respected; `JobExclusivity` when one actor can hold two leases; `JobMeaning` which
row a worker gets and what each write makes of it.
`JobTable.Insert` and `JobTable.Complete` model `insert_actor_job_payload` (lines
29563-29601) and `complete_actor_job` (lines 29622-29633) of
`v2/orchestrator-rust/src/main.rs`, which also declares the table (lines
29105-29122).

`Sequences` (filtering, summing, stable sorting), `Options` and `Whitespace` are
shared.

## Where a promise fails

Six promises do not hold as broadly as one might expect.  For each the exact
condition is proved for all inputs, and a concrete case is given.

* An encounter can be left stuck by an unordered attack from outside it
  (`CombatLaws.OnlookerStrandsDuel`), and by nothing else
  (`CombatLaws.StuckExactlyWhenFelled`).
* A gift or trade can overload its receiver, because the check credits an equipped
  container's capacity and the transfer resets its zone
  (`CapacityLaws.GiftOfAnEquippedContainerOverloads`,
  `TradeOfAnEquippedContainerOverloads`); a theft can overload the thief in the
  same way, and the victim, who is not checked at all
  (`TheftOfAnEquippedContainerOverloadsTheVictim`); so can a craft that consumes or
  exhausts its crafter's equipped container, a gate transition that installs or
  exhausts one, and a use of its last charge
  (`LoadLaws.CraftOfAnEquippedContainerOverloads`,
  `InstallationOfAnEquippedContainerOverloads`, `LastChargeOverloads`).
  `GiveFitsIff`, `TradeFitsIff`, `TheftFitsIff`, `LoadLaws.CraftFitsIff`,
  `LoadLaws.TransitionFitsIff`, `LoadLaws.UseFitsIff` and, for every kind of call,
  `LoadLaws.StepFitsIff` say for everybody exactly when; no call that names no
  equipped container overloads anybody (`LoadLaws.OnlyContainersOverload`).
* A job's attempt number is granted twice once it has reached the largest 64-bit
  number (`JobLaws.LargestAttemptRepeats`), and only then
  (`JobLaws.AttemptsAreGrantedOnce`).
* One actor can hold two leases of one kind when selections and updates of two
  workers interleave (`JobExclusivity.InterleavingBreaksExclusivity`): over any
  run exclusivity holds exactly as long as no update takes a blocked row
  (`JobExclusivity.ExclusiveIffNeverBlocked`).
* A leased or completed job can be granted again after a late failure report
  (`JobLeases.GrantedUnderALease`, `JobLeases.GrantedAfterCompletion`): leases,
  completion and death are respected if and only if no failure report with
  attempts left and no requeue names the row (`JobLeases.LeaseIsRespectedIff`,
  `JobLeases.TerminalRowsStayIff`), and after one that does any job can be granted
  once more (`JobLeases.ReleaseLeadsToGrant`).
* A prompt's token estimate is exact, and its overflow report right, unless the
  system and pinned texts alone come to 2^32 tokens (`PackingLaws.EstimateIsExact`,
  `PackingLaws.OverflowIff`, and for a case `PackingLaws.FloodGoesUnnoticed`).

## Conventions

* A seed is a pair of functions: the mixed value behind each die roll, and the
  stream of ability scores.  Nothing depends on how the generator mixes, so every
  statement holds for all dice.
* Counters whose width matters carry it: sixteen-bit damage and rounds, the
  wrapping tick and event counter, the saturating revision, the 32-bit token
  sums, the 64-bit attempt numbers and times.
* Statements about reachable states start from a well-formed world: distinct
  non-zero identifiers, exits between existing different places, encounters as
  the kernel itself builds them.  Each such predicate is proved to survive every
  call.

## Model

| member | source | states |
|---|---|---|
| Claims.ExactlyOnce | v2/core-c/src/cosy_kernel.c:2037-2047 | After a gate transition has succeeded under a claim identifier, at any later point of any run every transition call under that identifier leaves the world alone and writes at most the claim-conflict refusal |
| Claims.RetriesAreInvisible | v2/core-c/src/cosy_kernel.c:3279-3297 | However many repeats of recorded claims are scattered through a run, its final world, sequence counter and every event are those of the run without them |
| Claims.RetryIsInert | v2/core-c/src/cosy_kernel.c:3279-3290 | A matching repeat is accepted without a clock tick, a revision, an event or a die roll, also when the recorded attempt had failed its check |
| Claims.ReuseIsRefused | v2/core-c/src/cosy_kernel.c:3283-3297 | A recorded identifier used for another gate, actor, item, method or transition is refused with the conflict reason and changes nothing else |
| Claims.StepKeepsClaimsDistinct | v2/core-c/src/cosy_kernel.c:2103-2118 | Claim identifiers in the ledger stay distinct through every call |
| Claims.LedgerOnlyGrows | v2/core-c/src/cosy_kernel.c:2172-2179 | The ledger is append-only over whole runs |
| Claims.StepLedger | v2/core-c/src/cosy_kernel.c:2037-2186 | One call appends at most its own claim; a successful transition is in the ledger afterwards |
| Atomicity.FailureAtomicity | v2/core-c/src/cosy_kernel.c:3318-3447 | For every world and every one of the action kinds: a result that is not OK leaves the whole world, clock included, as it was |
| Atomicity.FailedCallMovesOnlyTheCounter | v2/core-c/src/cosy_kernel.c:372-396 | A failed call changes nothing of the kernel's state but the event sequence counter |
| Atomicity.FailingRunChangesNothing | v2/core-c/src/cosy_kernel.c:3276-3454 | Any number of failing calls in a row leaves the world as it was |
| Atomicity.CraftCreationCannotFail | v2/core-c/src/cosy_kernel.c:2430-2541 | Once a craft has passed its checks, creating the output cannot fail although the inputs are already gone: removal frees the slot that validation counted on |
| Atomicity.StateWriteCannotFail | v2/core-c/src/cosy_kernel.c:2164-2186 | Once a transition has passed its checks, writing the gate state cannot fail although the claim is already pushed |
| Atomicity.CraftIsAtomic | v2/core-c/src/cosy_kernel.c:2430-2541 | A craft either succeeds or leaves the world as it was |
| Atomicity.TransitionIsAtomic | v2/core-c/src/cosy_kernel.c:2019-2245 | A gate transition either succeeds or leaves the world as it was |
| Travel.EverySuccessRaisesRevision | v2/core-c/src/cosy_kernel.c:3447-3452 | The access revision rises by exactly one, saturating, for every OK call but a claim retry, and for nothing else |
| Histories.StaleOfferIsNeverHonoured | v2/core-c/src/cosy_kernel.c:2049-2062 | Over any history of calls with gate definitions between them: an offer taken before any accepted definition or effective call is current for no gate and no actor afterwards, below saturation |
| Histories.HistoryIsALegalPath | v2/core-c/src/cosy_kernel.c:2658-2722 | Over any such history an actor's locations, from its creation if it was created on the way, are a path of exits of the starting map; each crossing was made by the actor's own call while the exit was unlocked, or while the gate admitted that call's own facts and method under a current offer |
| Histories.EffectRaisesRevision | v2/core-c/src/cosy_kernel.c:575-667 | An accepted gate definition and an effective call raise the revision by one, saturating; any other move leaves it alone |
| Histories.EffectiveMoveMovesRevision | v2/core-c/src/cosy_kernel.c:3447-3452 | One such move anywhere in a history leaves the revision different from its start |
| Histories.RevisionNeverFalls | v2/core-c/src/cosy_kernel.c:3447-3452 | The revision never falls over a history |
| Histories.DefinitionRaises | v2/core-c/src/cosy_kernel.c:575-667 | A gate definition touches the gate, method and predicate tables and the revision, and nothing else of the world |
| Histories.RunIsAHistory | v2/core-c/src/cosy_kernel.c:3276-3454 | A run of calls alone is a history, so these laws hold of runs |
| Travel.StaleCallFails | v2/core-c/src/cosy_kernel.c:1283-1342 | A call relying on such an offer fails: a transition always, a journey whenever a gate is bound to its exit |
| Travel.StepMovesLegally | v2/core-c/src/cosy_kernel.c:1237-1354 | One call moves nobody but its own actor, and that one along an existing exit that was unlocked, or whose gate, under the facts and method the call itself brought and an offer current in that state, admitted it |
| Travel.ClearMeansLegal | v2/core-c/src/cosy_kernel.c:1283-1342 | The travelling rules find a crossing clear if and only if it is legal in that sense |
| CombatLaws.StepKeepsCombat | v2/core-c/src/cosy_kernel.c:2848-3274 | Through every call encounter identifiers stay distinct, participants are distinct existing actors sorted by initiative then identifier, the turn index is in range, nobody fights unescaped in two active encounters, and fighters stand where the fight is; and no encounter becomes stuck except through the unordered attack |
| CombatLaws.RunKeepsCombat | v2/core-c/src/cosy_kernel.c:2848-3274 | The same structure over whole runs |
| CombatLaws.StuckExactlyWhenFelled | v2/core-c/src/cosy_kernel.c:2559-2656 | From a world where no encounter is stuck, a call leaves one stuck if and only if it is an unordered attack knocking out a fighter who holds the turn or is the last able one of a side |
| CombatLaws.PeacefulRunIsNeverStuck | v2/core-c/src/cosy_kernel.c:2778-2819 | Over any run without such an attack, at every point each active encounter has both sides able to act and a current participant able to act |
| CombatLaws.BystandersAreNotEssential | v2/core-c/src/cosy_kernel.c:2559-2656 | An attack on somebody who fights nowhere never fells |
| CombatLaws.OnlookerStrandsDuel | v2/core-c/src/cosy_kernel.c:2559-2656 | A concrete world in which one attack by an outsider leaves a sound duel stuck |
| CombatLaws.FinishedTurnIsPlayable | v2/core-c/src/cosy_kernel.c:2778-2819 | Finishing a turn resolves its encounter or leaves it playable, whatever state it was in, and reseats nobody |
| CombatLaws.PassSucceedsIff | v2/core-c/src/cosy_kernel.c:3154-3169 | The holder of the turn can pass, naming the encounter or leaving it to be found, exactly when it can act, hence always while the encounter is not stuck |
| CombatLaws.ReferringToAnEncounter | v2/core-c/src/cosy_kernel.c:2828-2830 | An action refers to an active encounter by its identifier, or with none exactly when its actor stands in it unescaped |
| CombatLaws.StuckTurnIsRefused | v2/core-c/src/cosy_kernel.c:2821-2846 | When the holder of the turn cannot act, every call that takes a turn in that encounter is refused |
| CombatLaws.AbandonResolves | v2/core-c/src/cosy_kernel.c:3171-3199 | Any participant's abandon resolves the encounter in one step, stuck or not, whoever holds the turn |
| CombatLaws.SortSettles | v2/core-c/src/cosy_kernel.c:2736-2750 | The participant sort yields a permutation in initiative order, identifiers breaking ties |
| CombatLaws.AdmissionKeepsTheTurn | v2/core-c/src/cosy_kernel.c:2957-2975 | A join re-sorts, but the turn index still points at whoever held the turn |
| CombatLaws.OpeningIsSafe | v2/core-c/src/cosy_kernel.c:2848-2935 | A new encounter takes a free or resolved slot without repeating an identifier or engaging anybody twice, and starts with an able holder |
| CombatLaws.EscapeIsSafe | v2/core-c/src/cosy_kernel.c:3217-3274 | An escape keeps the structure and leaves no encounter stuck |
| CombatLaws.CombatAttackIsSafe | v2/core-c/src/cosy_kernel.c:2999-3134 | An attack in turn order keeps the structure and leaves no encounter stuck, whatever it does to its target |
| TurnLaws.AdvanceMovesOneRank | v2/core-c/src/cosy_kernel.c:2810-2818 | The next turn goes to the able participant of the next rank, after the last one to the first, and only then does the round rise, up to its cap |
| TurnLaws.OneRound | v2/core-c/src/cosy_kernel.c:2778-2819 | With membership and ability fixed, in one cycle every able seat has the turn exactly once, only able seats do, and then the turn is back and the round is one higher |
| TurnLaws.FairTurns | v2/core-c/src/cosy_kernel.c:3154-3169 | As many consecutive passes as there are able participants are made by each of them exactly once and change nothing of the encounter but the round, which rises by one |
| TurnLaws.JoinKeepsTheTurn | v2/core-c/src/cosy_kernel.c:2937-2997 | A join, accepted or refused, leaves the turn with whoever holds it and the round as it was |
| OfferLaws.OffersAreHonoured | v2/core-c/src/cosy_kernel.c:3483-3600 | In a sound, unstuck world every offered CHAT, CHECK, MOVE, PICK_UP, SEARCH, CRAFT, ATTACK, DEFEND and FLEE has arguments for which the call succeeds whatever the dice; in combat the last three mean the combat attack, the dodge and the escape |
| OfferLaws.OffersAreHonouredInEveryRun | v2/core-c/src/cosy_kernel.c:3483-3600 | The same in every state a peaceful run reaches from a sound start |
| OfferLaws.SuccessWasOffered | v2/core-c/src/cosy_kernel.c:3483-3600 | Conversely a pick-up or unordered attack that succeeds, and a move without facts or a named method that succeeds, was on offer, and so were chat and check when something is said outside a fight or a check is made; so outside combat PICK_UP is offered exactly when some pick-up succeeds |
| OfferLaws.StepKeepsSound | v2/core-c/src/cosy_kernel.c:3276-3454 | The soundness the offers rely on survives every call |
| OfferLaws.FoeIsFound | v2/core-c/src/cosy_kernel.c:2730-2776 | In a playable encounter the holder of the turn has an able opponent |
| LiveOffers.ListOffers | v2/core-c/src/cosy_kernel.c:3483-3600 | The loops over encounters, exits, actors and items set exactly the option flags of `GetOffers`, each of which `OfferMeaning.OffersMean` spells out |
| ItemLaws.CraftAccounts | v2/core-c/src/cosy_kernel.c:2430-2541 | A successful craft leaves exactly the old identifiers, less its consumed or transformed inputs, plus its output, all distinct |
| ItemLaws.ItemsComeAndGoByCraft | v2/core-c/src/cosy_kernel.c:2411-2514 | Over any run an item disappears only into a successful craft that consumed it and appears only out of one that made it |
| ItemLaws.RunKeepsItemsOk | v2/core-c/src/cosy_kernel.c:434-488 | Over any run item identifiers stay distinct under compaction, no item has both a holder and a location, and charges never exceed their maximum |
| ItemLaws.StepAccountsForItems | v2/core-c/src/cosy_kernel.c:113-126 | Only CRAFT changes the set of item identifiers |
| CapacityLaws.PickUpFits | v2/core-c/src/cosy_kernel.c:1418-1474 | After a pick-up, with or without exchange, the actor is within capacity, and nobody within capacity is pushed over |
| CapacityLaws.DropFits | v2/core-c/src/cosy_kernel.c:1476-1505 | After a drop the actor is within capacity, and nobody within capacity is pushed over |
| CapacityLaws.GiveFitsIff | v2/core-c/src/cosy_kernel.c:1805-1857 | After a gift each party is within capacity if and only if it had room for what it received in its carried zone; everybody else is as before |
| CapacityLaws.TradeFitsIff | v2/core-c/src/cosy_kernel.c:1859-1908 | The same for a trade |
| CapacityLaws.TheftFitsIff | v2/core-c/src/cosy_kernel.c:1706-1759 | After a theft the thief is within capacity if and only if it had room for what it took, the victim if and only if it had room without what it lost, everybody else as before; a lost roll moves nothing |
| CapacityLaws.CheckSufficesWithoutContainers | v2/core-c/src/cosy_kernel.c:510-528 | When nothing received is an equipped container the kernel's own check implies that condition |
| CapacityLaws.GiftOfAnEquippedContainerOverloads | v2/core-c/src/cosy_kernel.c:1826-1842 | A concrete gift of an equipped container that is accepted and overloads its receiver: the check credits its capacity, the transfer resets its zone |
| CapacityLaws.TradeOfAnEquippedContainerOverloads | v2/core-c/src/cosy_kernel.c:1879-1893 | A concrete trade that does the same |
| CapacityLaws.TheftOfAnEquippedContainerOverloadsTheVictim | v2/core-c/src/cosy_kernel.c:1706-1759 | A concrete theft after which the victim, whom nothing checks, is over capacity while the thief is not |
| CapacityLaws.ExchangeMeansLoad | v2/core-c/src/cosy_kernel.c:510-528 | The one-pass transfer check compares the load after the exchange with the base capacity |
| LoadLaws.CraftFitsIff | v2/core-c/src/cosy_kernel.c:2411-2541 | After a craft anybody is within capacity if and only if they can bear the output they receive, without the weight of the removed inputs and without what the removed or exhausted inputs let them carry |
| LoadLaws.TransitionFitsIff | v2/core-c/src/cosy_kernel.c:2188-2218 | After a gate transition anybody is within capacity if and only if they can bear what it moves: an item installed takes its weight and its capacity along, an item exhausted its capacity only, an item taken out adds its weight; a failed check and a repeat move nothing |
| LoadLaws.CraftOfAnEquippedContainerOverloads | v2/core-c/src/cosy_kernel.c:2411-2428 | A concrete craft that exhausts the crafter's equipped container, is accepted, and leaves the crafter over capacity |
| LoadLaws.InstallationOfAnEquippedContainerOverloads | v2/core-c/src/cosy_kernel.c:2188-2218 | A concrete gate transition that installs the actor's equipped container, is accepted, and leaves the actor over capacity |
| LoadLaws.UseFitsIff | v2/core-c/src/cosy_kernel.c:1507-1552 | After a use anybody is within capacity if and only if they can bear the loss of what the item let them carry, which only its last charge takes along |
| LoadLaws.LastChargeOverloads | v2/core-c/src/cosy_kernel.c:1507-1552 | A concrete use whose last charge exhausts the user's equipped container and leaves the user over capacity |
| LoadLaws.StepMovesLoad | v2/core-c/src/cosy_kernel.c:3276-3454 | Every call, of every kind, changes what an actor bears by exactly an amount computed from the world before and the call; a failed call by nothing |
| LoadLaws.StepFitsIff | v2/core-c/src/cosy_kernel.c:3276-3454 | So after any call an actor is within capacity if and only if it can bear that change |
| LoadLaws.OnlyContainersOverload | v2/core-c/src/cosy_kernel.c:490-528 | No call pushes anybody over capacity unless it names an equipped container among its items; picking up and dropping never do |
| LoadLaws.RunStaysWithinCapacity | v2/core-c/src/cosy_kernel.c:490-528 | Over any run of such calls nobody who is within capacity ever leaves it |
| EventLaws.EveryEventIsWritten | v2/core-c/src/cosy_kernel.c:346-353 | With a buffer no call ever fills it before its last event: all are written in order and without a gap, and the counter moves by exactly their number; without a buffer it stays |
| EventLaws.RunIsNumbered | v2/core-c/src/cosy_kernel.c:346-353 | Over whole runs the events are numbered contiguously and the counter ends one past the last |
| EventLaws.EvolvePaysForEvents | v2/core-c/src/cosy_kernel.c:1782-1803 | An evolution pass emits one event for each track it settles, and nothing else |
| EventLaws.TracksBoundEvolutions | v2/core-c/src/cosy_kernel.c:1782-1803 | In a world's lifetime there are at most as many evolution events as tracks whose actor had not evolved, also across the two passes of trade and craft |
| EventLaws.ActorEvolvesOnce | v2/core-c/src/cosy_kernel.c:1782-1803 | No actor evolves in two calls of a run |
| EventLaws.CallEvolvesOnce | v2/core-c/src/cosy_kernel.c:1782-1803 | One call, whatever number of passes it makes, emits at most one evolution event for an actor, and only for one who had not evolved before and has afterwards |
| EventLaws.OneEvolutionEach | v2/core-c/src/cosy_kernel.c:1782-1803 | Over a whole run an actor is named by at most one evolution event, and by none if it had evolved before |
| EventLaws.StepIsAccounted | v2/core-c/src/cosy_kernel.c:1905-1906 | The events of one call fit the buffer, the evolutions paid for by tracks not yet settled and each of a different actor |
| RestLaws.RestIsExact | v2/core-c/src/cosy_kernel.c:1656-1704 | A well-graded rest with room for its events succeeds and refreshes exactly the chosen items: the refreshable ones of least identifier, as many as requested |
| RestLaws.PickingTakesTheLeast | v2/core-c/src/cosy_kernel.c:1638-1654 | Whatever the picking loop leaves has a greater identifier than anything it takes |
| RestLaws.RestNeverFindsFewer | v2/core-c/src/cosy_kernel.c:1675-1703 | The internal error of the rest rule cannot occur |
| GateArena.FlatEqualsNested | v2/core-c/src/cosy_kernel.c:669-760 | Evaluating the flat method and predicate tables always decides, and decides as the nested definition does: allowed, method, mask and reason |
| GateArena.AllowedMeans | v2/core-c/src/cosy_kernel.c:222-300 | The decision in words: open or broken, or closed with an active actor and a method, the first of its name when one is asked for, whose predicates all hold, as `GateMeaning.HoldsMeans` spells out |
| GateArena.SetGateRefines | v2/core-c/src/cosy_kernel.c:575-667 | Defining or redefining a gate in the tables is defining it in the nested form |
| GateArena.DefiningOneGateSparesOthers | v2/core-c/src/cosy_kernel.c:575-667 | Defining one gate leaves every other gate's allowed, method, mask and reason unchanged |
| GateArena.RepresentedRangesAreInBounds | v2/core-c/src/cosy_kernel.c:608-660 | All method and predicate ranges of represented tables are in bounds |
| GateArena.HistoriesStayRepresented | v2/core-c/src/cosy_kernel.c:575-667 | After any history of gate definitions and calls the tables represent the nested definitions that history made, all ranges in bounds |
| GateArena.HistoriesDecideAsDefined | v2/core-c/src/cosy_kernel.c:669-760 | So after any history evaluating the tables, for every gate, actor, facts and method, is evaluating those definitions |
| GateArena.DefinitionsLast | v2/core-c/src/cosy_kernel.c:649-660 | A gate keeps its methods through any history that does not define it again |
| GateArena.LatestDefinitionDecides | v2/core-c/src/cosy_kernel.c:575-760 | Hence, after an accepted definition and any history without another of that gate, the tables decide as a gate with exactly the methods supplied |
| GateView.DecisionCarriesRevision | v2/core-c/src/cosy_kernel.c:669-760 | Every decision carries the access revision of the world it was taken in |
| GateView.SameEvaluation | v2/core-c/src/cosy_kernel.c:669-760 | A decision depends on the gate tables, fact tables, actors and revision only |
| Effects.StepIsTheRule | v2/core-c/src/cosy_kernel.c:3316-3453 | A call neither barred by combat nor answered from the ledger has the status and events of its rule on the advanced clock; a failure leaves the whole world, clock included, as it was; a success keeps the advanced clock, and raises the revision by one, saturating, unless it is a gate transition, whose rule sees to its own revision |
| Effects.BarredCallIsRefused | v2/core-c/src/cosy_kernel.c:3298-3317 | While an actor fights, every action outside the permitted list is refused and changes nothing, of whatever kind; only a gate transition naming a recorded claim is answered before |
| Effects.StepFrame | v2/core-c/src/cosy_kernel.c:3276-3454 | No call removes or renames an actor or changes its strength, redraws the map, locks an exit, retargets a track or rewrites the methods of a gate |
| LiveKernel.Apply | v2/core-c/src/cosy_kernel.c:3276-3454 | The entry point in place: its status, the world it leaves and the events it writes are those of the specification step |
| LiveKernel.Attempt | v2/core-c/src/cosy_kernel.c:3318-3453 | Clock advance, rule, clock rollback on failure, and revision bump on success, on the live world |
| LiveKernel.CheckReplay | v2/core-c/src/cosy_kernel.c:3279-3297 | The ledger look-up at the start: nothing found, a match, or a conflict |
| LiveKernel.DispatchReport | v2/core-c/src/cosy_kernel.c:1164-1235 | The reporting kinds and the refusal of unknown kinds, in place |
| LiveState.WorldState.Emit | v2/core-c/src/cosy_kernel.c:346-353 | Appending an event to a buffer that may be absent |
| LiveState.WorldState.Refuse | v2/core-c/src/cosy_kernel.c:372-396 | Writing the refusal event |
| LiveState.WorldState.LocateItem | v2/core-c/src/cosy_kernel.c:106-111 | The search loop finds the first record with the identifier, or the end |
| LiveState.WorldState.LocateEngagement | v2/core-c/src/cosy_kernel.c:316-328 | The search for the first active encounter with the actor unescaped in it |
| LiveState.WorldState.RequireActive | v2/core-c/src/cosy_kernel.c:1156-1162 | The shared opening of the handlers: the acting actor if active, else the refusal |
| LiveItems.CheckExchange | v2/core-c/src/cosy_kernel.c:510-528 | The transfer check as one pass with two running totals |
| LiveItems.EvolvePass | v2/core-c/src/cosy_kernel.c:1782-1803 | The pass over all tracks after a placement, evolving actors in place |
| LiveItems.PickUp | v2/core-c/src/cosy_kernel.c:1418-1474 | Pick-up in place, with its exchange |
| LiveItems.Drop | v2/core-c/src/cosy_kernel.c:1476-1505 | Drop in place |
| LiveItems.Give | v2/core-c/src/cosy_kernel.c:1805-1857 | Gift in place, with its optional return |
| LiveItems.Trade | v2/core-c/src/cosy_kernel.c:1859-1908 | Trade in place, with two evolution passes |
| LiveItems.SearchPlace | v2/core-c/src/cosy_kernel.c:1910-1941 | Search in place |
| LiveItems.Reveal | v2/core-c/src/cosy_kernel.c:2247-2278 | Revealing an item in place |
| LiveCraft.UsePotion | v2/core-c/src/cosy_kernel.c:1507-1552 | Use in place: charge, healing, revival |
| LiveCraft.Utilize | v2/core-c/src/cosy_kernel.c:1554-1574 | The rules utilisation of an item, in place |
| LiveCraft.CastSpell | v2/core-c/src/cosy_kernel.c:1576-1604 | Magic in place |
| LiveCraft.Steal | v2/core-c/src/cosy_kernel.c:1706-1759 | Theft in place: the attempt is on record either way, only a won roll moves the item |
| LiveCraft.NextToRefresh | v2/core-c/src/cosy_kernel.c:1638-1654 | The search for the least refreshable identifier above the last one |
| LiveCraft.PickRefresh | v2/core-c/src/cosy_kernel.c:1656-1704 | The picking loop of a rest |
| LiveCraft.RestUp | v2/core-c/src/cosy_kernel.c:1656-1704 | Rest in place |
| LiveCraft.CheckSlot | v2/core-c/src/cosy_kernel.c:2323-2373 | The validation of the output slot |
| LiveCraft.RemoveRecord | v2/core-c/src/cosy_kernel.c:113-126 | Compaction: the records behind the removed one move up |
| LiveCraft.CreateItem | v2/core-c/src/cosy_kernel.c:451-488 | The creation step with all its guards |
| LiveCraft.CraftItem | v2/core-c/src/cosy_kernel.c:2430-2541 | Craft in place: checks, disposal of inputs, creation of the output, evolution passes |
| LiveGates.FoldMethod | v2/core-c/src/cosy_kernel.c:222-300 | All predicates of one method in one loop: verdict, mask and digest, which `GateMeaning.EvaluationMeans` and `EvidenceMeaning.DigestMeans` spell out |
| LiveGates.ScanMethods | v2/core-c/src/cosy_kernel.c:669-760 | The scan over a gate's methods |
| LiveGates.EvaluateGate | v2/core-c/src/cosy_kernel.c:669-760 | The evaluation of a gate, with its argument checks, in place of the function that `GateMeaning.EvaluationMeans` spells out |
| LiveGates.DefineGate | v2/core-c/src/cosy_kernel.c:575-667 | Defining a gate in the flat tables, in place |
| LiveGates.Transition | v2/core-c/src/cosy_kernel.c:2019-2245 | The transition handler in place: its status, world and events are those of the rule that `TransitionMeaning.AppliedIff` and `GateMeaning.TransitionWritesState` spell out |
| LiveGates.Settle | v2/core-c/src/cosy_kernel.c:2164-2243 | The committed part of a transition: claim, state, item, events, revision, as `GateMeaning.TransitionWritesState` and `TransitionMeaning.AppliedDoes` spell out |
| LiveCombat.InsertAt | v2/core-c/src/cosy_kernel.c:2736-2750 | One insertion of the sort, in the array |
| LiveCombat.SortParticipants | v2/core-c/src/cosy_kernel.c:2736-2750 | The insertion sort of the participant array in place |
| LiveCombat.LocateNext | v2/core-c/src/cosy_kernel.c:2810-2818 | The search around the table for the next participant able to act |
| LiveCombat.EndTurn | v2/core-c/src/cosy_kernel.c:2778-2819 | Ending a turn in place: resolution or the next turn with its events |
| LiveCombat.RequireTurn | v2/core-c/src/cosy_kernel.c:2821-2846 | The shared opening of the handlers that take a turn |
| LiveCombat.Start | v2/core-c/src/cosy_kernel.c:2848-2935 | Starting an encounter in place |
| LiveCombat.Join | v2/core-c/src/cosy_kernel.c:2937-2997 | Joining in place: append, re-sort, relocate the index |
| LiveCombat.StrikeInTurn | v2/core-c/src/cosy_kernel.c:2999-3134 | An attack in turn order, in place; when it hits and whom it harms, `CombatMeaning.InTurnAttackMeans` spells out |
| LiveCombat.Dodge | v2/core-c/src/cosy_kernel.c:3136-3152 | Dodging in place |
| LiveCombat.PassTurn | v2/core-c/src/cosy_kernel.c:3154-3169 | Passing in place |
| LiveCombat.Abandon | v2/core-c/src/cosy_kernel.c:3171-3199 | Abandoning in place |
| LiveCombat.NeedTime | v2/core-c/src/cosy_kernel.c:3201-3215 | Asking for time in place |
| LiveCombat.Escape | v2/core-c/src/cosy_kernel.c:3217-3274 | Escaping in place |
| LiveActors.CreateAvatar | v2/core-c/src/cosy_kernel.c:983-1014 | Creating an actor in place |
| LiveActors.CompleteRescue | v2/core-c/src/cosy_kernel.c:1016-1084 | Completing a rescue in place |
| LiveActors.ReplaceRescuer | v2/core-c/src/cosy_kernel.c:1086-1154 | Replacing a fallen rescuer in place |
| LiveActors.Speak | v2/core-c/src/cosy_kernel.c:1221-1235 | Speech in place |
| LiveActors.PushProject | v2/core-c/src/cosy_kernel.c:1164-1219 | Pushing a project in place |
| LiveActors.RollCheck | v2/core-c/src/cosy_kernel.c:1356-1385 | An ability check in place |
| LiveActors.Discover | v2/core-c/src/cosy_kernel.c:1387-1416 | A discovery procedure in place |
| LiveActors.Travel | v2/core-c/src/cosy_kernel.c:1237-1354 | A move in place |
| LiveActors.RunAway | v2/core-c/src/cosy_kernel.c:2658-2722 | Flight in place |
| LiveActors.Unlock | v2/core-c/src/cosy_kernel.c:1943-1970 | Unlocking an exit in place |
| LiveActors.Guard | v2/core-c/src/cosy_kernel.c:2543-2557 | Defending outside combat, in place |
| LiveActors.AttackOnce | v2/core-c/src/cosy_kernel.c:2559-2656 | The unordered attack in place |
| NamingLaws.AcceptedConfigAlwaysNames | v2/ai-model-rust/src/lib.rs:268-387 | If the validator accepts a configuration, every actor identifier in every context gets a name, valid and of at most 28 characters; no arithmetic fault and no missing pool can occur |
| NamingLaws.EveryContextHasACulture | v2/ai-model-rust/src/lib.rs:389-407 | An accepted configuration has an accepted culture for every context; which one, `NamingMeaning.ChoosingMeans` says |
| NamingLaws.EveryIndexSpellsWell | v2/ai-model-rust/src/lib.rs:459-477 | Every index of every form of an accepted culture spells an acceptable name |
| NamingLaws.SameComponentsIff | v2/ai-model-rust/src/lib.rs:416-441 | Two actors of a culture get the same form and the same components if and only if they share a form and their sequence numbers are congruent modulo its space size |
| NamingSpelling.SameNameIff | v2/ai-model-rust/src/lib.rs:416-477 | Two actors of one form, whatever its pattern, bear the same name if and only if their components agree word by word |
| NamingSpelling.SpellingMeansWords | v2/ai-model-rust/src/lib.rs:578-590 | A pattern spells two selections alike if and only if it spells each of its words alike |
| NamingSpelling.TellsApartIff | v2/ai-model-rust/src/lib.rs:443-477 | The names of an accepted form coincide for congruent sequence numbers only, if and only if no two different selections from its pools agree in every word |
| NamingSpelling.CongruentNamesIff | v2/ai-model-rust/src/lib.rs:416-477 | In such a form two actors bear the same name if and only if their sequence numbers are congruent modulo its space size |
| NamingSpelling.EverySelectionIsReached | v2/ai-model-rust/src/lib.rs:459-477 | Every selection of one entry for each slot is what some index of the form selects |
| NamingSpelling.SeparatedSlotsAreUnambiguous | v2/ai-model-rust/src/lib.rs:578-590 | A form is such when no word of its pattern has more than one slot, whatever its pools |
| NamingSpelling.SpellingIsFaithful | v2/ai-model-rust/src/lib.rs:578-590 | Such a pattern spells two selections alike if and only if they agree on all its slots |
| NamingSpelling.SharedWordIsAmbiguous | v2/ai-model-rust/src/lib.rs:578-590 | Two slots in one word: a concrete pattern that spells different components alike |
| NamingLaws.PlacesAreFaithful | v2/ai-model-rust/src/lib.rs:416-441 | No two actor identifiers share both form and sequence number |
| NamingLaws.SequenceFits | v2/ai-model-rust/src/lib.rs:416-441 | A sequence number never exceeds the actor identifier, so its checked arithmetic never fails |
| NamingLaws.PermutedIsFaithful | v2/ai-model-rust/src/lib.rs:443-457 | Permuted indices agree exactly when the sequence numbers are congruent modulo the space |
| NamingLaws.SelectionIsFaithful | v2/ai-model-rust/src/lib.rs:459-477 | With distinct pool entries, below the space size equal selections mean equal indices |
| NamingLaws.SelectionIsDigits | v2/ai-model-rust/src/lib.rs:459-477 | The selection loop reads off mixed-radix digits, one per distinct placeholder |
| NamingLaws.SpaceIsProduct | v2/ai-model-rust/src/lib.rs:479-493 | The checked fold over placeholders is the product of the distinct pools' sizes |
| NumberTheory.GreatestCommonDivisor | v2/ai-model-rust/src/lib.rs:662-669 | Euclid's loop computes the greatest common divisor |
| NumberTheory.GcdIsGreatest | v2/ai-model-rust/src/lib.rs:662-669 | It divides both numbers and every common divisor divides it |
| NumberTheory.FindMultiplier | v2/ai-model-rust/src/lib.rs:443-457 | The search loop ends with a multiplier below the space and coprime to it |
| NumberTheory.PredecessorIsCoprime | v2/ai-model-rust/src/lib.rs:443-457 | Why the search ends: one less than the modulus is coprime to it |
| NumberTheory.AffineIsInjective | v2/ai-model-rust/src/lib.rs:443-457 | With a coprime multiplier two sequence numbers land on one index exactly when they are congruent |
| NumberTheory.AffineIsOnto | v2/ai-model-rust/src/lib.rs:443-457 | Every index is reached: the map permutes the space |
| MixedRadix.DigitsThenNumber | v2/ai-model-rust/src/lib.rs:459-477 | An index below the product of the radices is recovered from its digits |
| MixedRadix.NumberThenDigits | v2/ai-model-rust/src/lib.rs:459-477 | Digits within their radices are recovered from their number |
| NamingSchedule.OrderIsTotal | v2/ai-model-rust/src/lib.rs:495-517 | The schedule's comparison holds in exactly one direction, or the entries are equal |
| NamingSchedule.OrderIsTransitive | v2/ai-model-rust/src/lib.rs:495-517 | And it is transitive, cross-multiplied fractions included |
| NamingSchedule.ScheduleIsComplete | v2/ai-model-rust/src/lib.rs:495-517 | The schedule is strictly ordered and holds exactly every occurrence of every form |
| NamingSchedule.EachOccurrenceOnce | v2/ai-model-rust/src/lib.rs:495-517 | Each form and occurrence stands at one place only |
| NamingSchedule.OrderDeterminesArrangement | v2/ai-model-rust/src/lib.rs:495-517 | Whichever sorting algorithm is used, the result is this schedule |
| NamingSchedule.PrefixIsBalanced | v2/ai-model-rust/src/lib.rs:495-517 | Every prefix is balanced: a form already placed is never ahead of one still to come by more than half an occurrence of each |
| NamingSchedule.NextOccurrenceIsPlaced | v2/ai-model-rust/src/lib.rs:495-517 | An entry's occurrence number is the number of its form's entries before it |
| NamingSchedule.ScheduleLength | v2/ai-model-rust/src/lib.rs:495-517 | The cycle is as long as the weights add up to |
| NamingText.ParsedSpellsPattern | v2/ai-model-rust/src/lib.rs:519-550 | What the placeholder parser returns spells the pattern again |
| NamingText.WrittenParsesBack | v2/ai-model-rust/src/lib.rs:519-550 | Well-formed segments, written out, parse back to themselves |
| NamingText.ReadPlaceholders | v2/ai-model-rust/src/lib.rs:519-550 | The cursor loop collects exactly the placeholders of the parse, and fails exactly when there is none |
| NamingText.RenderIsFill | v2/ai-model-rust/src/lib.rs:578-590 | Replacing placeholders one after another in text already partly replaced is filling every slot in one pass |
| NamingText.RenderPattern | v2/ai-model-rust/src/lib.rs:578-590 | The rendering loop computes that |
| NamingValidity.FilledIsValidIff | v2/ai-model-rust/src/lib.rs:646-654 | Whether a filled pattern is a valid name does not depend on the components: it is valid exactly when the pattern is well spaced |
| NamingValidity.FilledLengthIsMonotone | v2/ai-model-rust/src/lib.rs:552-576 | Longer components never make a shorter name, so the longest rendering bounds all |
| NamingValidator.Validate | v2/ai-model-rust/src/lib.rs:268-387 | The validator's loops report the first error of the specification, or accept |
| NamingValidator.CheckForm | v2/ai-model-rust/src/lib.rs:325-370 | The check of one form: weight, pattern, pools, both extreme renderings, space |
| NamingValidator.CheckSelectors | v2/ai-model-rust/src/lib.rs:268-387 | The duplicate check by set size finds exactly the selectors that differ in case only |
| NamingValidator.SelectExtremes | v2/ai-model-rust/src/lib.rs:552-576 | The loop that selects the shortest or longest entry of every pool |
| Naming.SelectComponents | v2/ai-model-rust/src/lib.rs:459-477 | The selection loop: take a digit, divide it away |
| Naming.PermuteIndex | v2/ai-model-rust/src/lib.rs:443-457 | The permuted index, computed with both loops |
| PromptPacking.PromptEnvelope.RenderFor | v2/orchestrator-rust/src/ai_context.rs:332-435 | Rendering: two deduplicating loops sharing one set, the pinned segments, a greedy loop over the rest by priority, and the sort back, compute the specified prompt and telemetry |
| PromptPacking.Deduplicate | v2/orchestrator-rust/src/ai_context.rs:345-371 | The deduplicating loop keeps the first segment of every text and counts the tokens of the others |
| PromptPacking.TakeWhatFits | v2/orchestrator-rust/src/ai_context.rs:390-400 | The greedy loop |
| PromptPacking.PromptEnvelope.AddUser | v2/orchestrator-rust/src/ai_context.rs:292-309 | Blank texts are not added |
| PackingLaws.OutputIsSubsequence | v2/orchestrator-rust/src/ai_context.rs:345-405 | The user output is an order-preserving, duplicate-free part of the user list, without blanks, and repeats no system text |
| PackingLaws.PinnedSurvive | v2/orchestrator-rust/src/ai_context.rs:376-381 | A pinned segment is sent if and only if it is the first with its text, not blank, and not a system text |
| PackingLaws.SentIffItFits | v2/orchestrator-rust/src/ai_context.rs:386-401 | An optional segment is sent if and only if it fits beside the committed tokens and the optional ones sent that rank before it; so no dropped segment would have fitted there |
| PackingLaws.OverflowIff | v2/orchestrator-rust/src/ai_context.rs:382-433 | Overflow is reported if and only if the system and pinned tokens, as computed in 32 bits, exceed the budget, and then nothing else is sent; the report is right if and only if those tokens fit 32 bits or exceed the budget even wrapped |
| PackingLaws.EstimateIsExact | v2/orchestrator-rust/src/ai_context.rs:372-401 | The estimate is the sum over what is sent if and only if the system and pinned tokens fit 32 bits, the optional part being exact in any case; every candidate is sent or counted as dropped |
| PackingLaws.KindTokensAddUp | v2/orchestrator-rust/src/ai_context.rs:407-414 | The tokens reported per kind add up to the estimate modulo 2^32, and exactly when the committed tokens fit 32 bits |
| PackingLaws.ReplyHasRoom | v2/orchestrator-rust/src/ai_context.rs:337-342 | A prompt that does not overflow leaves the reply and the provider reserve their room in the context; in a context too small for those two it is one estimated token at most |
| PackingLaws.PackingIsStable | v2/orchestrator-rust/src/ai_context.rs:332-435 | Packing the output again under the same budget changes nothing and drops nothing |
| PackingLaws.FloodGoesUnnoticed | v2/orchestrator-rust/src/ai_context.rs:372-385 | A concrete prompt whose system texts come to 2^32 tokens and are estimated as none |
| PackingLaws.FreshAreTheFirst | v2/orchestrator-rust/src/ai_context.rs:345-371 | Deduplication keeps exactly the first segment of each text not seen before |
| PackingLaws.CommittedIsExact | v2/orchestrator-rust/src/ai_context.rs:372-385 | The committed tokens are their true sum modulo 2^32, hence exact if and only if they fit |
| PackingLaws.PackSpends | v2/orchestrator-rust/src/ai_context.rs:390-400 | The greedy loop never saturates: it adds exactly the tokens of what it keeps |
| Practice.Project | v2/orchestrator-rust/src/actor_practice.rs:170-240 | The projection as run: filter, sort, drain to the window, count in a loop, lead, compound |
| Practice.CountCategories | v2/orchestrator-rust/src/actor_practice.rs:191-194 | The counting loop |
| PracticeLaws.ProjectionIsIdempotent | v2/orchestrator-rust/src/actor_practice.rs:170-240 | Projecting twice over the same deeds is projecting once, update sequence included |
| PracticeLaws.OrderDoesNotMatter | v2/orchestrator-rust/src/actor_practice.rs:174-183 | With distinct (sequence, identifier) keys among the durable deeds, the order they are listed in does not matter |
| PracticeLaws.PrimaryIsReplacedIff | v2/orchestrator-rust/src/actor_practice.rs:203-214 | A settled projection replaces the primary if and only if it trails some category by three deeds, and then by the category with the most |
| PracticeLaws.FirstPrimaryLeads | v2/orchestrator-rust/src/actor_practice.rs:203-205 | A first primary is the category with the most deeds, the earlier category on a tie |
| PracticeLaws.LeadersAreRanked | v2/orchestrator-rust/src/actor_practice.rs:195-199 | The leaders are the practised categories, each once, by count and then by category |
| PracticeLaws.NoFlapping | v2/orchestrator-rust/src/actor_practice.rs:203-214 | A switch from p to q and a later switch back to p have at least three new durable deeds between them, in whatever order deeds arrive |
| PracticeLaws.SwitchesAreRare | v2/orchestrator-rust/src/actor_practice.rs:170-240 | Over any run, in whatever order deeds arrive, every switch of primary after the first costs at least two durable deeds |
| PracticeLaws.BatchMovesLead | v2/orchestrator-rust/src/actor_practice.rs:174-194 | However the new deeds sort among the old, each durable one changes the lead of one category over another in the window by two at most |
| PracticeLaws.ChronicleGrows | v2/orchestrator-rust/src/actor_practice.rs:174-183 | Deeds appended in order go to the end of the sorted list |
| JobLaws.AttemptsAreGrantedOnce | v2/orchestrator-rust/src/actor_jobs.rs:170-198 | With any number of workers interleaving selections and conditional updates, deferrals and unfenced writes, a later grant of a job has a higher attempt number than an earlier one if and only if the earlier one is not the largest 64-bit number |
| JobLaws.LargestAttemptRepeats | v2/orchestrator-rust/src/actor_jobs.rs:170-171 | That exception is reachable: a run from the empty table in which the largest number is granted twice |
| JobLaws.SameNumberToldIff | v2/orchestrator-rust/src/actor_jobs.rs:199-211 | The worker is told the attempt cut to 32 bits: two grants are told the same number if and only if their attempts differ by a multiple of 2^32 |
| JobLaws.AttemptsNeverDecrease | v2/orchestrator-rust/src/actor_jobs.rs:62-211 | Over every run no row disappears, its identity and payload stay, and its attempt count never decreases |
| JobLaws.RunKeepsSound | v2/orchestrator-rust/src/actor_jobs.rs:62-211 | Over every run row identifiers and dedupe keys stay distinct, grants stay recorded and fenced |
| JobLaws.StalePickIsRefused | v2/orchestrator-rust/src/actor_jobs.rs:172-196 | A worker whose selected row has been granted to another since gets nothing and changes nothing |
| JobLeases.ClaimableAgainIff | v2/orchestrator-rust/src/actor_jobs.rs:172-196 | A row that cannot be claimed at some time becomes claimable then, other than by a worker's own update of it, if and only if the step is a failure report with attempts left or a requeue that names it, effective by that time |
| JobLeases.LeaseIsRespectedIff | v2/orchestrator-rust/src/actor_jobs.rs:172-196 | Over any run a lease bars the row until its time is up if and only if no such write returns the row for an earlier time, and while it does nobody is granted the job; a row no write names is not touched at all |
| JobLeases.TerminalRowsStayIff | v2/orchestrator-rust/src/actor_jobs.rs:72-92 | Over any run a completed or dead row is never claimable again if and only if no such write names it, and then it is never granted |
| JobLeases.GrantedIffSelected | v2/orchestrator-rust/src/actor_jobs.rs:62-211 | A worker that reads and then writes undisturbed is granted the job if and only if its row is the one selected and can be read back |
| JobLeases.ReleaseLeadsToGrant | v2/orchestrator-rust/src/actor_jobs.rs:273-343 | After such a write any job, whatever its row was, is granted once more to the next worker that finds the row unblocked and no other claimable one sooner |
| JobLeases.GrantedUnderALease | v2/orchestrator-rust/src/actor_jobs.rs:273-304 | A run from the empty table in which a late failure report lets a third worker be granted a job leased to the second |
| JobLeases.GrantedAfterCompletion | v2/orchestrator-rust/src/actor_jobs.rs:273-304 | And one in which it lets a completed job be granted again |
| JobExclusivity.ClaimsAreExclusive | v2/orchestrator-rust/src/actor_jobs.rs:72-196 | While each worker selects and updates in one step and the clock does not go back, no actor ever has two unexpired leases of one kind |
| JobExclusivity.ClaimKeepsExclusiveIff | v2/orchestrator-rust/src/actor_jobs.rs:172-196 | A single claim, read earlier and written now, keeps that exclusivity exactly when the row it takes is not blocked now, or its lease is over already |
| JobExclusivity.ExclusiveIffNeverBlocked | v2/orchestrator-rust/src/actor_jobs.rs:72-196 | Over any interleaving whose clock does not go back, exclusivity holds throughout if and only if no update ever takes a row blocked at that moment for a lease not over yet |
| JobExclusivity.InterleavingBreaksExclusivity | v2/orchestrator-rust/src/actor_jobs.rs:72-196 | A run from the empty table in which two workers, both reading before either writes, get unexpired leases of one actor and kind |
| JobLaws.SelectedIsSoonest | v2/orchestrator-rust/src/actor_jobs.rs:72-92 | The selected row is the eligible one of least source tick, then identifier |
| JobLaws.BackoffDoubles | v2/orchestrator-rust/src/actor_jobs.rs:280-283 | The wait doubles from a quarter of a second to eight seconds; a floor only lengthens it |
| ActorJobs.SelectedIsEligible | v2/orchestrator-rust/src/actor_jobs.rs:72-92 | The selected row is claimable and unblocked; nothing is selected only if no row is eligible |
| ActorJobs.JobTable.ClaimNext | v2/orchestrator-rust/src/actor_jobs.rs:62-211 | Run without interruption, a claim grants or defers exactly the selected row |
| ActorJobs.JobTable.TryClaim | v2/orchestrator-rust/src/actor_jobs.rs:172-196 | The conditional update, and whether it took a row |
| ActorJobs.JobTable.TryDefer | v2/orchestrator-rust/src/actor_jobs.rs:134-169 | The conditional deferral of an unreadable payload |
| ActorJobs.JobTable.FailOrRetry | v2/orchestrator-rust/src/actor_jobs.rs:273-304 | Failure by identifier: back to the queue after the backoff, or dead after the third attempt |
| ActorJobs.JobTable.Requeue | v2/orchestrator-rust/src/actor_jobs.rs:318-343 | Requeue by identifier |
| ActorJobs.JobTable.Bury | v2/orchestrator-rust/src/actor_jobs.rs:259-269 | The terminal write of a permanently unavailable route |
| GateMeaning.HoldsMeans | v2/core-c/src/cosy_kernel.c:222-300 | Each of the six predicate kinds holds exactly when it is met over the tables: an item of that name held by the actor, a held item whose first fact of that name has the value, an item installed at the place, enough charges, or the first fact about the actor or the subject; no item marked inert counts |
| GateMeaning.EvaluationMeans | v2/core-c/src/cosy_kernel.c:669-760 | A gate evaluates to the state it has for the actor; open and broken admit, and a closed one admits an active actor if and only if some method of it, the first of the wanted name when one is asked for, has every predicate met over the tables; the decision names that method and shows which predicates are met |
| GateMeaning.UndecidedMeans | v2/core-c/src/cosy_kernel.c:669-703 | When an evaluation decides nothing, and what is told then |
| GateMeaning.TransitionWritesState | v2/core-c/src/cosy_kernel.c:1980-2017 | An applied transition leaves its gate open, closed, broken or closed for codes one to four and as it was for the others: for everybody, or for its own actor alone when the gate keeps a state for each actor; every other state of every gate stays |
| GateMeaning.OnlyTransitionsWriteStates | v2/core-c/src/cosy_kernel.c:1990-2017 | A call that applies no transition leaves every state of every gate |
| GateMeaning.OnlyAMethodOpens | v2/core-c/src/cosy_kernel.c:2049-2081 | A call takes a gate out of its closed state, for anybody, only by opening or breaking it, and only when the evaluation before it admitted the call's own actor through the method the call names |
| GateMeaning.TransitionRaisesVersions | v2/core-c/src/cosy_kernel.c:1990-2017 | An applied transition that writes a state gives its gate the next version, and the actor's own record the next or the first; no other version changes |
| GateMeaning.AppliedIsEvaluated | v2/core-c/src/cosy_kernel.c:2164-2186 | After an applied opening or breaking the gate evaluates as open or broken and lets its actor through whatever the facts and method; after a closing or relocking it evaluates as closed |
| TransitionMeaning.AppliedIff | v2/core-c/src/cosy_kernel.c:2019-2186 | A call applies its transition if and only if its actor is not barred by combat and is active, gate and claim are named and the claim is new, the offer it brings is the evaluation of this world and admits through its method where one is needed, the check is well asked for and passed where it must be, the state would change, the item suits, and there is room |
| TransitionMeaning.AppliedDoes | v2/core-c/src/cosy_kernel.c:2164-2245 | What an applied transition does besides: the claim is appended, the item is installed, removed, exhausted or rendered inert by the code, and the events are those of the check, the transition and the item |
| TransitionMeaning.FailedAttempt | v2/core-c/src/cosy_kernel.c:2103-2118 | The only other success under a new claim is a failed check of the first resolution: the claim is spent as failed and nothing else changes but the revision |
| DefinitionMeaning.DefiningIff | v2/core-c/src/cosy_kernel.c:575-640 | A gate definition is accepted if and only if its fields and methods are well formed, it is bound to an exit or item there is, answers only for a lock that is on, is no earlier than the version it replaces, and has room |
| DefinitionMeaning.DefiningMeans | v2/core-c/src/cosy_kernel.c:640-667 | An accepted definition writes its gate with the stretch of the method table appended for it and a new revision, and nothing else; one that is refused writes nothing |
| DefinitionMeaning.DefinitionRefused | v2/core-c/src/cosy_kernel.c:575-640 | A definition that is not accepted is told the first thing wrong with it |
| EvidenceMeaning.DigestMeans | v2/core-c/src/cosy_kernel.c:193-300 | The digest of every decided evaluation is the hash of the gate, the revision, the actor and, method by method as they are tried, each predicate with what was seen and its verdict |
| EvidenceMeaning.OtherEvidenceIsStale | v2/core-c/src/cosy_kernel.c:2049-2062 | When the facts a call brings change what one predicate of its method saw, though not its verdict, an offer made on the former facts is not current any more |
| BitsMeaning.XorMeans | v2/core-c/src/cosy_kernel.c:193-197 | A bit of the exclusive or is set where exactly one of the two numbers has it |
| BitsMeaning.FoldTellsApart | v2/core-c/src/cosy_kernel.c:193-197 | Two lists of words that differ in exactly one place have different hashes |
| BitsMeaning.RotationMeans | v2/ai-model-rust/src/lib.rs:443-457 | The rotation puts the 23 highest bits of a word below its 41 lowest |
| BitsMeaning.EncodingReadsBack | v2/ai-model-rust/src/lib.rs:656-660 | The bytes a text is hashed by are well formed and can be read back, character by character |
| CallMeaning.CallMeans | v2/core-c/src/cosy_kernel.c:3276-3454 | Every call is answered from the ledger, barred by combat, or decided by the rule of its kind in the world with its clock moved, with the revision raised on success |
| CallMeaning.BarredMeans | v2/core-c/src/cosy_kernel.c:3299-3317 | Combat bars an actor who stands unescaped in an active encounter from every kind of action but ten |
| CallMeaning.InTurnCallMeans | v2/core-c/src/cosy_kernel.c:2999-3134 | A call to attack in turn order succeeds if and only if its actor holds the turn and the target and weapon suit; a twenty hits, a one misses, else die, ability and proficiency must reach ten and the target's dexterity; a hit harms its target by dice and ability, never below zero, or knocks it out if and only if that is positive and takes its hit points; a miss harms nobody, and nobody else is harmed |
| CallMeaning.KeyMeans | v2/core-c/src/cosy_kernel.c:222-238 | A closed gate whose one method asks for a key lets an active actor in if and only if that actor holds it |
| CallMeaning.KeyDecides | v2/core-c/src/cosy_kernel.c:1418-1505 | Whoever picks up the key may pass such a gate in the world the call leaves, and whoever drops it may not |
| CombatMeaning.TurnMeans | v2/core-c/src/cosy_kernel.c:2821-2846 | Who may take a turn: an able participant of the encounter named, or of the actor's own, that holds its turn |
| CombatMeaning.InTurnAttackMeans | v2/core-c/src/cosy_kernel.c:2999-3134 | The same of the rule itself, strength and finesse attack alike |
| CombatMeaning.RollMeans | v2/core-c/src/cosy_kernel.c:12-27 | A roll with advantage is the better of two draws and with disadvantage the worse |
| CombatMeaning.AbilityModifierMeans | v2/core-c/src/cosy_kernel.c:29-34 | An ability modifier is half the distance from ten, rounded down |
| EncounterMeaning.OutsideAttackMeans | v2/core-c/src/cosy_kernel.c:2559-2656 | When the unordered attack is accepted, when it hits, and what it does to everybody |
| EncounterMeaning.DefendMeans | v2/core-c/src/cosy_kernel.c:2543-2557 | Defending is accepted of any active actor, and raises its guard |
| EncounterMeaning.WaitingMeans | v2/core-c/src/cosy_kernel.c:3136-3215 | Dodging, passing and asking for time need the turn and nothing else; the first two end it |
| EncounterMeaning.EndingMeans | v2/core-c/src/cosy_kernel.c:2778-2819 | The end of a turn: the encounter is over if a side has nobody able left; else the next able seat around the table has the turn, no seat skipped, the round rises when that comes no later in the list, and its holder stops dodging |
| EncounterMeaning.StartingIff | v2/core-c/src/cosy_kernel.c:2848-2907 | When a fight can be started: two active actors face to face where fighting is allowed, neither in a fight, and a slot |
| EncounterMeaning.StartingMeans | v2/core-c/src/cosy_kernel.c:2887-2935 | The encounter that is opened: both on their sides with their initiatives, the higher first, and the first to act not dodging |
| EncounterMeaning.JoiningIff | v2/core-c/src/cosy_kernel.c:2937-2956 | Who may join a fight |
| EncounterMeaning.JoiningMeans | v2/core-c/src/cosy_kernel.c:2957-2997 | A newcomer is added in initiative order while the turn stays with its holder; somebody listed already changes nothing |
| EncounterMeaning.AbandoningMeans | v2/core-c/src/cosy_kernel.c:3175-3199 | Any listed actor may abandon an active encounter: it is resolved, and nobody of it dodges any more |
| EncounterMeaning.EscapingMeans | v2/core-c/src/cosy_kernel.c:3217-3274 | Escaping needs the turn and a legal crossing, moves and marks the actor, and ends the turn |
| ItemMeaning.EvolvingMeans | v2/core-c/src/cosy_kernel.c:1761-1803 | Exactly the active actors not evolved yet with a complete track evolve, to the second level and with two more hit points; nobody else changes |
| ItemMeaning.EvolvingIsTold | v2/core-c/src/cosy_kernel.c:1782-1803 | The events tell of exactly those who evolve |
| ItemMeaning.PickingUpMeans | v2/core-c/src/cosy_kernel.c:1418-1474 | When a pick-up succeeds: the item lies loose here and fits, on its own or in exchange for the held item named; it is then in hand, and the other one, if it was needed, lies here |
| ItemMeaning.DroppingMeans | v2/core-c/src/cosy_kernel.c:1476-1505 | When a drop succeeds, and where the item then lies |
| ItemMeaning.GivingMeans | v2/core-c/src/cosy_kernel.c:1805-1857 | When a gift succeeds, with or without something in return, and who then holds what |
| ItemMeaning.TradingMeans | v2/core-c/src/cosy_kernel.c:1859-1908 | When a trade succeeds, and who then holds what |
| ItemMeaning.SearchingMeans | v2/core-c/src/cosy_kernel.c:1910-1941 | Searching finds a hidden item where the actor stands |
| ItemMeaning.RevealingMeans | v2/core-c/src/cosy_kernel.c:2247-2278 | Revealing lays a hidden item at a place where nothing lies loose |
| ItemMeaning.UsingMeans | v2/core-c/src/cosy_kernel.c:1507-1552 | A charged potion in hand heals ten points of somebody here who is hurt or not active, none below zero, raises somebody knocked out who then has hit points, and loses the charge |
| ItemMeaning.UtilisingMeans | v2/core-c/src/cosy_kernel.c:1554-1574 | Utilising needs a charged item in hand and changes nothing |
| ItemMeaning.CastingMeans | v2/core-c/src/cosy_kernel.c:1576-1604 | A charged spell in the deck is cast on somebody active here and loses the charge |
| ItemMeaning.StealingMeans | v2/core-c/src/cosy_kernel.c:1706-1759 | When a theft can be tried, when it succeeds, and what it moves |
| CraftMeaning.CraftingIff | v2/core-c/src/cosy_kernel.c:2323-2470 | Which crafts are accepted: an active crafter, inputs that suit the recipe, and an output that is well described, new, has room once the inputs are gone, and goes to somebody active who can bear it or to a place there is |
| CraftMeaning.CraftingMeans | v2/core-c/src/cosy_kernel.c:2411-2541 | What a craft leaves: inputs removed or exhausted by their dispositions, the output with its defaults in the hand, on the floor or installed, evolution, and every event in order |
| CraftMeaning.RestingMeans | v2/core-c/src/cosy_kernel.c:1606-1704 | A rest is accepted of an active actor entitled to its grade whose events fit the buffer, and restores exactly the used-up items its grade heeds, the least one alone at camp, each to its full charges and former zone |
| ActorMeaning.CreatingMeans | v2/core-c/src/cosy_kernel.c:983-1014 | When an actor is created, and how it is born |
| ActorMeaning.RescuingMeans | v2/core-c/src/cosy_kernel.c:1016-1084 | A rescue spends a charge of the rescuer's own potion on somebody knocked out here, who rises unhurt; the one chosen of the two is the human from now on |
| ActorMeaning.ReplacingMeans | v2/core-c/src/cosy_kernel.c:1086-1154 | When a rescuer is replaced, who dies, who is born, and which potion is used up |
| ActorMeaning.SpeakingMeans | v2/core-c/src/cosy_kernel.c:1221-1235 | Anybody active may speak, which changes nothing |
| ActorMeaning.CheckingMeans | v2/core-c/src/cosy_kernel.c:1356-1385 | A check tells whether die, ability and modifier reach the difficulty, ten if none is given |
| ActorMeaning.DiscoveringMeans | v2/core-c/src/cosy_kernel.c:1387-1416 | A discovery is made where its actor stands, with a check if it is difficult |
| ActorMeaning.PushingMeans | v2/core-c/src/cosy_kernel.c:1164-1219 | A push earns its base and preparation, but no more than remains |
| ActorMeaning.MovingMeans | v2/core-c/src/cosy_kernel.c:1237-1354 | A move succeeds if and only if it leads elsewhere along a legal crossing, and then moves its actor there and nothing else |
| ActorMeaning.FleeingMeans | v2/core-c/src/cosy_kernel.c:2658-2722 | Fleeing is moving away from where fighting is allowed, off guard and in sight |
| ActorMeaning.UnlockingMeans | v2/core-c/src/cosy_kernel.c:1943-1970 | Unlocking needs a locked exit with no gate of its own, and takes the lock off |
| RefusalMeaning.PickUpRefused | v2/core-c/src/cosy_kernel.c:1418-1441 | A refused pick-up is told the first thing wrong with it, and changes nothing |
| RefusalMeaning.DropRefused | v2/core-c/src/cosy_kernel.c:1476-1489 | The same of a drop |
| RefusalMeaning.GiveRefused | v2/core-c/src/cosy_kernel.c:1805-1832 | The same of a gift |
| RefusalMeaning.TradeRefused | v2/core-c/src/cosy_kernel.c:1859-1886 | The same of a trade |
| RefusalMeaning.SearchRefused | v2/core-c/src/cosy_kernel.c:1910-1924 | The same of a search |
| RefusalMeaning.RevealRefused | v2/core-c/src/cosy_kernel.c:2247-2264 | The same of a reveal |
| RefusalMeaning.UseRefused | v2/core-c/src/cosy_kernel.c:1507-1540 | The same of the use of a potion |
| RefusalMeaning.UtiliseRefused | v2/core-c/src/cosy_kernel.c:1554-1565 | The same of utilising |
| RefusalMeaning.CastRefused | v2/core-c/src/cosy_kernel.c:1576-1593 | The same of a spell |
| RefusalMeaning.TheftRefused | v2/core-c/src/cosy_kernel.c:1706-1726 | The same of a theft |
| RefusalMeaning.CraftRefused | v2/core-c/src/cosy_kernel.c:2323-2470 | The same of a craft; a full table is told by the status |
| RefusalMeaning.RestRefused | v2/core-c/src/cosy_kernel.c:1656-1670 | The same of a rest |
| RefusalMeaning.TurnRefused | v2/core-c/src/cosy_kernel.c:2821-2846 | What is told of a turn that cannot be taken, by each of the five calls that take one |
| RefusalMeaning.StrikeRefused | v2/core-c/src/cosy_kernel.c:2999-3030 | What is told of an attack in turn order on the wrong target or with the wrong weapon |
| RefusalMeaning.StartRefused | v2/core-c/src/cosy_kernel.c:2848-2890 | What is told of a fight that cannot be started |
| RefusalMeaning.JoinRefused | v2/core-c/src/cosy_kernel.c:2937-2956 | What is told of a fight that cannot be joined |
| RefusalMeaning.AbandonRefused | v2/core-c/src/cosy_kernel.c:3175-3184 | What is told of a fight that cannot be abandoned |
| RefusalMeaning.MoveRefused | v2/core-c/src/cosy_kernel.c:1237-1343 | What is told of a blocked move: no place, no exit, an offer that is not current, a gate that does not admit, or a lock |
| RefusalMeaning.FleeRefused | v2/core-c/src/cosy_kernel.c:2658-2705 | The same of a flight |
| RefusalMeaning.EscapeRefused | v2/core-c/src/cosy_kernel.c:3217-3254 | The same of an escape |
| RefusalMeaning.UnlockRefused | v2/core-c/src/cosy_kernel.c:1943-1958 | What is told of an exit that cannot be unlocked |
| RefusalMeaning.AttackRefused | v2/core-c/src/cosy_kernel.c:2559-2574 | What is told of an unordered attack |
| RefusalMeaning.CreationRefused | v2/core-c/src/cosy_kernel.c:983-996 | What is told of an actor that cannot be created |
| RefusalMeaning.RescueRefused | v2/core-c/src/cosy_kernel.c:1016-1043 | What is told of a rescue |
| RefusalMeaning.ReplacementRefused | v2/core-c/src/cosy_kernel.c:1086-1122 | What is told of a replacement |
| RefusalMeaning.WordsRefused | v2/core-c/src/cosy_kernel.c:1156-1416 | What is told of speech, defence, pushes, checks and discoveries |
| RefusalMeaning.TransitionRefused | v2/core-c/src/cosy_kernel.c:2019-2171 | A refused transition is told what was wrong before its check, or after it with the check's own event first |
| OfferMeaning.OffersMean | v2/core-c/src/cosy_kernel.c:3483-3600 | The exact offer, flag by flag over the tables: nothing to somebody inactive, to an able fighter attack and defence on its turn and flight if there is a way out, and to everybody else chat and check always and each other option exactly when things and people around allow it |
| OfferMeaning.LettingThroughMeans | v2/core-c/src/cosy_kernel.c:3460-3481 | An exit counts as a way out when it is unlocked, or when its first gate evaluates to allowed without facts and answers for its lock |
| OfferMeaning.HandlingWasOffered | v2/core-c/src/cosy_kernel.c:3573-3597 | What is given, traded, drunk or cast outside a fight was on offer |
| NamingMeaning.ChoosingMeans | v2/ai-model-rust/src/lib.rs:389-407 | A context gets the last of the fitting cultures that ask for the most, a culture fitting when it asks for something and the context has all it asks for; if none fits, or without a context, it gets the default |
| NamingMeaning.AcceptedIff | v2/ai-model-rust/src/lib.rs:268-387 | The configurations that are accepted, every bound and alphabet written out; a form is accepted exactly when every choice of components spells a good name and the names can be counted |
| NamingMeaning.FormMeans | v2/ai-model-rust/src/lib.rs:325-370 | A form passes the check of its two extreme renderings exactly when every choice of components out of its pools spells a good name |
| NamingMeaning.CountingMeans | v2/ai-model-rust/src/lib.rs:479-493 | The fold over the placeholders overflows exactly when the product of the distinct pools' sizes does |
| NamingMeaning.ConfigRefused | v2/ai-model-rust/src/lib.rs:268-387 | What is told of a configuration that is not accepted: the first thing wrong with it |
| NamingMeaning.CultureRefused | v2/ai-model-rust/src/lib.rs:268-387 | The same of a culture |
| NamingMeaning.FormRefused | v2/ai-model-rust/src/lib.rs:325-370 | The same of a form |
| NamingMeaning.OrderMeans | v2/ai-model-rust/src/lib.rs:495-517 | The schedule's order compares the midpoints of the occurrences' shares as fractions, the earlier form first at the same point |
| NamingMeaning.NameMeans | v2/ai-model-rust/src/lib.rs:416-477 | The name an accepted configuration gives an actor: its turn in the schedule, how many names of that form come before, where the least coprime multiplier and the offset made from the form's hash put that number, and the components that are its digits |
| PracticeMeaning.WindowMeans | v2/orchestrator-rust/src/actor_practice.rs:172-180 | The deeds that count: the latest durable ones in order of event and identifier, sixteen at most |
| PracticeMeaning.ProjectionMeans | v2/orchestrator-rust/src/actor_practice.rs:168-236 | The projected state: unchanged without five deeds on three targets; else the primary, the secondary if and only if some category accompanies the primary and then the one that tops the others, and a new date exactly when either has changed |
| JobMeaning.SelectionMeans | v2/orchestrator-rust/src/actor_jobs.rs:72-92 | A worker gets a row that is ready and has no rival, of the kind it asks for if it does, of the earliest tick and lowest identifier, and none only if no such row is there |
| JobMeaning.GrantsAreOfTheKindAskedFor | v2/orchestrator-rust/src/actor_jobs.rs:54-210 | Whatever happens between a worker's read for a kind and its write, the write grants it a row of that kind or nothing |
| JobMeaning.ClaimsMean | v2/orchestrator-rust/src/actor_jobs.rs:134-196 | A claim runs, and a deferral puts off, exactly the row that is still as it was read, and changes nothing else |
| JobMeaning.FailuresMean | v2/orchestrator-rust/src/actor_jobs.rs:273-343 | A failure sends its row back to wait or, from the third attempt on, buries it; a requeue sends it back; the wait and its end are written out |
| JobMeaning.EndingsMean | v2/orchestrator-rust/src/actor_jobs.rs:259-269 | A burial and a completion end their row and no other |
| JobMeaning.TellingMeans | v2/orchestrator-rust/src/actor_jobs.rs:171-206 | The worker is told the last 32 bits of the attempt's number |
| PromptMeaning.RenderingMeans | v2/orchestrator-rust/src/ai_context.rs:332-436 | The rendered prompt: the system texts and the sent segments, each once and trimmed, a line each, and every number of the telemetry |
| PromptMeaning.SendingMeans | v2/orchestrator-rust/src/ai_context.rs:384-412 | Exactly these are sent: of the segments that stand out the pinned ones, and each other one that fits beside what is fixed and what is sent ahead of it |
| PromptMeaning.TokensMean | v2/orchestrator-rust/src/ai_context.rs:443-445 | One token for every four characters begun, and one at least, up to the 32-bit edge of the length |
| PromptMeaning.BudgetMeans | v2/orchestrator-rust/src/ai_context.rs:337-343 | What the context leaves after the reply and the reserve, and one token at least |

## Left out

- Event decoration: an event is its number and its kind (with the outcome of a roll); the descriptive fields beside them do not influence any rule.
- Set-up calls: `cw_world_set_item_profile`, `cw_world_set_item_recovery_profile`, `cw_world_set_item_zone`, `cw_world_set_evolution_track` and the seed data; worlds start from any well-formed state instead.
- Randomness: the mixing of seeds is a parameter, so nothing is said about the distribution of rolls or of names.
- Null arguments of the C interface: `Apply` and `ListOffers` take objects; only the event buffer may be absent.
- Identifiers and byte-sized codes from callers are natural numbers; their C width is not modelled.
- Contents of a moved container: the kernel does not move them, and nothing is claimed about them.
- Library routines: `memmove`, `sort_by`, `sort_by_key` and `str::replace` are modelled by what they compute, not by their own loops; the kernel's hand-written insertion sort is modelled as a loop.
- Schedule scores: the products compared by the schedule's order are natural numbers; their 32-bit width cannot be reached with accepted weights.
- Validator messages: errors are kinds, without their texts; of several errors in one pool the model reports one kind where the source words two.
- Name sanitizing, fallback names and blocklists: word lists.
- Evidence authorisation and the building of prompts from room memory: one predicate over the fields of an item, and I/O.
- Practice views, epithets and evidence texts: labels.
- Job payload contents, error texts and timestamps: a payload is its text and whether it can be read back.
- Resets: `reset_event_store` (lines 30218-30252 of `v2/orchestrator-rust/src/main.rs`) deletes all rows of the job table together with everything else; runs of the job table are between two resets, and every law about them is.
- SQLite: each statement is taken to be atomic, and its clock argument arbitrary unless a law says otherwise; the transactions and retries of the database are not part of this model.
- Circuit breakers, activation statistics, interaction profiles, HTTP handlers and the cloud functions: I/O, configuration or near one-branch readings.
