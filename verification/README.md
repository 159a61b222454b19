# Models of NovaClaw's controllers, scanners and schedulers

This project models the parts of NovaClaw that decide things, and proves what they promise.

- **Capability services.** `CapabilityServiceGovernor` is the controller that admits requests, queues
  them and evicts idle neighbours; `GovernorRuns` is what it keeps over whole runs, and
  `FixedDeclarations` what it keeps besides when its callers always present the same declarations.
  `EvictionGuards` reads off a state whom a request would evict, and `GovernorInNumbers` tells its
  answers from bytes, times and queue lengths alone. `CapabilityServiceRuntime` is the
  driver that keeps one waiting caller per request; `RuntimeCoupling` proves that its callers and the
  governor's requests part only on a late acknowledgement, which `LateAcknowledgement` shows to happen;
  `StrandedServices` and `StrandingGuards` prove which services the driver evicts and then never stops,
  and `StrandingRun` runs a new driver into it. `Declarations` proves which declaration a request is run
  on, and `DriverOutcomes` what a step gets done. `ServedCalls` are the ordinary calls of these runs.
- **Chain of command.** `ChainOfCommand` resolves arbitrary reporting lines into a tree and derives
  who is paused; `ReportingPaths` tells the same from the paths in the roster.
- **JSON text.** `JsonText` is a document tree with its layout and its printer (RFC 8259 sections 2,
  4, 5 and 7, with the comments of JSONC). `DuplicateKeys` and `KeyComparison` are the scanner for
  repeated keys, `CutOffText` what it reports of a document cut short, `TrailingCommas`
  the scan that makes a lock file strict JSON.
- **The test pool.** `MemoryPlan` and `RunSchedule` decide how a unit is run, in what order, and what
  may run beside it; `TestPool` is the pool and `PoolLoop` the loop that drains it.
- **Session catalogues.** `SessionCatalogues` is what saving, removing and copying recipes does;
  `CatalogueLocks` is the lock protocol under which they run at once.
- **Two numeric cores.** `PeakSampler` attributes sampled memory to a window; `Affective` is the
  homeostat behind sampling and interventions.

`Ordering` and `Wrappers` are shared. Code that updates state in place is a class or a method with
the loops the program has, proved equal to a function of the old state; the theorems are about those
functions. Every public operation of the governor and of the driver is such a method; the table names
the ones with loops and branches of their own. Where a program calls out (a worker, the host's memory,
the clock), what comes back is a parameter.

## What the code does not do

Some statements one would expect are false of the code. Each is kept, with the exact condition under
which the code meets it and an input at which it does not.

- Submitting again a request that is still waiting can make it active and queued at once. Every
  operation keeps the joint invariant if and only if it is not that one
  (`GovernorRuns.StepKeepsSound`; `GovernorRuns.ResubmittingAWaitingRequestBreaksIt`). The driver
  never does it, because it looks the request up first.
- `stopped` for a service with an active request loses that request; conservation holds exactly when
  neither happens (`GovernorRuns.StepConserves`; `GovernorRuns.StoppingAnActiveServiceLosesIt`).
- A run acknowledgement that arrives after its request lost its place acknowledges another request or
  drops a waiter. The coupling survives a step exactly when its acknowledgement is timely
  (`RuntimeCoupling.StepKeepsCoupling`). A call, its cancelation and the same call again bring a new
  driver to a late one (`LateAcknowledgement.ACanceledRunAnswersLate`).
- `prepare` asks the governor a second time after stopping the first victims, and never stops what
  that second answer evicts. It evicts something exactly when the request would have to wait on the
  first reading and all candidates together make room, and on the second reading still has to wait and
  all candidates left make room (`StrandingGuards.StrandsExactlyWhen`). After a call, a turn of a pump,
  a whole pump and any run, what is unloading is exactly what was and what was stranded so, less what
  was reported to have failed since (`CallStrandsExactly`, `TurnStrandsExactly`, `PumpStrandsExactly`,
  `RunStrandsExactly` there). It happens to a new driver at its third call
  (`StrandingRun.StrandingHappens`).
- The duplicate-key scanner compares keys with their backslashes dropped. Of documents whose keys use
  no escape but those that stand for themselves it reports exactly JSON's repeats
  (`KeyComparison.PlainKeysAreReportedAsJson`). With any other escape in a key k, the scanner and JSON
  disagree on an object of k and the plain spelling of k's name: beside plain keys they agree on k if
  and only if k is plain (`AgreesWithPlainKeysExactly`, `OtherEscapesDisagree` there). So `"a"` against
  `"\u0061"` is missed and `"n"` against `"\n"` reported; two keys with other escapes may compare alike
  all the same, as `"\n"` and `"\t"` do (`TwoOtherEscapesMayAgree`).
- The scanner takes a string for a key only if a colon follows after white space alone. A key with a
  comment before its colon declares nothing and names nothing in a path; the second of two equal keys
  is reported exactly when no comment stands there (`KeyComparison.PairReports`).
- A file that does not parse is not to be overwritten, says its reader; a copy onto it overwrites it,
  and nothing else does (`SessionCatalogues.TornStaysTornExactly`; `ACopyOverwritesATornFile` there).
- The pool's abort on an empty pool is called unreachable. The loop ends in it exactly when its check
  finds the pool emptied in the same turn by a unit that left, with nothing started since
  (`PoolLoop.TheCheckFailsOnlyAfterALeave`). The leave may come after the refusal before the check, with
  nothing left to do (`PoolLoop.AFinishedRunAborts`) or a job still queued (`AQueueIsAbandoned`), or
  already before that refusal (`ItIsEmptyBeforeTheRefusal`).
- Penalties are said never to fall below the baseline. What is returned never does, in any mood in
  range, if and only if the baseline is at most 2 and is not lowered by rounding to three places
  (`Affective.PenaltiesRiseExactly`). 1.0004 comes back as 1 (`Affective.RoundingLowersAPenalty`) and
  2.5 as 2 (`Affective.TheScaleLowersAPenalty`).
- A plan is whole exactly when its reservation fits the pool's budget, except for a unit with a peak
  of zero on a reading below the slack (`RunSchedule.WholeExactlyWhenTheReservationFits`;
  `RunSchedule.ANothingFitsButIsRefused`).

## Model

| member | source | states |
|---|---|---|
| Ordering.StableSortIsStable | packages/core/src/capability-service-governor.ts:78-80 | the sort used throughout is a sorted rearrangement that keeps the order of what the comparator ties |
| Ordering.StableSortIsUnique | script/lib/run-schedule.ts:207-221 | two sorted sequences with the same groups of ties are equal: a stable sort has one result |
| CapabilityServiceGovernor.VictimsAreTheShortestPrefix | packages/core/src/capability-service-governor.ts:81-88 | the scan stops at the shortest prefix that makes room, every longer prefix makes room too, and if all together do not, nothing is chosen |
| CapabilityServiceGovernor.CandidatesAre | packages/core/src/capability-service-governor.ts:78-80 | the candidates are exactly the other ready services with an empty queue, once each, in the order of their last use, and of their names where that is the same |
| CapabilityServiceGovernor.IdleVictimsAreBest | packages/core/src/capability-service-governor.ts:69-89 | nobody is evicted exactly when capacity is unknown or all candidates are not enough; otherwise the chosen are idle, none left behind was used before any of them, and no shorter run of them makes room |
| CapabilityServiceGovernor.Governor.CollectEvictable | packages/core/src/capability-service-governor.ts:78-79 | the filter over all services, which creates the record of every one it looks up |
| CapabilityServiceGovernor.Governor.SelectVictims | packages/core/src/capability-service-governor.ts:76-86 | the accumulating loop yields the shortest sufficient prefix or nothing |
| CapabilityServiceGovernor.Governor.IdleVictims | packages/core/src/capability-service-governor.ts:69-89 | the whole choice, with the phases it sets, equals its transition function |
| CapabilityServiceGovernor.Governor.Request | packages/core/src/capability-service-governor.ts:99-138 | the admission decision and the new state, branch by branch, equal the transition function |
| CapabilityServiceGovernor.Governor.Poll | packages/core/src/capability-service-governor.ts:157-167 | the head leaves the queue and is requested again |
| CapabilityServiceGovernor.Governor.Cancel | packages/core/src/capability-service-governor.ts:169-181 | a queued request is cut out of the queue, an active one begins to unload its service, any other does nothing |
| CapabilityServiceGovernor.Governor.Sweep | packages/core/src/capability-service-governor.ts:207-216 | exactly the ready services whose idle timeout has passed begin to unload, in sorted order |
| GovernorRuns.RequestAnswered | packages/core/src/capability-service-governor.ts:99-138 | each kind of answer pins down the target's new record, and every other service is untouched or an idle one named for eviction |
| GovernorRuns.EvictionsAreBest | packages/core/src/capability-service-governor.ts:118-127 | whenever a request evicts, the choice is the best available |
| EvictionGuards.RequestUnloads | packages/core/src/capability-service-governor.ts:99-138 | whom a request evicts, read off the state before it: the shortest run of the oldest candidates that makes room, exactly when the request would have to wait and all candidates together make room |
| EvictionGuards.CandidatesWithout | packages/core/src/capability-service-governor.ts:78-80 | once the first candidates are gone, the candidates are the others, in the order they had |
| GovernorInNumbers.IdleIsAdmittedExactly | packages/core/src/capability-service-governor.ts:118-137 | a new request of a stopped or ready service is admitted exactly when used bytes and its peak, less the resident share of a ready one, are within the limit times the fraction; it starts the one and runs on the other |
| GovernorInNumbers.OthersLineUp | packages/core/src/capability-service-governor.ts:91-127 | one that is not admitted keeps the first place it has in the queue, or joins at the end, or is refused when the declared number, or eight, wait already |
| GovernorInNumbers.NothingNewIsAnswered | packages/core/src/capability-service-governor.ts:106-115 | an undeclared or disabled service refuses and changes nothing; an active request is told to start or run again |
| GovernorInNumbers.TheLongestUnusedGo | packages/core/src/capability-service-governor.ts:76-88 | of a request's victims an earlier one was used no later than a later one, and of no service left behind was the last use before theirs; equal times go by name |
| GovernorInNumbers.AsManyGoAsMakeRoom | packages/core/src/capability-service-governor.ts:81-88 | the resident bytes of the victims make room together, and without the last of them they would not |
| GovernorInNumbers.SomeGoIfTheyCan | packages/core/src/capability-service-governor.ts:69-89 | if any idle services whatever would make room together, a request that has to wait sends some away |
| GovernorInNumbers.SweptAreThoseWhoseTimeIsUp | packages/core/src/capability-service-governor.ts:207-216 | swept are exactly the ready services that name a timeout and were last used at least as long ago, once each, in the order of their names |
| GovernorInNumbers.SweptAfterItsLastUse | packages/core/src/capability-service-governor.ts:147-216 | a service that completed at t is swept from t plus its timeout on, and not before |
| GovernorInNumbers.RetryStartsOver | packages/core/src/capability-service-governor.ts:183-205 | failed and retried a service is as never called; retry changes no other; stopped it keeps only its queue and its last use |
| GovernorRuns.PollIsAnswered | packages/core/src/capability-service-governor.ts:157-167 | a poll is a request of the head in the state without it |
| GovernorRuns.StepKeepsSound | packages/core/src/capability-service-governor.ts:91-216 | every operation keeps the joint invariant (active iff loading or busy, queue without duplicates or the active request, bounded, empty when unavailable) if and only if it is not an admitted resubmission of a waiting request |
| GovernorRuns.ResubmittingAWaitingRequestBreaksIt | packages/core/src/capability-service-governor.ts:130-137 | a concrete state and request that break the invariant |
| GovernorRuns.PollRefusesExactly | packages/core/src/capability-service-governor.ts:157-167 | a poll refuses exactly when a request waits and the service is not enabled, or the queue exceeds today's limit and the head cannot start |
| FixedDeclarations.StepKeepsRoomy | packages/core/src/capability-service-governor.ts:91-216 | with the declarations fixed, no operation takes a queue beyond the limit declared for its own service, or lets anything wait for an unavailable one |
| FixedDeclarations.PollsNeverRefuse | packages/core/src/capability-service-governor.ts:157-167 | from the empty governor, after any operations that present the same declarations, a poll of an enabled service never refuses, at any capacity and with no rule for the caller |
| GovernorRuns.StepConserves | packages/core/src/capability-service-governor.ts:99-205 | an operation loses and duplicates no request, if and only if it is neither an admitted resubmission nor a stop of a service with an active request |
| GovernorRuns.StoppingAnActiveServiceLosesIt | packages/core/src/capability-service-governor.ts:200-205 | a concrete sound state in which a stop is acknowledged and the active request is neither held nor reported afterwards |
| GovernorRuns.RunConserves | packages/core/src/capability-service-governor.ts:99-205 | over every disciplined run, what a service holds plus what finished is what it held plus what was submitted, as multisets |
| GovernorRuns.EveryRequestIsInOnePlace | packages/core/src/capability-service-governor.ts:99-205 | from the empty governor with fresh IDs, each submitted request is active, queued or finished, in exactly one of them and once |
| GovernorRuns.StepOwes | packages/core/src/capability-service-governor.ts:87-216 | after any operation the services unloading are those named in an unload list, a stop or a sweep and not since acknowledged |
| GovernorRuns.RunOwes | packages/core/src/capability-service-governor.ts:87-216 | the same over every run, with no rule for the caller |
| GovernorRuns.RefusalsEvictNobody | packages/core/src/capability-service-governor.ts:99-137 | a refused request changes no service, and a refused poll only removes the head it took |
| GovernorRuns.RoundServesHead | packages/core/src/capability-service-governor.ts:140-167 | one round of poll, acknowledgement and completion serves the head and leaves the rest |
| GovernorRuns.DrainIsFirstInFirstOut | packages/core/src/capability-service-governor.ts:118-167 | with room at every round, a queue is served in order, each request once, in as many rounds as its length, ending ready and empty |
| CapabilityServiceRuntime.Driver.PrepareStart | packages/core/src/capability-service-runtime.ts:126-166 | victims are stopped, the head is polled once more, a start is attempted and its outcome is the decision |
| CapabilityServiceRuntime.Driver.DispatchEntry | packages/core/src/capability-service-runtime.ts:168-200 | a request is run once, only while active and busy, on a worker with the current declaration |
| CapabilityServiceRuntime.Driver.Call | packages/core/src/capability-service-runtime.ts:378-412 | the whole call up to its wait |
| CapabilityServiceRuntime.Driver.PumpQueues | packages/core/src/capability-service-runtime.ts:257-277 | every service that had a queue and was stopped or ready at the snapshot is polled once, in turn |
| RuntimeCoupling.StepKeepsCoupling | packages/core/src/capability-service-runtime.ts:168-277 | with declarations fixed, a step keeps the keys waited on equal to the active and queued requests, and the ledger of waiters exact, if and only if its run acknowledgement is timely |
| RuntimeCoupling.LateRunOkBreaks | packages/core/src/capability-service-runtime.ts:206-212 | any untimely acknowledgement breaks the coupling |
| LateAcknowledgement.ACanceledRunAnswersLate | packages/core/src/capability-service-runtime.ts:206-212 | from a new driver, timely steps only: a call is run, canceled and made again, and the answer to the first run leaves the second waiter neither waited on nor settled |
| RuntimeCoupling.RunKeepsCoupling | packages/core/src/capability-service-runtime.ts:90-424 | every run of timely steps keeps it |
| RuntimeCoupling.EveryWaiterIsSettledOnce | packages/core/src/capability-service-runtime.ts:90-103 | from a new driver, each waiter ever made is waited on or settled, never both, never twice; no request is run twice and none succeeds without a run |
| RuntimeCoupling.ExecuteKeeps | packages/core/src/capability-service-runtime.ts:378-412 | a call keeps the coupling, whatever the governor and the worker answer |
| RuntimeCoupling.PrepareKeeps | packages/core/src/capability-service-runtime.ts:126-166 | stopping victims, polling again and starting leave only the returned decision to be carried out |
| RuntimeCoupling.PumpKeeps | packages/core/src/capability-service-runtime.ts:257-277 | a pump over any order of services keeps the coupling |
| Declarations.RunsOnTodaysDeclaration | packages/core/src/capability-service-runtime.ts:168-200 | a dispatch runs its request exactly when it is the unrun active one of a busy enabled service whose worker holds the declaration presented, or can be refreshed to; otherwise nothing is run, and a worker that cannot be refreshed is given up |
| Declarations.CallRunsOnTodaysDeclaration | packages/core/src/capability-service-runtime.ts:239-412 | a call runs at most one request, and then the worker holds the declaration presented with the call |
| Declarations.TurnRunsOnTodaysDeclaration | packages/core/src/capability-service-runtime.ts:257-277 | the same of a turn of the pump |
| Declarations.StepHolds | packages/core/src/capability-service-runtime.ts:90-424 | every step, with any declarations, keeps this: a ready or busy service's worker holds the last declaration attempted, and a service that is down has none |
| Declarations.WorkersHoldWhatTheyWereStartedWith | packages/core/src/capability-service-runtime.ts:90-424 | so it is after any run from a new driver |
| DriverOutcomes.StartLeadsToARun | packages/core/src/capability-service-runtime.ts:148-200 | a start that succeeds leads to the run of the request it was for; one that fails to its refusal, and the service is given up |
| DriverOutcomes.ColdCallIsRun | packages/core/src/capability-service-runtime.ts:378-412 | with room, a call of a stopped service is run if the worker starts, and refused if not |
| DriverOutcomes.TurnedAwayAtTheDoor | packages/core/src/capability-service-runtime.ts:378-383 | a call that is waited on already, or whose service is not declared or disabled, changes nothing |
| DriverOutcomes.TheSameDeclarationIsRefused | packages/core/src/capability-service-runtime.ts:383-412 | a call of a service that was given up with this declaration is refused at once and changes nothing else |
| DriverOutcomes.AChangedDeclarationStartsOver | packages/core/src/capability-service-runtime.ts:383-386 | a call after the declaration changed goes as if the service had never been called |
| DriverOutcomes.ThePumpRunsTheHead | packages/core/src/capability-service-runtime.ts:257-277 | with room, a turn of the pump runs the head of the queue and leaves the rest waiting |
| DriverOutcomes.CanceledIsForgotten | packages/core/src/capability-service-runtime.ts:362-375 | a canceled waiter fails at once, and a service that was running for it is stopped or given up |
| DriverOutcomes.SweptServicesStop | packages/core/src/capability-service-runtime.ts:416-423 | a sweep stops exactly the services whose time is up, or gives them up, and changes no other |
| StrandingGuards.StrandsExactlyWhen | packages/core/src/capability-service-runtime.ts:133-147 | asking for a service strands others exactly when it has to wait and all candidates make room on the first reading, and still has to wait and all candidates left make room on the second |
| StrandingGuards.CallStrandsExactly | packages/core/src/capability-service-runtime.ts:133-147 | after a call, the services unloading are those that were and those this guard names, and no others |
| StrandingGuards.TurnStrandsExactly | packages/core/src/capability-service-runtime.ts:257-277 | the same after a pump's turn for one service, which asks for the head of its queue anew |
| StrandingGuards.PumpStrandsExactly | packages/core/src/capability-service-runtime.ts:257-277 | the same after a whole pump, turn by turn |
| StrandingGuards.StepStrandsExactly | packages/core/src/capability-service-runtime.ts:90-424 | the same after any step, less the service whose failure it reports |
| StrandingGuards.RunStrandsExactly | packages/core/src/capability-service-runtime.ts:90-424 | after every run of timely steps, the services unloading are those that were and all that were stranded, less those reported to have failed since |
| StrandedServices.UnloadingStays | packages/core/src/capability-service-runtime.ts:257-277 | a service left unloading is moved by no step but a failure reported for it |
| StrandedServices.UnloadingStaysForever | packages/core/src/capability-service-runtime.ts:257-277 | the same over every run |
| StrandingRun.StrandingHappens | packages/core/src/capability-service-runtime.ts:133-147 | a run of timely steps from a new driver: two services are called and answer and nothing is unloading; a third is called while the memory is full and its reading lags, and a service is stranded |
| ChainOfCommand.ResolveSuperior | packages/core/src/agent.ts:178-211 | the walk returns the configured superior exactly when its line reaches the top through known agents without meeting itself or the asker, and otherwise Nova |
| ReportingPaths.ResolvedByPaths | packages/core/src/agent.ts:178-211 | the superior asked for is the answer exactly when it is a colleague and some path of named superiors leads from it to Nova or the owner without passing the asker or, unless pauses are let pass, anybody paused; otherwise it is Nova |
| ReportingPaths.APausedLineFallsToNova | packages/core/src/agent.ts:197-208 | with a paused agent anywhere on the line asked for, Nova answers |
| ReportingPaths.AnUnpausedLineResolvesAlike | packages/core/src/agent.ts:197-208 | with nobody paused on it, a line resolves alike whether pauses count or not |
| ReportingPaths.TheLastEntryCounts | packages/core/src/agent.ts:192 | of entries with one id the last is in the directory |
| ChainOfCommand.UpDescends | packages/core/src/agent.ts:178-211 | every step up a resolved line gets nearer the top, except from the owner |
| ChainOfCommand.NeverRevisits | packages/core/src/agent.ts:176-211 | whatever the configuration, nobody but the owner is met twice on the way up |
| ChainOfCommand.EveryLineEnds | packages/core/src/agent.ts:176-211 | within as many steps as there are agents a line is at the owner or has run out |
| ChainOfCommand.LinesRunOutAtTheTop | packages/core/src/agent.ts:194-200 | a line runs out exactly where the owner, or Nova, is missing |
| ChainOfCommand.CollectReports | packages/core/src/agent.ts:263-269 | the filter yields the direct reports in roster order |
| ChainOfCommand.OneSuperiorEach | packages/core/src/agent.ts:263-269 | a colleague is a direct report of exactly its resolved superior, if that is another agent |
| ChainOfCommand.InheritsIsOnLine | packages/core/src/agent.ts:299-310 | the recursive answer is "some agent on the resolved line is paused" |
| ChainOfCommand.PauseScan.Paused | packages/core/src/agent.ts:299-310 | the memoised walk agrees with that, and its guard on seen agents never cuts an answer short |
| ChainOfCommand.EffectivePaused | packages/core/src/agent.ts:296-317 | the result is exactly the colleagues with a pause on their line |
| ChainOfCommand.RosterOrderIsFree | packages/core/src/agent.ts:296-317 | the order of the roster does not matter |
| ChainOfCommand.PauseAddsTheSubtree | packages/core/src/agent.ts:271-279 | pausing one agent pauses exactly those whose line goes through it |
| ChainOfCommand.PausingOneAgent | packages/core/src/agent.ts:271-317 | on a roster, it adds the colleagues of that subtree and changes nobody else |
| JsonText.ValueLinesAreNewlines | script/lib/json-config.ts:79-84 | lines counted on the tree are the newlines of the printed text |
| DuplicateKeys.ScannerReportsTheObjects | script/lib/json-config.ts:55-164 | of every printed document the scan reports the repeats of each object, inner objects first |
| DuplicateKeys.ScannerIsExact | script/lib/json-config.ts:55-164 | reported are exactly the keys seen more than once in one object, with its path and every line of theirs in order; seen is every key with white space alone before its colon |
| DuplicateKeys.ReportsAreTheRepeats | script/lib/json-config.ts:69-74 | closing a frame reports exactly the names with two lines or more |
| DuplicateKeys.ScanIsTheWalk | script/lib/json-config.ts:76-160 | scanning the text of a value from any state is walking its tree |
| DuplicateKeys.WalkEffect | script/lib/json-config.ts:129-150 | a value leaves the stack of frames as it was, moves the line by the lines it spans, and forgets the key read unless it is an atom |
| DuplicateKeys.WalkFinds | script/lib/json-config.ts:69-150 | a value adds to what is found exactly what its objects contribute, at the path it stands at |
| DuplicateKeys.PassBlock | script/lib/json-config.ts:92-99 | the comment loop ends after the first end mark and counts the lines passed |
| DuplicateKeys.ReadString | script/lib/json-config.ts:101-119 | the string loop yields the name with backslashes dropped and the position after the closing quote |
| DuplicateKeys.ColonFollows | script/lib/json-config.ts:120-126 | a colon is the next character that is no white space |
| DuplicateKeys.Find | script/lib/json-config.ts:55-164 | the loop over positions, and the final closing of open frames, compute that scan for any text at all |
| CutOffText.CutOffIsReportedAsClosed | script/lib/json-config.ts:69-164 | a document that lacks any number of its last brackets, and ends in no string or comment, is reported as if it had them |
| KeyComparison.NameIsTheDecodedKeyExactly | script/lib/json-config.ts:107-111 | the scanner's name is the decoded key if and only if every escape in it stands for itself |
| KeyComparison.PlainKeysAreReportedAsJson | script/lib/json-config.ts:55-164 | of every document whose keys are spelled with themselves, the reported entries are exactly the keys that repeat in JSON's sense, with path and lines |
| KeyComparison.OtherEscapesDisagree | script/lib/json-config.ts:107-111 | every key with another escape, next to the plain spelling of its name, is reported as a repeat and is none in JSON |
| KeyComparison.AgreesWithPlainKeysExactly | script/lib/json-config.ts:101-150 | beside every plainly spelled key, scanner and JSON agree whether k is the same key, if and only if k is plainly spelled |
| KeyComparison.TwoOtherEscapesMayAgree | script/lib/json-config.ts:107-111 | two different keys with other escapes that both take for different |
| KeyComparison.TwoKeysReport | script/lib/json-config.ts:101-150 | two keys of an object are reported exactly when their names agree |
| KeyComparison.PairReports | script/lib/json-config.ts:120-127 | the second of two keys is compared exactly when nothing but white space stands before its colon |
| KeyComparison.MissesARepeat | script/lib/json-config.ts:107-111 | a repeat in JSON's sense that is not reported |
| KeyComparison.ReportsANonRepeat | script/lib/json-config.ts:107-111 | two different keys that are reported |
| TrailingCommas.StrippedIsWithoutTrailing | script/lib/sbom.ts:138-180 | the scan of every printed document without comments is the print of that document without its trailing commas; its data is unchanged, and strict JSON goes through as it is |
| TrailingCommas.WithoutTrailingKeepsTheData | script/lib/sbom.ts:138-153 | dropping trailing commas from a tree leaves its data, and no trailing comma |
| TrailingCommas.StripString | script/lib/sbom.ts:160-172 | a string literal, escapes included, goes through unchanged |
| TrailingCommas.StringsAreKept | script/lib/sbom.ts:160-167 | so does every string of a malformed text, terminated or not |
| TrailingCommas.OnlyCommasGo | script/lib/sbom.ts:173-178 | of any text, nothing but commas is dropped |
| TrailingCommas.CommasBeforeBracketsGo | script/lib/sbom.ts:173-178 | a comma goes exactly when white space or line ends alone, as ECMA-262 lists them, stand between it and a closing bracket |
| TrailingCommas.StripTrailingCommas | script/lib/sbom.ts:155-179 | the character loop computes that scan |
| MemoryPlan.PlanIsMonotone | script/lib/memory-plan.ts:166-219 | more memory or less demand never lowers the rung or raises the number of shards, which is from two to eight |
| MemoryPlan.PlanInNumbers | script/lib/memory-plan.ts:143-219 | whole exactly when both kinds have 1.3 of the peak to the nearest byte and 512 MB more; else refused exactly under 1200 MB of either; else two to eight shards |
| MemoryPlan.UnknownMemoryAndUnits | script/lib/memory-plan.ts:169-228 | without both readings a unit runs whole; a unit never measured counts as 1200 MB |
| MemoryPlan.ShardsCoverThePressure | script/lib/memory-plan.ts:211-218 | the shards are the fewest, from two up to the cap, for which an equal share of each requirement fits the headroom |
| MemoryPlan.ReservationIsTheNearestByte | script/lib/memory-plan.ts:143-159 | a reservation is 1.3 of the peak to the nearest byte, and no other number is |
| RunSchedule.ConcurrencyCap | script/lib/run-schedule.ts:113-118 | a forced number is kept; otherwise the cap is the most up to four that leaves two cores free, and at least one |
| RunSchedule.AdmitsExactlyWhatStaysWithin | script/lib/run-schedule.ts:128-160 | a unit is admitted exactly when the pool with it is alone, or all measured, within the cap and within both budgets |
| RunSchedule.TwoFitTogether | script/lib/run-schedule.ts:128-160 | beside one other: both measured, a second place, and the sums of commit and of resident bytes within the budget |
| RunSchedule.RefusalsNameABrokenBound | script/lib/run-schedule.ts:128-160 | a refusal names a bound that the pool with the candidate would break |
| RunSchedule.WholeExactlyWhenTheReservationFits | script/lib/run-schedule.ts:86-89 | a plan is whole exactly when its reservation fits the budget of the same reading, with the one exception named |
| RunSchedule.ANothingFitsButIsRefused | script/lib/run-schedule.ts:86-89 | a unit with a peak of zero fits an empty budget and is refused by the planner |
| RunSchedule.SortedByCostAlone | script/lib/run-schedule.ts:207-221 | sorting with the index as tie-break is stable sorting by cost alone |
| RunSchedule.OrderIsTheStableLongestFirst | script/lib/run-schedule.ts:200-221 | the order is the stable longest-first one, unmeasured units last, and the only such order |
| RunSchedule.TheDearestGoFirst | script/lib/run-schedule.ts:200-221 | every unit once as often as before, costs falling, those without a cost last, and those of one cost in the order they had |
| RunSchedule.ObservedCosts | script/lib/run-schedule.ts:175-198 | a unit has a cost exactly when some readable line of a passing test names it; it is one of the times seen, with at most half of them below it and more than half not above |
| RunSchedule.MiddleIsUnique | script/lib/run-schedule.ts:175-198 | there is only one such time |
| RunSchedule.OneMoreLine | script/lib/run-schedule.ts:175-198 | one more line adds its time to the unit it names, if it is a passing test's with a time, and to no other |
| TestPool.StepKeepsSafe | script/test.ts:1210-1310 | no start, end or leave lets units in flight together exceed the cap or either budget, or include an unmeasured one |
| TestPool.RunIsSafe | script/test.ts:1187-1338 | at every moment of every run |
| TestPool.TogetherTheyAreMeasured | script/test.ts:1211-1310 | units in flight together are all measured in both kinds, no more than the cap, and 1.3 of their measured peaks, to the nearest byte each, is within the budget of either kind |
| TestPool.BudgetIsReadWhenEmpty | script/test.ts:1268-1283 | the budget changes only when the pool is empty, to what was read then |
| TestPool.OverlapIsExact | script/test.ts:1203-1255 | the flag read at a unit's end is true exactly when another unit was in flight at some moment of its run |
| TestPool.StepStartsTheHead | script/test.ts:1265-1310 | a step starts the head of the queue or nothing |
| TestPool.RunStartsInOrder | script/test.ts:1187-1338 | what has been in flight is exactly what left the queue, from its front |
| TestPool.PeakIsTheMost | script/test.ts:1203-1208 | the peak is the most units ever in flight together in the run |
| PoolLoop.TracesAreRuns | script/test.ts:1323-1338 | every history of the loop is a run of the pool, so all of the above holds of it |
| PoolLoop.AbortsExactlyWhenTheHostStops | script/test.ts:1265-1310 | an offer aborts exactly when it is made and the host's answer stops it: on an empty pool for a forbidden start, a missing reading or a refusing plan; beside others for a forbidden start |
| PoolLoop.StartsExactlyWhenItMay | script/test.ts:1265-1313 | an offer starts the head of the queue exactly when the host lets it, and alone its plan is no refusal, or beside others the pool with it stays within its bounds under the floor; the unit is then the last in flight |
| PoolLoop.TwoRunTogether | script/test.ts:1265-1313 | a history in which two measured jobs are in flight together |
| PoolLoop.TheCheckFailsOnlyAfterALeave | script/test.ts:1323-1335 | a history ends in the abort on an empty pool if and only if its last event is a check that finds the pool emptied in the same turn by a leave, with nothing started since |
| PoolLoop.TheHostStopsIt | script/test.ts:1265-1338 | a history ends in the host's abort if and only if its last event is an offer whose answer stops it |
| PoolLoop.ItDrains | script/test.ts:1323-1338 | a history ends drained if and only if its last event is a turn that finds nothing queued and nothing in flight; every job has then been in flight |
| PoolLoop.HistoriesAreShort | script/test.ts:1323-1338 | the loop ends: no history has more than 16 events for each job and 3 more, whatever the host answers and however the ends interleave |
| PoolLoop.HistoriesGoOn | script/test.ts:1323-1338 | the loop never hangs: a history that is not over can go on, whatever the world has in store |
| PoolLoop.WorldsDecide | script/test.ts:1323-1338 | the answers of the host and the ends of units, moment by moment, decide the whole history |
| PoolLoop.ItsWorldBringsItAbout | script/test.ts:1323-1338 | for every whole history there are such answers and ends, and the loop run to its end with them goes through just that history: no interleaving is left out |
| PoolLoop.AFinishedRunAborts | script/test.ts:1323-1335 | a history in which the only job has run and the loop aborts with nothing left to do |
| PoolLoop.AQueueIsAbandoned | script/test.ts:1323-1335 | a history in which it aborts with a job still queued |
| PoolLoop.ItIsEmptyBeforeTheRefusal | script/test.ts:1323-1335 | a history in which the pool is already empty at the refusal before the failing check |
| PoolLoop.Runner.MarkOverlap | script/test.ts:1203-1208 | with two or more in flight every flag is set, and the peak is kept |
| PoolLoop.Runner.AdmitNext | script/test.ts:1265-1310 | the whole admission equals its step, for any answer of the host |
| PoolLoop.Runner.Drain | script/test.ts:1323-1338 | for any answers of the host and any ends, wherever the loop can see them, it goes through the history they decide and ends; it is safe at every moment and starts units in queue order, and the cause it returns is each of the three exactly as above |
| SessionCatalogues.SaveUpserts | packages/core/src/adhoc-tools.ts:167-178 | a saved recipe is the only one of its name, last, and the others keep their order |
| SessionCatalogues.RemoveRemoves | packages/core/src/adhoc-tools.ts:184-198 | the answer says whether the name was there, the rest is kept, and an emptied catalogue has no file |
| SessionCatalogues.SaveThenRemoveRestores | packages/core/src/adhoc-tools.ts:167-198 | removing what was just saved under a new name restores every catalogue as read |
| SessionCatalogues.CopyCopies | packages/core/src/adhoc-tools.ts:205-219 | the target reads what the source reads; an empty source changes nothing; a copy onto itself changes no reading |
| SessionCatalogues.NamesThatAreRead | packages/core/src/adhoc-tools.ts:46-104 | a stored recipe is read exactly if its name has 1 to 64 small letters, digits, hyphens and underscores and begins with neither of the last two |
| SessionCatalogues.TornStaysTornExactly | packages/core/src/adhoc-tools.ts:91-104 | a file that does not parse stays as it is under every operation if and only if that is not a copy onto it |
| SessionCatalogues.ACopyOverwritesATornFile | packages/core/src/adhoc-tools.ts:205-219 | one recipe copied onto a file that does not parse replaces it |
| SessionCatalogues.Store.ReadStored | packages/core/src/adhoc-tools.ts:93-104 | the recipes with a valid name, or none, and whether the file is torn |
| SessionCatalogues.Store.SaveRecipe | packages/core/src/adhoc-tools.ts:171-177 | read, filter and write are the one change the operation is |
| SessionCatalogues.Store.RemoveRecipe | packages/core/src/adhoc-tools.ts:186-197 | the same for removal |
| SessionCatalogues.Store.CopyRecipes | packages/core/src/adhoc-tools.ts:212-218 | the same for a copy |
| CatalogueLocks.LockOrderIs | packages/core/src/adhoc-tools.ts:135 | the locks taken are those of the files touched, ascending, each once, also when source and target are one |
| CatalogueLocks.StepExcludes | packages/core/src/adhoc-tools.ts:106-140 | no step lets two processes hold one lock, or leaves a lock nobody holds |
| CatalogueLocks.WriteKeepsOthersFresh | packages/core/src/adhoc-tools.ts:171-177 | a write leaves alone everything another process has read and is about to write from |
| CatalogueLocks.StepIsSerial | packages/core/src/adhoc-tools.ts:168-219 | after each step the files are those of a serial run of what took effect |
| CatalogueLocks.SomeoneCanStep | packages/core/src/adhoc-tools.ts:132-140 | until all are done, some process can step without anybody giving up |
| CatalogueLocks.StepIsProgress | packages/core/src/adhoc-tools.ts:106-140 | every step uses up some of a finite amount |
| CatalogueLocks.RunsAreSerial | packages/core/src/adhoc-tools.ts:106-219 | over every interleaving: exclusion, files and results of the serial run in commit order, no deadlock, and an end |
| CatalogueLocks.ExpiryLetsASecondHolderIn | packages/core/src/adhoc-tools.ts:118-123 | removing a held lock as stale lets a waiting process hold it too |
| PeakSampler.Tally | script/lib/peak-sampler.ts:260-277 | one tick's own, resident and foreign sums, and whether any process is its own |
| PeakSampler.Attribute | script/lib/peak-sampler.ts:247-292 | the pass yields tick counts and the positive maxima over the ticks in the window |
| PeakSampler.SampleIsUnique | script/lib/peak-sampler.ts:247-292 | that specification has one solution |
| PeakSampler.OneTick | script/lib/peak-sampler.ts:247-292 | one tick of one process in numbers: both ends of the window count, a process born at its start is its own, one with a negative or earlier birth foreign, an unreadable one neither |
| PeakSampler.OwnAndForeignAreAll | script/lib/peak-sampler.ts:264-277 | own plus foreign is each tick's readable total |
| PeakSampler.LaterEndsNeverLower | script/lib/peak-sampler.ts:257-281 | extending the end of the window lowers no count and no peak |
| Affective.AppraiseObserved | packages/core/src/affective.ts:98-146 | the step, event by event, equals four independent scalar equations |
| Affective.RunStaysInUnit | packages/core/src/affective.ts:98-146 | over every run all four scalars stay within 0 and 1 |
| Affective.RunFromCalmStaysInUnit | packages/core/src/affective.ts:26-146 | so does every run from the calm mood it begins with |
| Affective.RepeatingTwiceForcesARedirect | packages/core/src/affective.ts:110-128 | two steps running that repeat action and result force the redirect from any mood in range |
| Affective.ThreeAlikeForceARedirect | packages/core/src/affective.ts:107-128 | three identical steps do so from any mood in range, whatever it remembers |
| Affective.TalkBuildsUrgency | packages/core/src/affective.ts:130-143 | n talk-only steps without a new result raise urgency by n/4, up to 1 |
| Affective.FourTalksForceARedirect | packages/core/src/affective.ts:228-241 | four of them force some redirect |
| Affective.ActingNeverBuildsUrgency | packages/core/src/affective.ts:130-143 | steps that all act never bring on the redirect for lack of action |
| Affective.QuietFades | packages/core/src/affective.ts:98-101 | n quiet steps fade frustration, satisfaction and boredom by n decays |
| Affective.FadedIsThePower | packages/core/src/affective.ts:99-101 | n decays are one scaling by the n-th power of the decay |
| Affective.ProgressRelieves | packages/core/src/affective.ts:113-117 | a new result resets urgency, raises satisfaction, and alone leaves no redirect |
| Affective.EachEventBumps | packages/core/src/affective.ts:98-146 | what each event by itself does to a mood without emotions, in numbers |
| Affective.RepeatedTalkBores | packages/core/src/affective.ts:130-143 | saying the same twice running bores, frustrates and presses, from any mood in range |
| Affective.RemembersTheLast | packages/core/src/affective.ts:98-146 | the last result, action and idle talk are remembered until the next of their kind |
| Affective.RedirectsInNumbers | packages/core/src/affective.ts:228-241 | frustration from 0.7 on forces the one redirect, else urgency from 0.8 on the other |
| Affective.PenaltiesRiseExactly | packages/core/src/affective.ts:199-215 | the penalties returned are at or above their baselines in every mood in range, if and only if both baselines are at most 2 and not lowered by rounding to three places |
| Affective.RoundedPenaltiesRise | packages/core/src/affective.ts:199-215 | from such a baseline each returned penalty stays within the baseline and the rounded headroom |
| Affective.RoundingLowersAPenalty | packages/core/src/affective.ts:199-215 | a baseline of 1.0004 comes back as 1 |
| Affective.TheScaleLowersAPenalty | packages/core/src/affective.ts:199-215 | a baseline of 2.5 comes back as 2 |
| Affective.SamplingStaysInBand | packages/core/src/affective.ts:180-223 | rounded, temperature, top-p and top-k stay in their bands for every mood and baseline |
| Affective.RestlessnessLoosens | packages/core/src/affective.ts:180-223 | of two moods in range, the more frustrated, more bored, less satisfied and less pressed one never gets a lower temperature, top-p, top-k or penalty |
| Affective.EachScalarPullsItsWay | packages/core/src/affective.ts:180-223 | the sampling of the calm mood and of each scalar alone at its height, on the defaults |

## Left out

- Effect fibers, scopes, deferred internals, stage timing, logging and health polling in the driver: each public method is one step, and a health failure is a reported failure; interleavings inside one method are not modelled.
- Key strings in the driver: a key is the pair of service and request, not their concatenation.
- The governor's snapshot order: `localeCompare` and string order are given as sort keys, and the order in which a pump visits services is a parameter.
- Aliasing: runtime records and pool entries are values in a map or sequence, updated by storing a new one.
- ChainOfCommand.RosterOrderIsFree: ids are distinct; of two entries with one id the later one counts, so their order would matter.
- RuntimeCoupling.StepKeepsCoupling: the declarations are fixed over the run; what a declaration that changes in mid-run does to waiting callers is not modelled.
- `reportsToOwner`, `isProtected` and the other one-line predicates of `agent.ts`: one reading settles them.
- KeyComparison.PlainKeysAreReportedAsJson: a character beyond the basic plane is one unit here and two in JavaScript, where a key may also spell it with two escapes; keys with a comment before their colon are left to `DuplicateKeys.ScannerIsExact`.
- TrailingCommas.StrippedIsWithoutTrailing: documents without comments, which a lock file does not have and the strict parser would refuse.
- `JSON.parse` itself, and the parsing of packages out of a lock file.
- Floating-point rounding: the planner works on whole bytes with 13/10, the mood and the sampler on reals.
- MemoryPlan.PlanIsMonotone: both readings finite; with a reading missing every plan is whole.
- PoolLoop.Runner.Drain: what a unit's process does, the ledgers and the memory gates are not modelled; a gate is an answer of the host, and an abort stops the run. A unit the loop waits for is taken to leave at last.
- TestPool.OverlapIsExact: job names are distinct, as in the table of packages; two units of one name would share an entry of the map.
- Lock expiry in `CatalogueLocks`: a lock is never taken to be stale; `CatalogueLocks.ExpiryLetsASecondHolderIn` shows what the guarantee rests on. A timeout is a process giving up.
- Session identifiers are valid; an invalid one is refused before any lock is taken.
- `normalizeRecipe` and `mergeRecipes`: a saved recipe is already normalized; merging is a fold by name.
- Temporary files of the atomic write: a write happens whole or not at all.
- The text of the sampler's timeline and of the series of peaks: the models start from rows.
- `fingerprint` and the error pattern of the homeostat: any function and any predicate.
