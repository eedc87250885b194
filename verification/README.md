# Verified model of the agent core

This project models the stateful heart of the agent core in Dafny and proves what its code and its
documentation promise: belief promotion that survives crashes, maintenance that converges, a completion
protocol that does not depend on how it is cut up, an agent loop that keeps its budget, the distance
measures behind drift detection, tool-schema translation, ranking and prompt budgeting, the slash-command
parser and the cumulative drift alarm.

Where the source steps objects in place, the model has classes (or methods over arrays) whose contracts tie
every step to a specification function; the main results are lemmas about those functions, over every
input, every run or every reachable state. Check everything with `dafny verify dfyconfig.toml`.

## Components

* **Promotion** (`Promotion*`, `ClaimStore`, `ClaimIdentity`, `Approvals`). Every repository call is one
  atomic write; an operation is the list of database states its writes leave behind, and a crash keeps any
  prefix of it. `CrashReplay` shows that stopping `executeEntry` after any write, restarting and executing the
  row again reaches the claims, statuses and evidence of the uninterrupted run, and `RecoveryRefines` extends this
  to sweeps that die any number of times. `ReachableDatabases` and `ReachableSaysOnce` list what holds in every
  reachable state, over promotions, sweeps, restarts, decisions and maintenance passes in any order with crashes
  anywhere. `ProposalOutcome` says exactly which candidates skip the human.
* **Maintenance** (`Maintenance*`). A pass is modelled rung by rung. What is still owed is a number; every pass
  that does more than toggle locks lowers it. Lock toggling itself is settled exactly: passes come to rest if
  and only if no strong contradicted claim is listed once they have stopped doing anything else, which takes at
  most twice as many passes as were owed.
* **Completion protocol** (`Llm*`). The parser, the streamed assembly of tool calls, the line pump and the
  transcript check; `DeliveredIsWhole` and `DeliveredText` join framing, cutting and assembling into one statement, and
  `TextExactly` and `CallsExactly` say which whole responses are answers, and to what.
* **Agent loop** (`Agent*`). Rounds, parks, resumes, polls and cancellations of one run; `DecisionRunsOn` says that a
  decision takes a parked run up again wherever it came from.
* **Distances** (`EditDistance`, `Distributions`, `PersonaSemantic`, `PersonaSignal`), **tool schemas** (`Mcp*`),
  **ranking and bands** (`Rank*`, `Sorting`, `PromptBands`), **slash commands** (`SlashCommands`) and the
  **drift alarm** (`DriftAlarm`, `DriftAgreement`, `DriftFindings`, `PersonaDriftService`).

## Where the code and its documentation differ

The model follows the code. Each of these is a lemma or is visible in a definition:

* The maintenance pass is documented to touch 500 claims; the claim listing it uses stops at 200.
* Suppression is documented to happen once per trace; a pass that finds several new traces of a claim lowers it once
  for all of them (`SuppressedOnce`).
* A strong contradicted claim is locked and unlocked by every other pass, for ever (`QuiescenceCondition`,
  `StrongLoserNeverRests`), and a boost does not answer an access when a later one is already recorded
  (`BoostAnswersAccess`).
* Decay is documented to give the same result however often passes run. Until a claim was accessed or has decayed
  once, every write restarts its grace, and every claim is written by the pass that stamps it
  (`StampRestartsGrace`; `DecayIgnoresWrites` and `PassesIgnoreFrequency` say when the promise holds).
* Identity keys separate normalized triples only while no field holds a `|` without a space beside it
  (`KeyIdentifiesTriple`, `KeysCollideOnSeparator`); the keys of gist families and of duplicate suppression have the
  same weakness (`KinAgree`, `KeyMeansSame`).
* The drift signal is documented to lie in [0, 1]; a text containing the word `constructor` turns it into NaN,
  because the token table is a plain object (`SignalRange` gives the exact condition). Two different texts
  without content tokens get the largest signal.
* Required arguments named like an inherited member may be missing, undeclared arguments with such a name pass,
  structured enum options never match and 0 is not -0 (`RequiredAgreement`, `EnumAgreement`,
  `InheritedExtraPasses`, `ProtoExtraPasses`, `UndeclaredAgreement`). The provider-name check accepts inherited
  names too (`AliasCondition`).
* Translation never widens a schema but closes it: objects the source leaves open lose their undeclared keys
  (`MeaningCondition`, `ArgsCondition`).
* A run never ends as `budget_exhausted`: the branch that sets it needs a tool execution in a round that offers
  no tools (`WholeRunBudget`). Polling a parked run whose approval is still pending ends the run
  (`PollingEndsParkedRun`).
* The alarm is silent for good when more than 50 cycles are required, and misses a streak that breaks and is back
  within one millisecond (`ScheduleCondition`).

## Model

| member | source | states |
|---|---|---|
| `ClaimIdentity.KeyIdentifiesTriple` | core/src/memory/claim-identity.ts:23-29 | for every triple: no triple with other normalized fields has its key, if and only if none of its normalized fields holds a separator without a space beside it |
| `ClaimIdentity.KeyDeterminesFields` | core/src/memory/claim-identity.ts:23-29 | over all texts, normalized or not: a joined key determines its fields if and only if none of them holds the separator |
| `ClaimIdentity.NormalizedIsCanonical` | core/src/memory/claim-identity.ts:7-14 | a normalized field is lower case, has single spaces only and none at its ends |
| `ClaimIdentity.CanonicalIsNormalized` | core/src/memory/claim-identity.ts:7-14 | and every such text is the normalized form of some field |
| `ClaimIdentity.SameWordsSameField` | core/src/memory/claim-identity.ts:7-14 | fields without quotes have the same normalized form exactly when they have the same words, whatever their case and what gaps lie between |
| `ClaimIdentity.KeysCollideOnSeparator` | core/src/memory/claim-identity.ts:23-29 | two triples that differ only in whether a bar ends the subject or starts the predicate share a key and differ in their normalized fields |
| `ClaimStore.FindByTriple` | core/src/memory/sqlite-claim.repository.ts:214-221 | the oldest row with the key and marker, and none only if no row has them |
| `ClaimStore.CreateClaim` | core/src/memory/sqlite-claim.repository.ts:156-207 | a row is inserted exactly when no row has the same identity and marker |
| `ClaimStore.ClaimRepository.Create` | core/src/memory/sqlite-claim.repository.ts:156-207 | the table grows by the new row, or is unchanged when the identity is taken |
| `ClaimStore.ClaimRepository.Append` | core/src/memory/sqlite-claim.repository.ts:240-266 | evidence merges by candidate id, confidence and observation count move, other rows stay |
| `ClaimStore.ClaimRepository.MoveTo` | core/src/memory/sqlite-claim.repository.ts:268-282 | the status moves only along the lifecycle table |
| `ClaimStore.ClaimRepository.Relate` | core/src/memory/sqlite-claim.repository.ts:346-365 | related ids are added once each, never the claim's own |
| `PromotionJournal.JournalRepository.Record` | core/src/memory/sqlite-promotion-journal.repository.ts:78-109 | one row per candidate; an existing one is handed back |
| `PromotionJournal.JournalRepository.MoveTo` | core/src/memory/sqlite-promotion-journal.repository.ts:145-187 | a row moves only along the transition table, claiming a claimed row returns it |
| `PromotionJournal.TerminalIsFinal` | core/src/memory/sqlite-promotion-journal.repository.ts:20-28 | a terminal row never changes again, whatever the journal is asked |
| `Approvals.ResolveKeepsLog` | core/src/approvals/sqlite-approval.repository.ts:123-207 | resolving and reading keep exactly one decision event per settled request, and settled requests keep their status |
| `Approvals.ExpireAllKeepsLog` | core/src/approvals/sqlite-approval.repository.ts:209-240 | the bulk expiry expires exactly the pending requests whose time has come, changes no other, and the event log still matches |
| `Approvals.ApprovalRepository.ResolveApproval` | core/src/approvals/sqlite-approval.repository.ts:123-156 | a decision lands exactly when the request is pending and its expiry time, if any, is still to come |
| `Approvals.ApprovalRepository.ExpireLapsed` | core/src/approvals/sqlite-approval.repository.ts:209-240 | the loop expires exactly the lapsed requests |
| `PromotionServices.PromotionService.OnModuleInit` | core/src/memory/promotion.service.ts:98-108 | the writes of a restart: every stranded row is requeued, one write each |
| `PromotionServices.PromotionService.ProposeOne` | core/src/memory/promotion.service.ts:132-187 | the writes of a proposal: journal and execute at once, or ask for approval and journal |
| `PromotionProposals.ProposalOutcome` | core/src/memory/promotion.service.ts:132-203 | a candidate already journalled is left alone; any other is promoted at once, with no approval, exactly when the automatic path is on, its kind admitted, its speaker known, nothing said the same before and no proposed or active claim is about its subject and predicate; otherwise no claim moves, one pending approval is added and the queued row waits on it; the recorded operation is to reinforce, contradict or add as the claims say |
| `PromotionProposals.AutomaticExactly` | core/src/memory/promotion.service.ts:171-203 | a proposal moves claims, and journals a row without an approval, exactly under those conditions |
| `PromotionProposals.PromotionStrengthens` | core/src/memory/promotion.service.ts:379-400 | granting a candidate whose identity is known adds its evidence once, 0.05 of confidence up to 0.99 and one observation to that claim, activates it if it was only proposed, and changes no other |
| `PromotionProposals.PromotionContradicts` | core/src/memory/promotion.service.ts:403-421 | granting one that a live claim opposes contradicts that claim, or retires it if it was only proposed, adds the new active claim under its authority, and changes no other |
| `PromotionProposals.PromotionAdds` | core/src/memory/promotion.service.ts:423-456 | granting any other adds one active claim with the fields of the candidate and changes no other |
| `PromotionProposals.UngrantedEndsAs` | core/src/memory/promotion.service.ts:238-290 | executing any other row moves no claim and no other row: a settled one stays, an open one waits for its decision, fails for want of its candidate, its approval or a known speaker, or is denied, its request expired on the way if its time has run out |
| `PromotionProposals.OnlyGrantedMoves` | core/src/memory/promotion.service.ts:238-323 | so executing a row moves claims exactly when it is open, its candidate has a known speaker, and its approval, if it has one, is granted |
| `PromotionServices.PromotionService.ExecuteEntry` | core/src/memory/promotion.service.ts:238-323 | the writes and the outcome of executing a row, branch by branch |
| `PromotionServices.PromotionService.ApplyCandidate` | core/src/memory/promotion.service.ts:367-432 | the writes of applying a candidate: reinforce, contradict or create |
| `PromotionServices.PromotionService.CreateActiveClaim` | core/src/memory/promotion.service.ts:434-456 | a claim is inserted as candidate and then activated, two writes |
| `PromotionServices.PromotionService.SweepAll` | core/src/memory/promotion.service.ts:567-584 | the writes of a sweep over all open rows, and the count of every outcome |
| `PromotionReplay.CrashReplay` | core/src/memory/promotion.service.ts:98-108 | after a crash between any two writes of an execution, restart and re-execution, at any later time, reach the beliefs, journal and approvals of the uninterrupted run, up to confidence, observation counts, times, and the row's operation and notes (a replayed creation counts as a reinforcement) |
| `PromotionReplay.ReplayApply` | core/src/memory/promotion.service.ts:367-456 | applying a candidate again from any intermediate state converges to the same claim and beliefs, the demote-then-create case included |
| `PromotionReplay.ReplayDenied` | core/src/memory/promotion.service.ts:258-282 | the same for executions that end in a denial or failure |
| `PromotionRecovery.CrashesReplay` | core/src/memory/promotion.service.ts:98-108 | any number of crashes of one row, each after at least one of its writes and followed by a restart, at any times: the attempt that completes leaves what the first would have left |
| `PromotionRecovery.ExecuteAlike` | core/src/memory/promotion.service.ts:238-323 | executing a row reads nothing of the claims but the beliefs and nothing of the journal but its shape: alike databases stay alike |
| `PromotionRecovery.SweepCrash` | core/src/memory/promotion.service.ts:567-584 | a crash after any write of a sweep, a restart and a sweep at the same time do what the uninterrupted sweep does |
| `PromotionRecovery.RecoveryRefines` | core/src/memory/promotion.service.ts:98-108 | however many sweeps die, wherever, the one that completes leaves the beliefs, approvals and journal rows, up to operation and notes, of a sweep that was never interrupted |
| `PromotionSweep.SweepTwice` | core/src/memory/promotion.service.ts:567-584 | after a sweep every row is settled or waits for a decision, and a second sweep at the same time writes nothing and counts skips only |
| `PromotionRuns.EventKeepsInv` | core/src/memory/promotion.service.ts:132-456 | every write of every operation keeps the invariant, so a crash anywhere leaves it intact |
| `PromotionRuns.RunKeepsInv` | core/src/memory/promotion.service.ts:98-584 | so does every serial run with crashes anywhere |
| `PromotionRuns.ReachableDatabases` | core/src/memory/promotion.service.ts:251-313 | at most one live claim per subject and predicate, one row per identity and marker, each candidate in at most one claim and once; a committed row's claim carries its candidate and its approval is approved; a denied row's candidate is in no claim |
| `PromotionReach.ReachableSaysOnce` | core/src/memory/sqlite-claim.repository.ts:156-207 | for a ledger of observed candidates: in every reachable database no two claims say the same thing with the same marker, and every approval's event log is its creation and at most one decision |
| `PromotionInvariant.FadeKeepsInv` | core/src/memory/sqlite-claim.repository.ts:268-282 | writes that keep identities and evidence and revive nothing keep the invariant |
| `MaintenancePolicy.DecayIgnoresFrequency` | core/src/memory/maintenance.service.ts:121-157 | over a claim nothing else writes to, decay steps at any rising times leave the confidence of one step at the last time; it never rises nor falls below floor and start |
| `MaintenancePolicy.DecayIgnoresWrites` | core/src/memory/maintenance.service.ts:121-157 | the decay step ignores when the claim was last written, at every time, if and only if the claim is locked, at its floor, was accessed or has decayed before |
| `MaintenanceAmounts.DecaysExactly` | core/src/memory/maintenance.service.ts:121-157 | a claim decays exactly when it is unlocked, was not read within seven days, is past its last decay or thirty days past its last access or write, and is above the floor of its category |
| `MaintenanceAmounts.PassHalves` | core/src/memory/maintenance.service.ts:416-433 | over a pass: a claim that can only decay keeps its confidence outside those conditions, and loses half of it, down to its floor, after exactly the half-life of its category |
| `MaintenanceDecay.PassesIgnoreFrequency` | core/src/memory/maintenance.service.ts:246-273 | over whole passes, whatever else they do: an unlocked claim that nothing compounds or locks, and that was accessed or has decayed before, ends with the confidence one pass at the last time leaves |
| `MaintenanceDecay.StampRestartsGrace` | core/src/memory/maintenance.service.ts:867-891 | a fresh claim past its grace decays, but not if an earlier pass inside the grace stamped its source type |
| `MaintenanceRevision.PickRevisionWinner` | core/src/memory/maintenance.service.ts:65-79 | the result is a rival no other beats under authority, corroboration, recency and id |
| `MaintenanceRevision.WinnerIgnoresOrder` | core/src/memory/maintenance.service.ts:65-79 | the winner does not depend on the order or repetition of the rivals |
| `MaintenanceRevision.WinnerByField` | core/src/memory/maintenance.service.ts:65-83 | the winner is approved if any rival is; of equal standing it was observed most often; then written last; then is the oldest row |
| `MaintenanceHeads.SameWinnerFromEverySide` | core/src/memory/maintenance.service.ts:531-586 | every rival of a group names the same winner |
| `MaintenanceHeads.ReviseLeavesOneHead` | core/src/memory/maintenance.service.ts:531-586 | a revision acts exactly when there is another active rival and leaves exactly one active head, all other rivals contradicted and everything else untouched |
| `MaintenanceLinks.RevisionLinks` | core/src/memory/maintenance.service.ts:531-586 | a revision links its winner with every rival it beat, both ways, and with the session mates |
| `MaintenanceLinks.MatesExactly` | core/src/memory/maintenance.service.ts:597-637 | the session mates are the first five listed claims outside the contest that share an observing session with a contender: no others, and all of them when there are fewer |
| `MaintenanceLinks.LinksEveryContest` | core/src/memory/maintenance.service.ts:442-467 | linking applies exactly while a committed contest of the claim is unlinked, and then links it with every claim it beat or lost to, and no other |
| `MaintenanceLinks.FamilyExactly` | core/src/memory/maintenance.service.ts:899-924 | a family is all listed claims whose subject and predicate, joined by a bar, are the same, and only if there are three and no two rest on the same observations |
| `MaintenanceLinks.KinAgree` | core/src/memory/maintenance.service.ts:899-907 | claims of one family agree on subject and predicate, unless one of these holds a bar |
| `MaintenanceLinks.GistExactly` | core/src/memory/maintenance.service.ts:479-515 | a gist is proposed exactly while the family exists and the last proposal named other members; no claim changes |
| `MaintenanceWrites.PassIsWrites` | core/src/memory/maintenance.service.ts:246-273 | what a pass does to the claims is a sequence of status, link and column writes |
| `MaintenanceWrites.PassInRun` | core/src/memory/maintenance.service.ts:246-273 | so some steps of a promotion run do to the database exactly what the pass does, and passes may stand anywhere in a run |
| `MaintenanceWrites.PassKeepsPromotionInv` | core/src/memory/maintenance.service.ts:246-273 | every pass, over every store, keeps the promotion invariant |
| `Maintenance.RungAdvances` | core/src/memory/maintenance.service.ts:380-891 | no rung changes identity or evidence, revives a claim, rewrites history or a source type already stamped |
| `MaintenanceTouches.RungTouches` | core/src/memory/maintenance.service.ts:380-891 | each rung writes its own column and no other, in its own direction, and only revision and activation reach beyond the claim visited; a stamp is what speaker and certainty call for |
| `MaintenanceTouches.LockExactly` | core/src/memory/maintenance.service.ts:685-718 | a claim is locked exactly at five observations and confidence 0.9, and unlocked exactly when contradicted |
| `MaintenanceGlow.AccessGlows` | core/src/memory/maintenance.service.ts:730-819 | an unanswered access lifts the claim by 0.3 and its first five related claims by 0.3 together; no activation leaves [0, 1], and the sum grows by exactly that while there is room |
| `MaintenanceGlow.Fades` | core/src/memory/maintenance.service.ts:741-765 | otherwise activation fades by 0.05, not below zero, exactly when an hour has passed since it last moved, and nothing else changes |
| `MaintenanceAmounts.SuppressedOnce` | core/src/memory/maintenance.service.ts:284-311 | however many stored traces list a claim as a near miss, one pass lowers its activation by one step of 0.1, exactly if one of them is newer than its last suppression, and a second pass over them lowers nothing |
| `MaintenanceServices.HistoryRepository.LatestByClaim` | core/src/memory/sqlite-claim-history.repository.ts:103-115 | the newest row of the claim with the transition asked for |
| `MaintenanceServices.MaintenanceService.CompoundRung` | core/src/memory/maintenance.service.ts:380-414 | the compounding rung as its specification, store and history |
| `MaintenanceCompounding.CompoundAdds` | core/src/memory/maintenance.service.ts:85-102 | compounding applies exactly to a claim observed twice or more, below 0.99, whose observations were not answered yet and are worth something, and adds the lesser of what is missing to 0.99 and 0.02 for each of up to five observations, dampened for agents |
| `MaintenanceCompounding.AgentGainsLess` | core/src/memory/maintenance.service.ts:380-400 | dampened by a fraction, the claim of an agent gains no more than the same claim of a user |
| `MaintenanceCompounding.PassCompounds` | core/src/memory/maintenance.service.ts:246-273 | a pass takes exactly the due step of every listed claim and raises no other confidence |
| `MaintenanceCompounding.CompoundsOnce` | core/src/memory/maintenance.service.ts:371-379 | any number of passes lifts a claim by at most one such step, and by none if its observations have compounded before |
| `MaintenanceServices.MaintenanceService.DecayRung` | core/src/memory/maintenance.service.ts:416-433 | the decay rung |
| `MaintenanceServices.MaintenanceService.LinkRung` | core/src/memory/maintenance.service.ts:442-467 | the counterpart rung |
| `MaintenanceServices.MaintenanceService.GistRung` | core/src/memory/maintenance.service.ts:479-515 | the gist rung |
| `MaintenanceServices.MaintenanceService.ReviseRung` | core/src/memory/maintenance.service.ts:531-586 | the revision rung |
| `MaintenanceServices.MaintenanceService.LockRung` | core/src/memory/maintenance.service.ts:685-718 | the lock rung |
| `MaintenanceServices.MaintenanceService.ActivateRung` | core/src/memory/maintenance.service.ts:730-819 | the activation rung with its spread |
| `MaintenanceServices.MaintenanceService.ClassifyRung` | core/src/memory/maintenance.service.ts:867-891 | the classification rung |
| `MaintenanceServices.MaintenanceService.MaintainClaim` | core/src/memory/maintenance.service.ts:355-369 | at most one rung per claim, the first that applies |
| `MaintenanceRest.FirstRung` | core/src/memory/maintenance.service.ts:355-369 | the outcome of a visit is the first that applies of compound, decay, link, gist, revise, lock, activate, classify |
| `MaintenanceServices.MaintenanceService.SuppressTraces` | core/src/memory/maintenance.service.ts:284-311 | the suppression of near misses, and its count: one history row each |
| `MaintenanceServices.MaintenanceService.RunOnePass` | core/src/memory/maintenance.service.ts:246-273 | one whole pass: store, outcome of every visit, count of suppressions |
| `MaintenancePasses.RungPays` | core/src/memory/maintenance.service.ts:355-369 | every rung but the lock lowers what is owed and raises nothing |
| `MaintenancePasses.PassPays` | core/src/memory/maintenance.service.ts:246-273 | a pass that does more than toggle locks strictly lowers the debt, no pass raises it, and a quiet pass changes nothing |
| `MaintenancePasses.FewPassesAct` | core/src/memory/maintenance.service.ts:246-273 | over any number of passes no more of them act than was owed at the start |
| `MaintenanceRest.SettledAfter` | core/src/memory/maintenance.service.ts:246-273 | after twice as many passes as were owed only locks can still move |
| `MaintenanceRest.TwoIdleSettle` | core/src/memory/maintenance.service.ts:355-369 | two passes in a row that do nothing but toggle locks are followed by such passes for ever |
| `MaintenanceRest.QuiescenceCondition` | core/src/memory/maintenance.service.ts:685-718 | if the next two passes move locks only, maintenance comes to rest if and only if no strong contradicted claim is listed |
| `MaintenanceRest.RestOrToggle` | core/src/memory/maintenance.service.ts:685-718 | from any sane store: it comes to rest if and only if no strong contradicted claim is listed after twice as many passes as were owed, and otherwise toggles its lock for ever |
| `MaintenanceRest.StrongLoserNeverRests` | core/src/memory/maintenance.service.ts:685-718 | a store of one stamped claim, contradicted after five observations at confidence 0.99, never comes to rest |
| `MaintenanceLocks.BoostAnswersAccess` | core/src/memory/maintenance.service.ts:730-776 | a boost answers its access exactly when no recorded boost is later |
| `LlmProtocol.ChunksKeepLimits` | core/src/llm/llm.protocol.ts:218-235 | after any accepted chunks at most 8 calls, 64 KiB each and 256 KiB in total, and every content character forwarded once in order |
| `LlmProtocol.ResponseKeepsLimits` | core/src/llm/llm.protocol.ts:207-216 | the same limits for everything a whole response is accepted with |
| `LlmProtocol.NoCallsWithoutPermission` | core/src/llm/llm.protocol.ts:112-116 | under tool choice `none` neither a whole response nor a stream ever yields a tool call |
| `LlmProtocol.EchoAddsNothing` | core/src/llm/llm.protocol.ts:247-265 | after the finish an accepted chunk changes nothing but the model name |
| `LlmAnswers.EchoIsIdle` | core/src/llm/llm.protocol.ts:247-265 | and would have added no text, no call and no other finish before it either |
| `LlmAnswers.TextExactly` | core/src/llm/llm.protocol.ts:207-216 | a whole response answers in text, with that content and model name, if and only if its fields say so: one choice of the assistant, no error, no calls, a fitting finish and a content that is not blank once trimmed |
| `LlmAnswers.CallsExactly` | core/src/llm/llm.protocol.ts:267-287 | and with calls, with that preface, model name and calls, if and only if each entry names a tool on offer, has its own valid id and a record for arguments, within the limits, and the finish is tool_calls |
| `LlmAnswers.StreamedCallsSound` | core/src/llm/llm.protocol.ts:267-287 | whatever the chunks of a stream say, the calls that come out of it have different valid ids, are on offer, hold records and keep the limits |
| `LlmAnswers.UnendedYieldsNoCall` | core/src/llm/llm.protocol.ts:269-271 | a stream that stopped without its end marker hands on no call |
| `LlmText.WholeText` | core/src/llm/llm.protocol.ts:288-292 | a whole message replies with its trimmed text under its own name for the model; it is refused exactly for a blank text, a bad name or a finish that does not fit |
| `LlmText.TextStreamed` | core/src/llm/llm.protocol.ts:218-235 | any cut of a text into deltas, with usage between and after, replies with the text, untrimmed, under the name given last, all of it sent to the sink; refused exactly when empty or not stopped |
| `LlmParsers.CompletionParser.constructor` | core/src/llm/llm.protocol.ts:196-205 | a fresh parser is in the start state |
| `LlmParsers.CompletionParser.Response` | core/src/llm/llm.protocol.ts:207-216 | the result of a whole response is the specified one |
| `LlmParsers.CompletionParser.Chunk` | core/src/llm/llm.protocol.ts:218-235 | a chunk is accepted exactly when specified, and moves all fields and the sink accordingly |
| `LlmParsers.CompletionParser.Message` | core/src/llm/llm.protocol.ts:324-349 | content and calls of a message are taken as specified |
| `LlmParsers.CompletionParser.AddCall` | core/src/llm/llm.protocol.ts:351-391 | one call delta with its checks and byte limits |
| `LlmParsers.CompletionParser.CheckLimits` | core/src/llm/llm.protocol.ts:384-390 | the running byte count accepts exactly the tables within all limits |
| `LlmParsers.CompletionParser.Result` | core/src/llm/llm.protocol.ts:267-293 | the result of the current state, ids checked with a set |
| `LlmFragments.TableAt` | core/src/llm/llm.protocol.ts:351-383 | after any pieces the table entry of an index is exactly what the pieces say about that index |
| `LlmFragments.FragsAccepted` | core/src/llm/llm.protocol.ts:351-391 | every run of pieces of calls within the limits is accepted, whole or streamed |
| `LlmFragments.FragmentationIndependence` | core/src/llm/llm.protocol.ts:207-293 | any cut of the calls into pieces, any interleaving and any chunking, closed by finish and end marker, parses to what the whole message parses to |
| `LlmFragments.WholeYieldsTheCalls` | core/src/llm/llm.protocol.ts:267-288 | that result is exactly the calls meant, when their ids differ and their arguments are records |
| `LlmStream.SplitJoins` | core/src/llm/llm.client.ts:313-323 | the reference split puts newline-free pieces that join to the text |
| `LlmStream.Overlong` | core/src/llm/llm.client.ts:319-322 | an open line past 128 KiB breaks the stream whatever follows |
| `LlmStream.EndedEarly` | core/src/llm/llm.client.ts:313-316 | nothing after the end marker or a failure has any effect |
| `LlmStream.Line` | core/src/llm/llm.client.ts:278-297 | one line handed to the parser: ignored, end marker, payload or refusal |
| `LlmStream.PumpStream` | core/src/llm/llm.client.ts:263-332 | for every cutting of the characters into reads, the parser calls and the outcome are those of splitting the whole text |
| `LlmDelivery.DeliveredIsStreamed` | core/src/llm/llm.client.ts:278-297 | payloads written as `data:` lines and the end marker come out as the assembled stream |
| `LlmText.DeliveredText` | core/src/llm/llm.client.ts:225-300 | text deltas written as lines and cut again into reads of any size reply with the text |
| `LlmDelivery.NoiseIgnored` | core/src/llm/llm.client.ts:275-283 | a blank line, a comment or any other line without data leaves the stream where it stands |
| `LlmDelivery.DeliveredIsWhole` | core/src/llm/llm.client.ts:263-332 | calls cut, interleaved, chunked, framed and cut again into reads parse to the whole message |
| `LlmTranscript.AcceptsExactlyTranscripts` | core/src/llm/llm.protocol.ts:131-186 | the set-based scan accepts exactly the sequences of plain messages and rounds of 1 to 8 bounded calls with one reply each, ids unique over the transcript |
| `LlmTranscript.Send` | core/src/llm/llm.protocol.ts:131-186 | the loop accepts exactly those transcripts and sends every message as it was |
| `LlmTranscript.TakeCalls` | core/src/llm/llm.protocol.ts:148-180 | the calls of one message are accepted exactly when each and all together are within the rules and unseen |
| `LlmTranscript.AliasCondition` | core/src/llm/llm.protocol.ts:124-129 | the provider-name check gives the intended alias or refusal for exactly the names no plain object inherits; of those only `constructor` fits the name pattern |
| `AgentLoop.FinalRoundEnds` | core/src/conversation/conversation.service.ts:256-292 | a round without tools admits no call, ends the turn and never as budget-exhausted |
| `AgentLoop.RoundKeepsBudget` | core/src/conversation/conversation.service.ts:256-405 | every round keeps the accounting between ledger rows, stored counters and rounds |
| `AgentLoop.WholeRunBudget` | core/src/conversation/conversation.service.ts:484-659 | over all resumes and cancellations a run asks for at most maxIterations + 1 proposals, starts at most maxToolSteps tools and never ends as budget-exhausted |
| `AgentLoop.NoCallTwice` | core/src/conversation/conversation.service.ts:1355-1385 | in one turn no call reaches the tools twice, nor one from the history, and each that does accounts for one ledger row |
| `AgentLoop.ResumeCondition` | core/src/conversation/conversation.service.ts:438-481 | a resume asks the model again if and only if the run is parked and its row has an outcome or a denial; otherwise it ends the run |
| `AgentOutcome.TurnEndsAs` | core/src/conversation/conversation.service.ts:306-406 | a turn ends parked exactly when its last round wrote a parked row, did not throw and rendered; completed exactly when it wrote any other usable row, and failed otherwise; the row is parked exactly for one new call proposed while tools were on offer, and is recorded as the last step with its calls |
| `AgentOutcome.GoesOn` | core/src/conversation/conversation.service.ts:281-345 | a round goes on exactly from a repeated call, a refused proposal of calls or the outcome of a tool, while tools are on offer, and records one step |
| `AgentOutcome.DecisionRunsOn` | core/src/conversation/conversation.service.ts:413-516 | whatever has happened to a run: when it is parked its last step waits for a decision, and resuming that step with an outcome or a denial asks the model again from the stored counters |
| `AgentOutcome.FirstCallParks` | core/src/conversation/conversation.service.ts:381-382 | a fresh run whose first proposal is one new call that the ledger parks is parked on it, with one step and one call counted |
| `AgentOutcome.PolledEndsAs` | core/src/conversation/conversation.service.ts:439-481 | a resume with nothing to continue from ends the run, completed exactly when its step has a usable row and nothing threw, moves parked rows only, and keeps counters and steps |
| `AgentOutcome.CancelExactly` | core/src/agent/agent-run.repository.ts:231-257 | cancelling ends a run that has not ended and leaves one that has as it is |
| `AgentLoop.EndedForGood` | core/src/conversation/conversation.service.ts:413-659 | a run that is not parked never asks the model again, whatever is resumed or cancelled |
| `AgentLoop.PollingEndsParkedRun` | core/src/conversation/conversation.service.ts:438-481 | so polling a parked run before its approval is decided loses its plan: no later event continues it |
| `AgentConversations.AgentRunRepository.RecordStep` | core/src/agent/agent-run.repository.ts:163-190 | a step appends its request id and moves both counters |
| `AgentConversations.AgentRunRepository.CancelRun` | core/src/agent/agent-run.repository.ts:231-257 | only a run that is not terminal is cancelled |
| `AgentConversations.ConversationService.Converse` | core/src/conversation/conversation.service.ts:229-406 | the turn of a fresh run as specified |
| `AgentConversations.ConversationService.Loop` | core/src/conversation/conversation.service.ts:256-405 | the loop with its local counters is the recursive plan |
| `AgentConversations.ConversationService.Act` | core/src/conversation/conversation.service.ts:290-394 | what one proposal does to run, ledger and counters |
| `AgentConversations.ConversationService.ResumeTurn` | core/src/conversation/conversation.service.ts:413-659 | the resume, continuing from the stored counters or settling single-shot |
| `EditDistances.EditDistance` | core/src/persona/persona-semantic.ts:113-132 | the two-row table computes the recursive minimum edit cost |
| `EditDistances.ZeroIsEqual` | core/src/persona/persona-semantic.ts:113-132 | distance zero exactly for equal strings |
| `EditDistances.Symmetric` | core/src/persona/persona-semantic.ts:113-132 | the distance is symmetric |
| `EditDistances.Triangle` | core/src/persona/persona-semantic.ts:113-132 | and obeys the triangle inequality |
| `EditDistances.Bounds` | core/src/persona/persona-semantic.ts:113-132 | it lies between the difference of the lengths and the longer length |
| `EditDistances.FewestEdits` | core/src/persona/persona-semantic.ts:113-132 | it is the least number of single-character insertions, deletions and replacements |
| `EditDistances.RatioRange` | core/src/persona/persona-semantic.ts:155-165 | the ratio is the distance over the longer length, lies in [0, 1] and is zero exactly for equal texts |
| `Distributions.CauchySchwarz` | core/src/persona/persona-semantic.ts:46-63 | the squared dot product is at most the product of the squared magnitudes |
| `Distributions.CosineRange` | core/src/persona/persona-semantic.ts:46-63 | the cosine lies in [0, 1] |
| `Distributions.WassersteinRange` | core/src/persona/persona-semantic.ts:69-89 | the Wasserstein distance lies in [0, 1] |
| `Distributions.WassersteinSymmetric` | core/src/persona/persona-semantic.ts:69-89 | it is symmetric |
| `Distributions.WassersteinTriangle` | core/src/persona/persona-semantic.ts:69-89 | it obeys the triangle inequality, empty distributions included |
| `Distributions.WassersteinZero` | core/src/persona/persona-semantic.ts:69-89 | it is zero exactly for proportional counts |
| `PersonaSemantic.TokenDistribution` | core/src/persona/persona-semantic.ts:33-39 | the loop counts every token, garbling inherited names |
| `PersonaSemantic.CosineSimilarity` | core/src/persona/persona-semantic.ts:46-63 | the loop over the keys computes the cosine, NaN exactly when a token is inherited |
| `PersonaSemantic.Wasserstein1` | core/src/persona/persona-semantic.ts:69-89 | the loop computes the distance, with the two empty cases |
| `PersonaSemantic.CompareContent` | core/src/persona/persona-semantic.ts:135-167 | the comparison reports identity, cosine, Wasserstein distance, edit distance, ratio and signal as specified |
| `PersonaSemantic.SignalRange` | core/src/persona/persona-semantic.ts:135-167 | the signal is a number in [0, 1] exactly when the texts are equal or no token is inherited |
| `PersonaSignal.SignalIsWorst` | core/src/persona/persona-semantic.ts:165 | the signal is at least both measures and equals one of them |
| `PersonaSignal.FullSignal` | core/src/persona/persona-semantic.ts:135-167 | the signal is 1 exactly for different texts without a common content token |
| `PersonaSignal.NoSignal` | core/src/persona/persona-semantic.ts:135-167 | and 0 exactly for equal texts, and for texts in which every content token has the same share, both with some |
| `PersonaSignal.CosineZero` | core/src/persona/persona-semantic.ts:46-63 | the cosine vanishes exactly for counts without a common token |
| `PersonaSignal.WassersteinOne` | core/src/persona/persona-semantic.ts:69-89 | the distance is 1 exactly for counts without a common token, two empty ones aside |
| `PersonaSemantic.SignalSymmetric` | core/src/persona/persona-semantic.ts:135-167 | the signal does not depend on which text comes first |
| `PersonaSemantic.ConstructorBreaksTheSignal` | core/src/persona/persona-semantic.ts:33-39 | the word `constructor` makes the signal NaN |
| `PersonaSemantic.EmptyTextsDiffer` | core/src/persona/persona-semantic.ts:61-63 | two different texts without content tokens get signal 1 |
| `McpBridge.TranslateNode` | core/src/mcp/mcp-tool-bridge.ts:121-227 | the translating loops compute the specified translation |
| `McpBridge.ToArgsSchema` | core/src/mcp/mcp-tool-bridge.ts:87-119 | the root translation, hiding every tool outside the subset |
| `McpSubset.TranslatesExactly` | core/src/mcp/mcp-tool-bridge.ts:121-227 | a node translates if and only if every node that a path of items and properties leads to is in the subset and no path is longer than the depth left |
| `McpSubset.OfferedExactly` | core/src/mcp/mcp-tool-bridge.ts:87-119 | a tool is offered if and only if its input schema is an object of at most fifty declared properties, required ones among them, each of them such a node |
| `McpSubset.NothingLost` | core/src/mcp/mcp-tool-bridge.ts:121-227 | every path through a node leads through its translation to the same type, options, default and required names, and to at most 500 characters of the same description |
| `McpBridge.CheckNode` | core/src/mcp/mcp-tool-bridge.ts:252-317 | no complaint exactly when the value passes, and a complaint about the schema only for a faulty one, in any key order |
| `McpBridge.ValidateForeignArgs` | core/src/mcp/mcp-tool-bridge.ts:236-250 | no complaint exactly when the arguments pass |
| `McpMeaning.TranslationKeepsMeaning` | core/src/mcp/mcp-tool-bridge.ts:121-317 | the validator on a translated node accepts exactly the values that the source schema accepts under the JSON Schema keywords and that hold no undeclared key, under the conditions below at every node |
| `McpMeaning.ArgsKeepMeaning` | core/src/mcp/mcp-tool-bridge.ts:87-119 | the same for a whole tool's arguments |
| `McpClosed.NeverWidens` | core/src/mcp/mcp-tool-bridge.ts:121-227 | whatever passes on a translated node the source schema accepts |
| `McpClosed.MeaningCondition` | core/src/mcp/mcp-tool-bridge.ts:121-227 | for a node that can be met at all, translation changes no verdict if and only if every object node of the schema declares `additionalProperties: false` |
| `McpClosed.OpenObjectNarrowed` | core/src/mcp/mcp-tool-bridge.ts:121-227 | an object without that keyword accepts `{"x": 1}` and its translation does not |
| `McpClosed.ArgsNeverWiden` | core/src/mcp/mcp-tool-bridge.ts:87-119 | arguments pass only if the input schema accepts them |
| `McpClosed.ArgsCondition` | core/src/mcp/mcp-tool-bridge.ts:87-119 | and always then if and only if the rule for undeclared arguments refuses everything and every object node below is closed |
| `McpMeaning.NeverFaulty` | core/src/mcp/mcp-tool-bridge.ts:282-317 | a translated node never reaches the invalid-schema or unsupported-type branches |
| `McpMeaning.NestingBounded` | core/src/mcp/mcp-tool-bridge.ts:121-127 | translated schemas are nested at most six levels |
| `McpMeaning.EnumAgreement` | core/src/mcp/mcp-tool-bridge.ts:257-261 | the enum check means the keyword for all values exactly when every option is primitive and the two zeros come together |
| `McpMeaning.RequiredAgreement` | core/src/mcp/mcp-tool-bridge.ts:298-305 | the required check means the keyword for all objects exactly when no required name is inherited |
| `McpMeaning.UndeclaredAgreement` | core/src/mcp/mcp-tool-bridge.ts:306-311 | inside an object the check refuses exactly the undeclared keys if and only if the prototype's name is declared |
| `McpMeaning.UndeclaredArgsAgreement` | core/src/mcp/mcp-tool-bridge.ts:243-247 | among the arguments it does if and only if every inherited name is declared |
| `McpMeaning.InheritedRequiredPasses` | core/src/mcp/mcp-tool-bridge.ts:240-242 | a required `toString` may be missing |
| `McpMeaning.InheritedExtraPasses` | core/src/mcp/mcp-tool-bridge.ts:243-247 | an undeclared `constructor` argument passes although the schema is closed |
| `McpMeaning.ProtoExtraPasses` | core/src/mcp/mcp-tool-bridge.ts:306-311 | an undeclared `__proto__` key passes inside a closed object |
| `SlashCommands.SplitArgs` | core/src/commands/slash-command.parser.ts:50-86 | the character loop computes the automaton's tokens |
| `SlashCommands.ParseSlashCommand` | core/src/commands/slash-command.parser.ts:29-43 | the parse with all its error cases |
| `SlashCommands.SplitShown` | core/src/commands/slash-command.parser.ts:50-86 | tokens shown bare or quoted in any mix, with any white space between, come back as they were |
| `SlashCommands.ParseRender` | core/src/commands/slash-command.parser.ts:29-43 | parsing the rendering of any valid name and any arguments returns them |
| `SlashCommands.NamedExactly` | core/src/commands/slash-command.parser.ts:29-43 | a slash and an unquoted word with any quoted arguments, in any white space, are a command exactly when the word in lower case is a letter followed by letters, digits and dashes; the name is that word |
| `SlashCommands.Reprint` | core/src/commands/slash-command.parser.ts:29-43 | printing a parsed command and parsing it again changes nothing |
| `SlashCommands.UnclosedQuote` | core/src/commands/slash-command.parser.ts:45-49 | an unclosed quote takes the rest of the input as one token |
| `Ranking.ScoreRange` | core/src/memory/rank.service.ts:130-165 | with documented lens factors and stored activations every fused score lies in [0, 1000000) |
| `Ranking.RecencyRange` | core/src/memory/ranking.ts:47-49 | the recency boost lies in [0, 1] |
| `Ranking.ReliabilityRange` | core/src/memory/maintenance.ts:156-159 | the source factor lies in (0.5, 1] and is 1 exactly when wins are not outnumbered |
| `Ranking.DistinctHits` | core/src/memory/rank.service.ts:112-121 | merging keeps every hit id once |
| `RankServices.Merge` | core/src/memory/rank.service.ts:112-121 | the maps hold the ids in order of first hit and each surface's list |
| `RankServices.Resolve` | core/src/memory/rank.service.ts:123-175 | a row per id that resolves, the others vanished |
| `RankServices.ScoreRow` | core/src/memory/rank.service.ts:130-174 | the step-by-step score is the product of the factors |
| `RankOrder.EarlierScoresHigher` | core/src/memory/ranking.ts:32-34 | of two ranked claims that differ in their places only, the one no surface lists later and some surface lists sooner or alone scores strictly higher |
| `RankOrder.NeutralScore` | core/src/memory/ranking.ts:32-34 | a fresh claim nothing sets apart scores the sum over the surfaces of 1 / (60 + its place); a sole first hit scores 1 / 61 |
| `RankOrder.AgeDivides` | core/src/memory/ranking.ts:47-49 | evidence of d days divides the score of fresh evidence by 1 + d / 30 |
| `RankOrder.FresherScoresHigher` | core/src/memory/ranking.ts:47-49 | fresher evidence scores strictly higher, unless the lens silences the claim |
| `RankOrder.ContradictionHalves` | core/src/memory/rank.service.ts:130-165 | a contradicted claim scores half |
| `RankOrder.ActivationLifts` | core/src/memory/rank.service.ts:130-165 | an activation of v above zero multiplies the score by 1 + v / 5, at most by a fifth more; any other changes nothing |
| `RankOrder.LensScales` | core/src/memory/rank.service.ts:130-165 | a factor the lens sets for the origin multiplies the score |
| `RankOrder.RecordScales` | core/src/memory/maintenance.ts:156-159 | a recorded source leaves the score alone while its wins are not outnumbered and multiplies it by the rule otherwise |
| `RankServices.ApplyGates` | core/src/memory/rank.service.ts:178-204 | lens and gate set every row's disposition in place |
| `RankServices.Dedupe` | core/src/memory/rank.service.ts:209-235 | the incumbent map excludes exactly the rows some row of the same key beats |
| `RankServices.AssignBands` | core/src/memory/rank.service.ts:238-251 | the best survivors are put in their bands in place |
| `RankServices.Rank` | core/src/memory/rank.service.ts:103-266 | the whole ranking as specified |
| `RankingGuarantees.EveryHitPlacedOnce` | core/src/memory/rank.service.ts:110-175 | every hit id is either vanished or in exactly one row, with its claim, score and demotion |
| `RankingGuarantees.GatesHold` | core/src/memory/rank.service.ts:178-204 | a row is excluded by lens or gate exactly when its claim calls for it |
| `RankingGuarantees.OneRowPerKey` | core/src/memory/rank.service.ts:206-235 | of the admitted rows of one triple and marker exactly one survives, with the highest score |
| `RankingGuarantees.KeyMeansSame` | core/src/memory/rank.service.ts:206-235 | claims that say the same up to case and outer white space share the key; claims that share it agree on the marker, and say the same if no field holds a bar |
| `RankingGuarantees.BandsHold` | core/src/memory/rank.service.ts:237-265 | the output is ordered by band and score, the bands are filled to their limits, and no row of a later band outscores one of an earlier band |
| `PromptBands.ApplyBandBudget` | core/src/memory/prompt-bands.ts:114-139 | the loop ends with no band, one that fits, or no row left that is recalled, familiar or demoted; it drops one least-priority row at a time and only while the band is too long |
| `PromptBands.VictimIsLeast` | core/src/memory/prompt-bands.ts:130-133 | the victim is droppable and of least priority |
| `PromptBands.KeptAndDroppedPartition` | core/src/memory/prompt-bands.ts:126-138 | kept and dropped rows share out the input, each dropped id once |
| `PromptBands.DropsByPriority` | core/src/memory/prompt-bands.ts:119-137 | with one row per id rows drop by rising priority |
| `PromptBands.NoneSkipped` | core/src/memory/prompt-bands.ts:107-125 | a row is dropped only once every row that must go before it is gone: familiar ones first, then demoted ones, then the rest, each by rising score |
| `PromptBands.RankedRowsDropInOrder` | core/src/memory/prompt-bands.ts:107-137 | the rows ranking produces drop in that order |
| `PromptBands.BandIsSilent` | core/src/memory/prompt-bands.ts:47-78 | the band is null exactly when nothing is recalled, noted or familiar |
| `PromptBands.BandSays` | core/src/memory/prompt-bands.ts:47-78 | the lines of a band: a header counting the recalled rows, their wordings, every note in order, one line for all near-misses, and nothing else |
| `PromptBands.ChargeIsCeiling` | core/src/memory/prompt-bands.ts:11-13 | a band is charged a quarter of its length in units, rounded up, and one at least |
| `PersonaDriftServices.PersonaRepository.RecordDriftTrend` | core/src/persona/sqlite-persona.repository.ts:716-753 | a trend is appended with the next review cycle of its record |
| `PersonaDriftServices.PersonaRepository.HasUnresolvedDrift` | core/src/persona/sqlite-persona.repository.ts:686-699 | true exactly when an open finding of that kind exists |
| `PersonaDriftServices.PersonaRepository.ResolveDrift` | core/src/persona/sqlite-persona.repository.ts:701-714 | every matching open finding is resolved, and their number returned |
| `PersonaDriftServices.PersonaRepository.LogDrift` | core/src/persona/sqlite-persona.repository.ts:599-634 | a finding is added unless its id is already there |
| `PersonaDriftServices.PersonaDriftService.EvaluateTexts` | core/src/persona/persona-drift.service.ts:243-290 | one review of a text: nothing for an unchanged one, refused before any write when a measure is no number, else one evaluation of the embedding or lexical signal |
| `PersonaDriftServices.SignalInRange` | core/src/persona/persona-drift.service.ts:259-267 | the signal that reaches the trend table lies in [0, 1] |
| `PersonaDriftServices.PersonaDriftService.EvaluateSemanticChange` | core/src/persona/persona-drift.service.ts:279-315 | one evaluation: trend, alarm, finding |
| `PersonaDriftServices.PersonaDriftService.DetectCumulativeDrift` | core/src/persona/persona-drift.service.ts:328-381 | the alarm's three branches |
| `PersonaDriftServices.PersonaDriftService.LogOnce` | core/src/persona/persona-drift.service.ts:397-420 | a finding is only logged while none of its kind is open |
| `DriftAlarm.ListedStreak` | core/src/persona/sqlite-persona.repository.ts:755-768 | what the alarm sees is the streak up to the listing limit, newest first |
| `DriftFindings.StrongReviewsLogged` | core/src/persona/persona-drift.service.ts:293-315 | whatever the policy and the reviews, a record has exactly one semantic finding, open and dated by its first review at or above the floor, and none without one |
| `DriftAgreement.AlarmAgrees` | core/src/persona/persona-drift.service.ts:279-292 | after any run on a safe schedule a record has exactly one open cumulative finding if its streak over the whole history reaches the configured length, and none otherwise |
| `DriftAgreement.ScheduleCondition` | core/src/persona/persona-drift.service.ts:328-381 | along a schedule of reviews alarm and recomputation agree throughout, whatever the signals, if and only if the schedule is safe: no record is reviewed twice at one time, late enough to raise the alarm and with enough of its reviews between to break and rebuild the streak |
| `DriftAgreement.AgreementCondition` | core/src/persona/persona-drift.service.ts:336-361 | over all runs that review no record twice at one time they agree if and only if at most 50 cycles are required |
| `DriftAgreement.SameMillisecondMissed` | core/src/persona/sqlite-persona.repository.ts:599-626 | three reviews of a record in one millisecond, high, low and high: the second streak goes unreported |

## Left out

- Identifiers: random ids are row positions, which is what makes them fresh; hashed log ids stand for what they hash.
- Clocks: one reading per operation, given as a parameter; dates that do not parse are not modelled.
- Concurrency: operations run one after the other; claiming a row as `promoting` is not exclusive in the source.
- Promotion side records: entity lists, parked questions, index writes and realtime events do not touch the tables modelled.
- Promotion errors: the `claim_vanished` and duplicate-identity exceptions cannot be reached serially and have no branch; the sweep's catch around an execution is left out with them.
- Maintenance: access counters and retirement eligibility are not modelled; a gist family is the set of its claims, and session mates come from a given session of each candidate.
- MaintenanceServices.MaintenanceService.ReviseRung: does not record the source-reliability outcomes of winner and losers, nor the anchor details of its history rows, because no rung reads either.
- MaintenanceServices.MaintenanceService.ActivateRung: does not model the divergence review an activation may trigger, because it writes questions to the operator, not claims.
- PromotionRecovery.RecoveryRefines: takes one time for all sweeps, because an approval that lapses between a crash and a later sweep rightly changes the outcome; `CrashesReplay` lets the times of one row's attempts differ.
- `Math.pow` and square roots: functions with their algebraic laws; all reals are exact, rounding and overflow to infinity are not modelled.
- Characters: strings are Unicode scalar values, so a streamed piece that splits a surrogate pair is not modelled; lower-casing covers ASCII letters and the Kelvin sign, the characters the patterns can tell apart.
- JSON text: decoding is a given function from text to value; duplicate keys and key order are not modelled, except that the validator is proved for every key order.
- Transport: abort signals, timeouts, byte decoding and the 4096-byte slices are left out; the pump starts from decoded characters and one closing flush. Request retries and usage records are not modelled.
- McpMeaning.TranslationKeepsMeaning: does not cover schemas declaring a property named `__proto__`, because the source then replaces a prototype instead of adding a property; values using that key are the counterexample `ProtoExtraPasses`.
- McpMeaning.ArgsKeepMeaning: of the root's keywords only `required`, `properties` and `additionalProperties` are part of the meaning; the source neither screens nor keeps its enum, default, composition and pattern keywords. A kept negative zero in a default is not normalised. Other keywords such as minimum lengths are dropped by the source.
- Tool names: sanitizing and splitting foreign tool names would only add easy members.
- Agent loop: the tool ledger answers each proposal through an oracle restricted to what its validation allows; run tracking succeeds; one run and its ledger rows are modelled, since request ids are unique. The streaming variant and the planning text are left out.
- AgentLoop.WholeRunBudget: assumes resumes one after the other, because two overlapping resumes would read the same counters.
- Semantic comparison: normalized entropy and token overlap are left out; the tokenizer is a given function and the cosine of two embeddings a given number.
- Ranking: reason strings and the trace lists other than vanished ids are left out; surface scores play no part in the source either. Ages and source records are given.
- Prompt bands: wording of lines, notes and the knowledge-base band is given, only their structure and length count.
- Drift: candidate pressure, contradictions and the core gate are separate detectors and left out, as are severities; the trend table refuses a measure that is no number because its columns are not nullable.
- Run states: the run store updates states unconditionally, so no law of absorbing states is stated for it.
