# FlowForge gateway: a verified model

FlowForge is a gateway between users who describe business processes and AI services that turn the
descriptions into workflows. Most of it moves data; a dozen places decide something that has to stay
right however requests, retries and caches fall. This project models those places in Dafny and proves
what they keep.

The database is a map or a sequence of rows per table, `Date.now()` is a clock value passed in, and
generated ids are fresh. Services that change rows and fields in place are classes whose methods change
the same fields in the same order; each method is proved equal to a transition function. What each request
leaves is stated of that function field by field, and the properties are proved of it over whole runs. Protocols whose steps interleave are state
machines over their database round trips. Expression code (conflict relation, CSV, diff, similarity,
page window, transition table) is functions.

| file | what it models |
|---|---|
| `Rules.dfy`, `RuleConflicts.dfy`, `RuleEngine.dfy`, `RuleSafety.dfy`, `RuleOperations.dfy`, `RulesService.dfy` | the rule engine: conflict check, mutations, bundle import, snapshots, both caches |
| `RuleContext.dfy`, `RuleCacheRace.dfy` | rules selected for a session; either cache when its query and its fill are separate steps |
| `WorkflowVersions.dfy`, `WorkflowsService.dfy` | workflow versioning: every interleaving of the round trips, and the requests one after the other |
| `ResultDelivery.dfy` | at-least-once delivery of AI results: subscriber loop, result handler, bounded window of handled keys, dead letters |
| `SessionFsm.dfy`, `SessionsService.dfy` | the session transition table and the services that drive or bypass it |
| `MessagePaging.dfy` | keyset pagination with truncated cursors |
| `AuditCsv.dfy` | the CSV export, read back by a reader of section 2 of RFC 4180 |
| `VersionDiff.dfy` | the element diff of two versions as a patch |
| `TokenAccounting.dfy` | clamped token and call counts of agents and pipelines |
| `DocumentQuota.dfy` | document versions and size limits |
| `SkillSearch.dfy` | cosine similarity and top-K search over exact reals |
| `OrgAdmins.dfy` | users of an organisation and the last-administrator guard |
| `ReviewProgress.dfy` | element approvals and the reported progress |
| `Common.dfy` | optional values, `filter`, the stable `sort`, and walks over finitely many places |

Properties one would expect but the code does not have are stated as what they are, each with the exact
condition under which it does hold:

- `currentVersion` is not always the highest version number: a save leaves it there exactly when the request
  held the top and nobody else committed a version since (`WorkflowVersions.InterleavedSaveKeepsTopIff`).
  Once it has fallen back, every version update of the workflow fails on the unique constraint
  (`WorkflowVersions.VersionUpdateSucceedsIff`).
- A run of the result handler that fails may leave its version behind, and will again when it is retried
  (`ResultDelivery.FailedRunAppendsIff`).
- Following page cursors does not always end (`MessagePaging.WalkEndsIff`): fifty messages in one
  millisecond, the first of them off its start, with more behind them, are served for ever. No message is
  skipped in any case.
- A value served from either rule cache can be stale when an invalidation falls between the query and the
  fill (`RuleCacheRace.ServedIsCurrentIff`); it is never older than the time to live plus the delay.
- A low similarity can send a validated, exported, archived or failed session back to an earlier stage
  (`SessionsService.LowSimilarityIff`).
- The diff of two versions is not always a patch (`VersionDiff.DiffIsPatchIff`).
- An event that reaches the agent's row alone, or moves an agent to another pipeline, can leave a pipeline's
  total above the sum over its agents (`TokenAccounting.HalfAnEventKeepsCoveredIff`,
  `MovedAgentKeepsCoveredIff`).
- Reprocessing checks no limit, so a session can exceed 200 MiB (`DocumentQuota.ReprocessMeetsLimitIff`).
- The last-administrator guard also refuses changes to administrators that are already revoked
  (`OrgAdmins.LastAdminRefusalNeededIff`).
- From 200 elements on, 100 percent is shown with one element missing (`ReviewProgress.HundredMeansDoneIff`).

## Model

| member | source | states |
|---|---|---|
| Rules.ContradictionIsSymmetric | src/modules/rules/rules.service.ts:628-671 | between rules of one type it does not matter which of the two was there first, for any conditions and instructions |
| Rules.ContradictionIsNotSymmetricAcrossTypes | src/modules/rules/rules.service.ts:602-612 | across types it matters: a concrete pair where only one direction conflicts, which is why an import can refuse what a creation accepts |
| Rules.OverlapIsSymmetric | src/modules/rules/rules.service.ts:628-642 | sharing a key with an equal value does not depend on whose keys are enumerated |
| Rules.PickFirstPicks | src/modules/rules/rules.service.ts:714-730 | the value compared is the trimmed string under the first listed key that holds a non-blank one, whatever the keys before it hold |
| Rules.FirstConflictFinds | src/modules/rules/rules.service.ts:602-616 | the search comes back empty exactly when no rule of the pool other than the excluded one contradicts the candidate |
| Rules.FindConflict | src/modules/rules/rules.service.ts:602-612 | the loop returns the first conflicting rule of the pool, or none |
| RuleConflicts.ContradictsIff | src/modules/rules/rules.service.ts:602-671 | what a conflict is: the conditions share something, and two mappings of one source that both name a target name different ones; two constraints on one structure that both name a mode, different modes; in every other case the instructions differ |
| RuleConflicts.PickIsNamed | src/modules/rules/rules.service.ts:714-730 | a text is picked exactly when the first listed key that holds a non-blank string holds it |
| RuleConflicts.OverlapIsShare | src/modules/rules/rules.service.ts:628-642 | both conditions are absent, or some key has equal values in both |
| RuleConflicts.TrimTrims | src/modules/rules/rules.service.ts:670 | trimming takes white space off both ends, and nothing else |
| RuleConflicts.LookupIsFirst | src/modules/rules/rules.service.ts:714-730 | the value under a key is that of the first field with the key |
| RuleEngine.PrefixSelectsRule | src/modules/rules/rules.service.ts:521-527 | the prefix test of the invalidation hits all keys of the rule and no key of any other rule |
| RuleEngine.SimulationKeyIsInjective | src/modules/rules/rules.service.ts:858-861 | two simulations share a cache key only if rule, agent and sample are the same |
| RuleSafety.CreateKeeps | src/modules/rules/rules.service.ts:78-107 | creating a rule keeps: no clashing active pair, coherent caches, one snapshot per version |
| RuleSafety.ReviseKeeps | src/modules/rules/rules.service.ts:190-215 | a new version of a rule that blocks nobody keeps the whole invariant and only extends histories |
| RuleSafety.ReadKeeps | src/modules/rules/rules.service.ts:499-515 | reading through the cache gives an answer of the direct query and leaves the cache coherent |
| RuleSafety.TestKeeps | src/modules/rules/rules.service.ts:413-454 | a simulation puts only a current result into the cache |
| RuleSafety.StageStagesWell | src/modules/rules/rules.service.ts:306-312 | the rules staged by an import clash neither with an active rule of the organisation nor with each other |
| RuleSafety.ImportKeeps | src/modules/rules/rules.service.ts:300-336 | an import keeps the whole invariant |
| RuleSafety.RefusedImportWritesNothing | src/modules/rules/rules.service.ts:303-317 | a refused import changes no rule, no snapshot and no simulation |
| RuleSafety.ImportRefusesIff | src/modules/rules/rules.service.ts:300-317 | exactly which bundles are refused: some item has a wrong scope, or contradicts an active rule of the organisation of any type and target, or an item before it; for a conflict exactly when the first such item has a right scope; every other bundle is imported whole |
| RuleSafety.CreateConflictIsRefused | src/modules/rules/rules.service.ts:306-312 | whatever a creation refuses for a conflict, an import refuses, in whatever bundle it stands |
| RuleSafety.StageStopsAt | src/modules/rules/rules.service.ts:306-312 | staging stops at the first item with anything wrong, with its error, and otherwise stages every candidate |
| RuleSafety.RunKeeps | src/modules/rules/rules.service.ts:78-336 | every run of requests by any callers keeps the invariant, and rules only grow new versions |
| RuleSafety.ReachableIsConflictFree | src/modules/rules/rules.service.ts:581-626 | in every reachable state no two active ACTOR_MAPPING or STRUCTURAL_CONSTRAINT rules with the same target conflict |
| RuleOperations.ReachableMappingsAgree | src/modules/rules/rules.service.ts:581-671 | in every reachable state, two active mappings at one spot that share something and name the same source name the same target, if any; the same for constraints, structures and modes |
| RuleOperations.CreateAnswers | src/modules/rules/rules.service.ts:78-107 | whom and what a creation refuses, with which error and without a trace, and every field of what it stores otherwise |
| RuleOperations.CreateRefusesOtherTarget | src/modules/rules/rules.service.ts:78-107 | a mapping of a source that an active rule at the spot maps to another target is refused, and nothing is stored |
| RuleOperations.BlockedIsInConflict | src/modules/rules/rules.service.ts:586-600 | a candidate is blocked exactly by another active rule of the same organisation, type, scope, agent and workflow that contradicts it |
| RuleOperations.ScopeErrorIs | src/modules/rules/rules.service.ts:732-756 | which scopes are wrong, and which error each gives |
| RuleOperations.UpdateAnswers | src/modules/rules/rules.service.ts:150-215 | an update stores exactly the fields its patch names, as the next version, recording the last; no change and a conflict leave no trace |
| RuleOperations.ToggleAnswers | src/modules/rules/rules.service.ts:217-256 | activating and deactivating change nothing of a rule's content but whether it is active; deactivating never conflicts |
| RuleOperations.DeleteAnswers | src/modules/rules/rules.service.ts:258-273 | a deletion keeps the rule, inactive, with a version more only if it was active |
| RuleOperations.ImportAnswers | src/modules/rules/rules.service.ts:300-336 | an import that succeeds stores one rule per item with what the item says, and leaves the stored rules, snapshots and simulations alone |
| RuleOperations.ListServedForAMinute | src/modules/rules/rules.service.ts:499-515 | a fetched list is served for a minute, and not after |
| RuleOperations.SimulationServedForFiveMinutes | src/modules/rules/rules.service.ts:413-454 | a test gives the endpoint's answers with and without the rule, served for five minutes and not after |
| RuleOperations.TestAnswers | src/modules/rules/rules.service.ts:413-454 | a test of a rule that is not the organisation's is refused, and no test changes a table or a list |
| RuleOperations.AnswersAreOrdered | src/modules/rules/rules.service.ts:506-509 | lists come by priority, and among equals the last changed first |
| RuleSafety.ReachableReadIsCurrent | src/modules/rules/rules.service.ts:499-519 | in every reachable state and at any clock, a cached read is what the database would answer now |
| RuleSafety.CachedSimulationIsCurrent | src/modules/rules/rules.service.ts:413-454 | an entry of the simulation cache is what simulating the current version would give |
| RuleSafety.ReachableTestIsCurrent | src/modules/rules/rules.service.ts:413-454 | in every reachable state, a test answers with the simulation of the rule's current version, cached or not |
| RuleSafety.SnapshotsRecordEveryPastState | src/modules/rules/rules.service.ts:768-778 | over every run cut anywhere: one snapshot per version, consecutive versions differ, the snapshot of a version is the state the rule had, and the other fields never change |
| RulesService.Service.Query | src/modules/rules/rules.service.ts:590-600 | each matching rule once, by priority |
| RulesService.Service.EnsureNoConflict | src/modules/rules/rules.service.ts:581-626 | without a pool it reports a rule exactly when a stored one clashes; with a pool exactly when the import check fails |
| RulesService.Service.InvalidateRuleSimulationCache | src/modules/rules/rules.service.ts:521-527 | the deletion loop removes exactly the entries under the rule's prefix |
| RulesService.Service.Create | src/modules/rules/rules.service.ts:78-107 | the method is the transition of the engine and keeps its invariant |
| RulesService.Service.Update | src/modules/rules/rules.service.ts:150-215 | the same for an update, including its no-change and conflict exits |
| RulesService.Service.Activate | src/modules/rules/rules.service.ts:217-236 | the same for an activation |
| RulesService.Service.Deactivate | src/modules/rules/rules.service.ts:238-256 | the same for a deactivation |
| RulesService.Service.SoftDelete | src/modules/rules/rules.service.ts:258-273 | the same for a deletion, which only deactivates |
| RulesService.Service.GetCachedActiveRules | src/modules/rules/rules.service.ts:499-515 | the list returned is an answer of the query, from the cache or not |
| RulesService.Service.StageBundle | src/modules/rules/rules.service.ts:306-312 | the loop stages all rules of the bundle or reports the first error |
| RulesService.Service.ImportRules | src/modules/rules/rules.service.ts:300-336 | the method is the import of the engine with the list it read; all of the bundle is saved or nothing |
| RulesService.Service.TestRule | src/modules/rules/rules.service.ts:413-454 | the method is the test of the engine and keeps the invariant |
| RuleContext.ContextSelectionIsExact | src/modules/rules/rules.service.ts:477-497 | in every reachable state the selection is exactly the active rules that match scope and condition, each once, by priority; the final sort moves nothing |
| RuleContext.ScopeMatchesIff | src/modules/rules/rules.service.ts:529-539 | a rule with a workflow applies to that one alone; one without to all, unless its scope demands one |
| RuleContext.EntryMatchesIff | src/modules/rules/rules.service.ts:541-565 | an entry matches when context and condition have a value in common, each taken as a list, or are equal objects |
| RuleContext.ConditionMatchesIff | src/modules/rules/rules.service.ts:541-565 | a condition matches when each of its entries does |
| RuleCacheRace.ServedIsRecent | src/modules/rules/rules.service.ts:499-527 | for either cache, in every interleaving of queries, fills, commits and invalidations: a served value was true less than the time to live plus the longest delay ago |
| RuleCacheRace.ServedListIsRecent | src/modules/rules/rules.service.ts:499-515 | for the list of active rules that is a minute and the duration of the query |
| RuleCacheRace.ServedSimulationIsRecent | src/modules/rules/rules.service.ts:413-454 | for a simulation that is five minutes and the time the endpoint takes |
| RuleCacheRace.CacheIsFilled | src/modules/rules/rules.service.ts:499-515 | what is in the cache is the answer of the query that filled it |
| RuleCacheRace.StoredIsServed | src/modules/rules/rules.service.ts:500-514 | a stored answer is served until its time to live is over, and not after |
| RuleCacheRace.ServedIsCurrentIff | src/modules/rules/rules.service.ts:499-527 | over whole runs, a served value is the current one exactly when nothing was committed since the query that filled the entry (committed values taken to differ from those before) |
| RuleCacheRace.ServedCanBeStale | src/modules/rules/rules.service.ts:499-519 | an instance of the failing case, however short the delay: the invalidation comes before the fill |
| WorkflowVersions.AnyInterleavingIsSafe | src/modules/workflows/workflows.service.ts:140-219 | in every interleaving of any requests: version numbers are exactly 1..max, currentVersion never exceeds max, no committed version is lost or renumbered, the trigger never raises |
| WorkflowVersions.StepPreserves | src/modules/ai-gateway/handlers/generation-complete.handler.ts:83-94 | one round trip of one request keeps the store consistent and what its own request relies on |
| WorkflowVersions.FreeNumberIsNext | src/database/migrations/1700000000000-InitDatabaseSchema.ts:101 | among the numbers up to max+1 the unique constraint lets in exactly max+1 |
| WorkflowVersions.SerialRequestIsClean | src/modules/workflows/workflows.service.ts:31-66 | from an up-to-date store a request alone ends, leaves currentVersion at max for every workflow and meets no constraint |
| WorkflowVersions.SerialRunsStayUpToDate | src/modules/workflows/workflows.service.ts:221-246 | serial runs of any length keep currentVersion at the highest version number, and no request of the run meets the unique constraint or the trigger |
| WorkflowVersions.VersionUpdateSucceedsIff | src/modules/workflows/workflows.service.ts:169-195 | in any store an interleaving can leave, a version update alone succeeds exactly when currentVersion equals the highest number; otherwise it fails on the unique constraint and changes nothing |
| WorkflowVersions.SaveLeavesTopIff | src/modules/workflows/workflows.service.ts:193-197 | the save step of any request, in any store an interleaving can leave, leaves currentVersion at the highest number exactly when the number it holds is the number of rows |
| WorkflowVersions.LoadedAtTopIff | src/modules/workflows/workflows.service.ts:147-156 | a request that has just loaded its workflow holds the top exactly when the stored number is there |
| WorkflowVersions.InterleavedSaveKeepsTopIff | src/modules/workflows/workflows.service.ts:140-246 | over every interleaving: a save leaves currentVersion at the top exactly when the request held the top and no other request has committed a version of that workflow since |
| WorkflowVersions.StaleSaveSetsVersionBack | src/modules/workflows/workflows.service.ts:193-197 | an instance of the failing case: an archive around a version update sets currentVersion back by one, and every later version update of that workflow fails |
| WorkflowsService.SeriallyIsLone | src/modules/workflows/workflows.service.ts:314-351 | the round trips of each request, uninterrupted, come to one closed effect on the store |
| WorkflowsService.DidServes | src/modules/workflows/workflows.service.ts:31-351 | a store served request by request stays consistent, loses nothing, and while up to date stays so and meets no constraint |
| WorkflowsService.CreateLeaves | src/modules/workflows/workflows.service.ts:31-66 | a creation starts the workflow as a draft at version 1 with an empty object, and changes no other |
| WorkflowsService.UpdateLeaves | src/modules/workflows/workflows.service.ts:140-219 | whom an update refuses; what of title and status it changes; and with elements, that they become the caller's version n + 1 |
| WorkflowsService.ArchiveLeaves | src/modules/workflows/workflows.service.ts:221-246 | nothing but the status changes |
| WorkflowsService.DuplicateLeaves | src/modules/workflows/workflows.service.ts:314-351 | a copy is the caller's draft with exactly one version, numbered 1, whose elements are those of a source version no other has a higher number than, or an empty object without any |
| WorkflowsService.ResultLeaves | src/modules/ai-gateway/handlers/generation-complete.handler.ts:83-94 | a result becomes version n + 1 by the session's user, and the workflow waits for review |
| WorkflowsService.Service.Create | src/modules/workflows/workflows.service.ts:31-66 | the method has exactly the effect of the request run alone |
| WorkflowsService.Service.Update | src/modules/workflows/workflows.service.ts:140-219 | the same for an update, with and without a version, and its three refusals |
| WorkflowsService.Service.CommitNextVersion | src/modules/workflows/workflows.service.ts:169-191 | the transaction appends version max+1 and counts it, or changes nothing |
| WorkflowsService.Service.Archive | src/modules/workflows/workflows.service.ts:221-246 | the same for an archive |
| WorkflowsService.Service.Duplicate | src/modules/workflows/workflows.service.ts:314-351 | the same for a copy, which starts with the source's latest elements |
| WorkflowsService.Service.ApplyResult | src/modules/ai-gateway/handlers/generation-complete.handler.ts:194-216 | the same for the version step of an AI result |
| ResultDelivery.MarkKeepsWindow | src/modules/ai-gateway/handlers/generation-complete.handler.ts:349-355 | marking a new result keeps the set equal to the keys of the last 10000 completed, and completions of one task more than 10000 apart |
| ResultDelivery.KeysAgreeIff | src/modules/ai-gateway/handlers/generation-complete.handler.ts:341-343 | two results have the same key exactly when their correlation ids are equal |
| ResultDelivery.HandledIff | src/modules/ai-gateway/handlers/generation-complete.handler.ts:345-347 | a key is in the window exactly when its correlation id is one of the last 10000 completed |
| ResultDelivery.EnrichedNames | src/modules/ai-gateway/ai-gateway.subscriber.service.ts:196-226 | which task and which pipeline a result without them is taken to answer |
| ResultDelivery.PlacedIsLocated | src/modules/ai-gateway/handlers/generation-complete.handler.ts:69-81 | the rows a result needs: its session, the session's workflow, and a pipeline of that session |
| ResultDelivery.CompletedIsApplied | src/modules/ai-gateway/handlers/generation-complete.handler.ts:78-173 | a completed result leaves the session user's next version, the workflow at it and waiting for review, the session a draft, the pipeline completed, a message, and nothing else changed |
| ResultDelivery.DeliveryLeaves | src/modules/ai-gateway/handlers/generation-complete.handler.ts:50-174 | over every schedule: a result whose task is none of the last 10000 completed is applied and logged, if its rows are there, its session can take it and no write fails; one whose task is among them changes nothing |
| ResultDelivery.ThirdFailureLeaves | src/modules/ai-gateway/handlers/retry-exhausted.handler.ts:22-63 | a third failure is recorded among the dead letters and fails the pipeline the message names |
| ResultDelivery.DuplicateChangesNothingIff | src/modules/ai-gateway/handlers/generation-complete.handler.ts:50-52 | in every state a schedule reaches, a delivery is acknowledged and leaves the gateway as it was exactly when its correlation id is one of the last 10000 completed; log and dead letters stay too |
| ResultDelivery.HandleAppendsAtMostOne | src/modules/ai-gateway/handlers/generation-complete.handler.ts:50-174 | whichever write fails: a completed new result appends exactly one version and marks its key, a failed run appends at most one and marks nothing, and numbers stay 1..n |
| ResultDelivery.HandleStaysUpToDateIff | src/modules/ai-gateway/handlers/generation-complete.handler.ts:83-94 | currentVersion falls behind exactly when the version row is written and the write of the workflow row fails |
| ResultDelivery.FailedRunAppendsIff | src/modules/ai-gateway/handlers/generation-complete.handler.ts:83-98 | exactly when a run that is no duplicate appends, when it completes, and when it fails and leaves its version behind; a session that cannot take the result does so on every run, and saves and marks nothing else |
| ResultDelivery.DeliverKeeps | src/infra/nats/nats.client.ts:110-149 | each delivery keeps the protocol's invariant and lowers the sum of remaining attempts |
| ResultDelivery.EveryMessageSettles | src/infra/nats/nats.client.ts:110-149 | over every schedule with any failures: at most three runs per message; terminated and dead-lettered exactly once precisely when the third run failed, acknowledged precisely when the last run succeeded; the version rows added are the sum of what the messages appended, at most three each, and are one for each completed result and what failed runs left behind; a schedule cannot go on exactly when no attempt remains, and then every message is one or the other |
| ResultDelivery.WindowIsRecentLog | src/modules/ai-gateway/handlers/generation-complete.handler.ts:341-355 | over every schedule the handled keys are exactly those of the last 10000 completed correlation ids, and equal ids are more than 10000 completions apart |
| ResultDelivery.MarkHandled | src/modules/ai-gateway/handlers/generation-complete.handler.ts:349-355 | the set keeps insertion order, and its oldest key goes when there are more than 10000; the same in all three handlers |
| ResultDelivery.Subscriber.HandleResult | src/modules/ai-gateway/handlers/generation-complete.handler.ts:50-174 | the method, write by write, is the handler of the protocol |
| ResultDelivery.Subscriber.SaveResultRows | src/modules/ai-gateway/handlers/generation-complete.handler.ts:92-173 | the same from the version row on, whichever write fails |
| ResultDelivery.Subscriber.OnExhausted | src/modules/ai-gateway/handlers/retry-exhausted.handler.ts:22-63 | the pipeline named by the payload is failed and the payload recorded |
| ResultDelivery.Subscriber.Consume | src/infra/nats/nats.client.ts:110-149 | the loop acknowledges, delays or terminates each delivery as the protocol says |
| SessionFsm.TableIsNext | src/modules/sessions/session-fsm.ts:28-137 | the lookup in the table, for every status, event and mode, is the intended transition function |
| SessionFsm.RowIsNext | src/modules/sessions/session-fsm.ts:28-118 | no two rows of the table disagree for a status, event and mode |
| SessionFsm.CanTransitionToIff | src/modules/sessions/session-fsm.ts:139-150 | the reachability test holds exactly when some event leads from one status to the other |
| SessionFsm.RunsAreMonotone | src/modules/sessions/session-fsm.ts:28-118 | along every run, mode changes included, a session never goes back to an earlier stage |
| SessionFsm.StagesInOrder | src/modules/sessions/session-fsm.ts:28-118 | the order of the stages |
| SessionFsm.ExportNeedsReview | src/modules/sessions/session-fsm.ts:78-94 | every run from created to exported ends with enter_review, validate, export_completed |
| SessionFsm.AutoNeverElicits | src/modules/sessions/session-fsm.ts:28-70 | a session in automatic mode throughout is never in elicitation |
| SessionsService.GentleOperationRefines | src/modules/sessions/sessions.service.ts:103-269 | every service operation without force and without low similarity is a sequence of accepted table steps |
| SessionsService.GentleRunsAreOrderly | src/modules/sessions/sessions.service.ts:103-269 | runs of such operations are monotone and keep automatic sessions out of elicitation; a session is exported only by its last three changes of status, which are the overrides to in_review, validated and exported, in that order |
| SessionsService.EnteredByOverride | src/modules/sessions/sessions.service.ts:242-269 | these statuses are entered by no other operation, and each from the one before it only |
| SessionsService.LowSimilarityIff | src/modules/ai-gateway/handlers/divergence-result.handler.ts:38-48 | the direct write is a step of the table exactly from draft_ready, and goes back exactly from validated, exported, archived or failed |
| SessionsService.DatesSurviveEverything | src/modules/sessions/sessions.service.ts:211-256 | in all runs, forced ones included: archived implies archivedAt, and archivedAt and finalizedAt are never cleared |
| SessionsService.ServeTouchesOneSession | src/modules/sessions/sessions.service.ts:271-301 | a request reaches only the named session, and only within the caller's organisation |
| SessionsService.EffectLeaves | src/modules/sessions/sessions.service.ts:88-269 | the status, mode and dates each operation leaves, or why it fails: a published dispatch leaves processing from created, awaiting_input and in_elicitation and any other session as it was |
| SessionsService.RequestLeaves | src/modules/sessions/sessions.service.ts:88-307 | who may not, in which order; otherwise exactly the named session becomes what the operation leaves, and a failure changes nothing |
| SessionsService.LeadsIs | src/modules/sessions/session-fsm.ts:139-150 | from which statuses each status can be reached, in which mode |
| SessionsService.Service.Finalize | src/modules/sessions/sessions.service.ts:103-134 | the method changes the session as the operation says, or reports the error and changes nothing |
| SessionsService.Service.DispatchAiTask | src/modules/sessions/sessions.service.ts:161-209 | the same for a dispatch, two transitions from created |
| SessionsService.Service.Archive | src/modules/sessions/sessions.service.ts:211-240 | the same for an archive |
| SessionsService.Service.OverrideStatus | src/modules/sessions/sessions.service.ts:242-269 | the same for an administrator's override, forced or not |
| SessionsService.Service.UpdateMode | src/modules/sessions/sessions.service.ts:88-101 | the same for a mode change |
| SessionsService.Service.ApplyDivergence | src/modules/ai-gateway/handlers/divergence-result.handler.ts:38-48 | a similarity below the threshold writes the status, anything else writes nothing |
| MessagePaging.CursorCuts | src/modules/messages/utils/message-query.util.ts:27-38 | the cursor clause cuts the ordered list in two: exactly a tail of it remains |
| MessagePaging.PageIsSlice | src/modules/messages/services/messages.service.ts:63-84 | a page is the next fifty messages after the cut, with a cursor exactly when more follow |
| MessagePaging.NothingIsSkipped | src/modules/messages/utils/message-pagination.util.ts:47-72 | whatever the timestamps, after any number of requests every message has been delivered or still comes after the cursor |
| MessagePaging.AlignedWalkIsTheList | src/modules/messages/services/messages.service.ts:63-84 | with millisecond timestamps the pages are the sorted list, each message once, in exactly max(1, ceil(n/50)) requests |
| MessagePaging.PageAdvancesIff | src/modules/messages/utils/message-pagination.util.ts:58-71 | a page gets the client further exactly when its cursor leaves its own first message behind |
| MessagePaging.StuckWalkIsHeldBack | src/modules/messages/utils/message-pagination.util.ts:58-71 | a page whose cursor lets its own first message through again, and that starts off the millisecond, holds every walk back for ever |
| MessagePaging.FreeWalkEnds | src/modules/messages/services/messages.service.ts:63-84 | whatever the timestamps: without such a page following cursors ends, and a walk that ends has delivered every message |
| MessagePaging.WalkEndsIff | src/modules/messages/utils/message-pagination.util.ts:47-72 | with no assumption on timestamps or ids, following cursors ends exactly when no page the client asks for has a cursor that lets its own first message through again and starts off the millisecond, and none that starts on the millisecond is asked for twice; a walk that ends does so within n + 1 requests |
| MessagePaging.WalkOffMillisecondsEndsIff | src/modules/messages/utils/message-pagination.util.ts:58-71 | when no such page starts on the millisecond, exactly when no fifty messages of one millisecond, the first of them off its start, are followed by more |
| AuditCsv.RowsReadBack | src/modules/audit/audit.service.ts:222-241 | for all field contents, quotes, commas and line breaks included, the reader recovers the header and every row |
| AuditCsv.ExportReadsBack | src/modules/audit/audit.service.ts:209-242 | the export of any entries is read back as the header and one row per entry |
| AuditCsv.FieldReads | src/modules/audit/audit.service.ts:339-342 | an escaped field is read as its value, whatever ends it |
| AuditCsv.ExportTells | src/modules/audit/audit.service.ts:209-242 | the reader of an export finds, in order, one record per entry with each of its fields under the column of that name |
| AuditCsv.RowsAgreeIff | src/modules/audit/audit.service.ts:327-337 | two entries give the same row exactly when they agree up to null and empty, and up to a structure and the text that spells it |
| AuditCsv.ExportsAgreeIff | src/modules/audit/audit.service.ts:209-242 | two exports are the same text exactly when they are the same entries up to those spellings |
| VersionDiff.DiffIsPatchIff | src/modules/workflows/workflows.service.ts:297-311 | applying the diff to the first version gives the second exactly when every element that is unchanged is the only one of its id in the second |
| VersionDiff.DiffIsPatch | src/modules/workflows/workflows.service.ts:297-311 | in particular when the ids of the second version identify its elements, whatever the first one holds |
| VersionDiff.DiffIsEmptyIff | src/modules/workflows/workflows.service.ts:297-311 | there is nothing to report exactly when both versions hold the same elements |
| VersionDiff.DiffReversed | src/modules/workflows/workflows.service.ts:297-311 | the other way round, added and removed change places and the same ids are modified |
| VersionDiff.EachIdIsReportedOnce | src/modules/workflows/workflows.service.ts:303-309 | which of the three lists an id is in, for every id |
| VersionDiff.ElementsAreReportedOften | src/modules/workflows/workflows.service.ts:303-309 | which elements each list holds, and how often |
| VersionDiff.ComputeDiffAnswers | src/modules/workflows/workflows.service.ts:277-312 | the request fails exactly when the workflow or a version is missing; its answer is a patch exactly under that condition |
| VersionDiff.OnlyListsAreRead | src/modules/workflows/workflows.service.ts:371-375 | only a list stored under the elements counts; anything else is read as a version without elements |
| VersionDiff.DuplicateIdsMislead | src/modules/workflows/workflows.service.ts:305-309 | an instance of the failing case: an element kept, and another added under its id |
| TokenAccounting.HandleKeepsLevelIff | src/modules/ai-gateway/handlers/stream-token.handler.ts:69-76 | an event keeps pipeline and agents level exactly when its agent's clamp does not bite, or that agent held the whole total |
| TokenAccounting.HandleKeepsCovered | src/modules/ai-gateway/handlers/stream-token.handler.ts:24-107 | one attempt, complete or stopped half-way without a negative delta, keeps every pipeline's total within the sum over its agents |
| TokenAccounting.TotalsStayCovered | src/modules/ai-gateway/handlers/stream-token.handler.ts:24-107 | over any sequence of signed deltas and duplicates the totals, tokens and calls, never exceed the sums |
| TokenAccounting.TotalsStayLevel | src/modules/ai-gateway/handlers/stream-token.handler.ts:69-76 | and are equal as long as no negative delta came for that pipeline |
| TokenAccounting.HalfAnEventKeepsCoveredIff | src/modules/ai-gateway/handlers/stream-token.handler.ts:81-98 | an event written to the agent alone keeps a level pipeline covered, tokens and calls, exactly when it takes nothing away or the agent had nothing |
| TokenAccounting.MovedAgentKeepsCoveredIff | src/modules/ai-gateway/handlers/stream-token.handler.ts:39-81 | an agent id reused for another pipeline leaves the old one covered, tokens and calls, exactly when it had nothing there |
| TokenAccounting.Handler.HandleProgress | src/modules/ai-gateway/handlers/stream-token.handler.ts:24-107 | the method is the transition on both rows and the handled keys |
| TokenAccounting.EventLeaves | src/modules/ai-gateway/handlers/stream-token.handler.ts:67-98 | one new event: the agent's and the pipeline's counter become the larger of 0 and the count plus the delta, an absent delta leaves them, a failed agent pauses the pipeline, and no other agent or pipeline changes |
| TokenAccounting.AgentRowLeaves | src/modules/ai-gateway/handlers/stream-token.handler.ts:39-81 | the agent's row names the event's pipeline and status |
| TokenAccounting.MovedAgentStartsOver | src/modules/ai-gateway/handlers/stream-token.handler.ts:39-74 | an agent that was registered under another pipeline starts over from 0 |
| TokenAccounting.NotNewLeaves | src/modules/ai-gateway/handlers/stream-token.handler.ts:24-37 | a handled event is acknowledged and any other that is not new fails, without a trace |
| TokenAccounting.AgentCountsItsEvents | src/modules/ai-gateway/handlers/stream-token.handler.ts:67-74 | over runs: an agent ends with what it had and the sum of its events' deltas, if none is negative, tokens and calls |
| TokenAccounting.PipelineCountsItsEvents | src/modules/ai-gateway/handlers/stream-token.handler.ts:67-74 | and a pipeline with what it had and the sum of its completed events' deltas |
| DocumentQuota.VersionsAreNumbered | src/modules/documents/services/documents.service.ts:282-292 | in every serial run the versions of a file name in a session are exactly 1..n, each once, in the order stored |
| DocumentQuota.MaxIsCount | src/modules/documents/services/documents.service.ts:282-292 | the highest version is the number of rows of that name, deleted ones included |
| DocumentQuota.UploadMeetsLimitIff | src/modules/documents/services/documents.service.ts:60-79 | an accepted upload leaves at most 200 MiB; one is refused as too much exactly when it would leave more |
| DocumentQuota.ReprocessMeetsLimitIff | src/modules/documents/services/documents.service.ts:203-236 | reprocessing keeps the limit exactly when there happens to be room |
| DocumentQuota.BytesAfterServe | src/modules/documents/services/documents.service.ts:271-280 | a row's size goes to its session and no other; deleting frees nothing |
| DocumentQuota.SessionsStayWithinLimits | src/modules/documents/utils/document-size.util.ts:8-25 | in every run a session holds at most 200 MiB and 50 MiB per reprocessing since its last accepted upload |
| DocumentQuota.UploadLeaves | src/modules/documents/services/documents.service.ts:51-108 | why an upload is refused, in which order; otherwise every field of the row it stores, and no other row changes |
| DocumentQuota.ReprocessLeaves | src/modules/documents/services/documents.service.ts:203-236 | a visible session document is stored once more as the next version of its name |
| DocumentQuota.DeleteLeaves | src/modules/documents/services/documents.service.ts:120-128 | a visible document is marked and no longer visible; no other changes |
| DocumentQuota.Service.UploadDocument | src/modules/documents/services/documents.service.ts:51-108 | the method is the transition, with its six refusals in order |
| DocumentQuota.Service.SoftDeleteDocument | src/modules/documents/services/documents.service.ts:120-128 | the method is the transition |
| DocumentQuota.Service.ReprocessDocument | src/modules/documents/services/documents.service.ts:203-236 | the method is the transition |
| SkillSearch.CauchySchwarz | src/modules/skills/services/skills.service.ts:562-571 | the squared dot product is at most the product of the squared norms, for vectors of any length |
| SkillSearch.SimilarityInRange | src/modules/skills/services/skills.service.ts:562-571 | the similarity of any two vectors lies in [-1, 1] |
| SkillSearch.SimilarityIsSymmetric | src/modules/skills/services/skills.service.ts:562-571 | the similarity does not depend on the order of its arguments |
| SkillSearch.SelfSimilarity | src/modules/skills/services/skills.service.ts:562-571 | a vector's similarity to itself is 1, or 0 for a null vector |
| SkillSearch.SimilarityIs | src/modules/skills/services/skills.service.ts:562-571 | the similarity times the two magnitudes is the product, and the magnitudes squared are the norms; 0 for other lengths and for null vectors |
| SkillSearch.DotWithUnit | src/modules/skills/services/skills.service.ts:565 | the product with a unit vector is that component |
| SkillSearch.DotIsLinear | src/modules/skills/services/skills.service.ts:565 | and it is linear, which determines it |
| SkillSearch.QualifyingIff | src/modules/skills/services/skills.service.ts:237-243 | which hits qualify: embedded skills with their own similarity and enough of it |
| SkillSearch.HitsAreEmbeddedSkills | src/modules/skills/services/skills.service.ts:237-242 | every embedded skill is a hit, as often as it is answered and in that order, and no other is |
| SkillSearch.SearchIsBest | src/modules/skills/services/skills.service.ts:237-252 | a search answers, descending, the min(K, qualifying) best: no qualifying skill left out beats one returned |
| SkillSearch.TiesKeepTheirOrder | src/modules/skills/services/skills.service.ts:231-244 | among equals the order of the query, most used first, is kept |
| SkillSearch.RetrievalIsBest | src/modules/skills/services/skills.service.ts:475-498 | the retrieval answers the best of all embedded skills; it is a search with the lowest minimum |
| OrgAdmins.RunKeeps | src/modules/organizations/organizations.service.ts:34-147 | in every serial run an organisation with an active administrator keeps one, addresses stay unique whatever their case, revoked users hold no live token |
| OrgAdmins.RunTouchesCallersOrgsOnly | src/modules/organizations/organizations.service.ts:128-135 | a run whose callers are of other organisations leaves an organisation's users as they were |
| OrgAdmins.LastAdminIsKept | src/modules/organizations/organizations.service.ts:137-147 | a change that would take the last active administrator is refused and changes nothing |
| OrgAdmins.LastAdminRefusalNeededIff | src/modules/organizations/organizations.service.ts:137-147 | a refused change would have left no active administrator exactly when there was none or the user is the active one |
| OrgAdmins.InviteLeaves | src/modules/organizations/organizations.service.ts:34-79 | an invitation is refused exactly when the address is taken in whatever case; otherwise it joins in lower case, active, not verified, a viewer unless a role is named |
| OrgAdmins.UpdateRoleLeaves | src/modules/organizations/organizations.service.ts:81-104 | when a change of role is refused; otherwise the user has the new role and nothing else changes |
| OrgAdmins.RevokeLeaves | src/modules/organizations/organizations.service.ts:106-126 | when a revocation is refused; otherwise the user is inactive and exactly its tokens are revoked besides those that were |
| OrgAdmins.Service.InviteUser | src/modules/organizations/organizations.service.ts:34-79 | the method is the transition |
| OrgAdmins.Service.UpdateUserRole | src/modules/organizations/organizations.service.ts:81-104 | the method is the transition |
| OrgAdmins.Service.RevokeUser | src/modules/organizations/organizations.service.ts:106-126 | the method is the transition, tokens included |
| ReviewProgress.ProgressNeverFalls | src/modules/comments/services/comments.service.ts:418-575 | over any sequence of approvals of one version the reported total is fixed and neither the approved count nor the percentage falls; a report that fails goes on failing |
| ReviewProgress.BulkCompletes | src/modules/comments/services/comments.service.ts:545-556 | bulk approval without ids approves every element and gives 100 whenever one is shown |
| ReviewProgress.HundredMeansDoneIff | src/modules/comments/services/comments.service.ts:447-451 | 100 percent means that all is approved exactly as long as fewer than 200 elements are shown |
| ReviewProgress.HundredIff | src/modules/comments/services/comments.service.ts:451 | 100 is shown exactly when what is missing is at most half a percent |
| ReviewProgress.PercentageIsNearestIff | src/modules/comments/services/comments.service.ts:451 | the reported percentage is the nearest whole number, halves upwards, and no other number is |
| ReviewProgress.AllApprovedIff | src/modules/comments/services/comments.service.ts:444-450 | the counts agree exactly when every element that is not archived is approved |
| ReviewProgress.ReportIs | src/modules/comments/services/comments.service.ts:418-458 | the report counts the elements that are not archived, and those of them that are approved |
| ReviewProgress.ApprovalLeaves | src/modules/comments/services/comments.service.ts:460-575 | why an approval is refused; otherwise it marks exactly the elements it names, with who and when |
| ReviewProgress.BulkReportsNewlyApproved | src/modules/comments/services/comments.service.ts:545-574 | with distinct ids and none asked for, the reported number is that of the elements newly approved |
| ReviewProgress.Service.ApproveElement | src/modules/comments/services/comments.service.ts:460-511 | the method is the transition |
| ReviewProgress.Service.BulkApproveElements | src/modules/comments/services/comments.service.ts:513-575 | the loop approves exactly the targeted elements and reports how many they are |
| StableSort.SortIsStable | src/modules/skills/services/skills.service.ts:244 | elements that compare equal come out in the order they went in |

## Left out

- Controllers, validation of request bodies, guards, interceptors, authentication and sockets: decided branch by branch by the framework.
- Object storage, HTTP calls, PDF rendering, real-time notifications, seeds and health checks: input and output.
- Audit rows: taken to be written; a failing audit write is not modelled. The writes after the message row of the result handler (audit, publications, graph snapshots, report) count as one write that may fail.
- Floating point: similarities, confidences and percentages are exact; a square root is a parameter that squares back.
- JSON, base64, SHA-256, date texts and lower-casing are parameters or data: equality of JSON values is equality of their text, with the key order as written. Postgres reorders the keys of stored jsonb, which the rule conditions of the model do not.
- Rule numbers in JSON conditions are exact reals.
- The payload of a conflict error and the event it emits: which rule is named is modelled by `Rules.FindConflict` only.
- A refused import may have filled the active-rule cache; `RuleSafety.RefusedImportWritesNothing` is about tables and simulations.
- Several gateway processes: each has its own caches and handled keys; the model has one process.
- Rule requests are atomic apart from the cache races of `RuleCacheRace`; two activations that interleave are not modelled.
- Partial failure of a rule request: every write of a rule request is taken to succeed.
- Workflow fields that versioning does not touch (description, domain, tags, project), and `elsa_json`, confidence and audit of a version.
- WorkflowsService.Service.Update: the update event published after a version update is not modelled.
- Deleting workflows: there is no such request in the services modelled.
- A payload that carries its own `version_number`: the results the subscriber builds never do.
- Deliveries to one subscriber are serial, and delivery counts rise by one from 1; acknowledgements are taken to arrive and the dead-letter step to succeed.
- The progress handler is modelled for itself; the subscription at present does not call it.
- The divergence handler's report row and its own window of handled keys: the window is the one of `ResultDelivery`.
- Archiving a session also dates its messages, documents and pipelines; those rows are not part of this model.
- Sessions: requests are served one after the other. The services modelled are the only writers of a session's status; most events of the table (questions, answers, review, export) are fired by none of them and reached only through an administrator's override.
- Full-text and type filters of messages: the model pages through whatever list of messages the request may see. Messages written while a client is paging are not modelled.
- Concurrent uploads, approvals and user changes: these services are modelled request after request.
- Document text extraction, listing and presigned addresses; publishing the preprocessing request, which may fail after the row is stored.
- Skill creation, import and the ACTOR_CATALOG rule: an import indexes skills and embeddings differently after a rejected item, and reactivation skips the uniqueness check, so the intended invariants do not hold as written.
- Registration, log-in and other writers of users: only invitations, role changes and revocations are modelled. An invited administrator counts as active before the invitation is accepted, as in the code.
- Elements that are not stored as a list: new workflows store an object, on which the progress and approval requests throw; the model reports that as a failure.
- Comments, replies, assignments and the notifications they cause.
