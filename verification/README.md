# Verification model of the news publisher

A Dafny model of a durable news publisher: a bot that finds news, drafts an article with the help of
AI providers, lets an administrator or a schedule approve it, and posts it to a Telegram channel. What
makes it hard is that processes die and overlap at any await while a few SQL functions are the only
atomic steps. The project states what that code keeps in every run and proves it.

How the model is built:

- **Protocols** (publication, schedule, job claims, `/news` requests) are transition systems or classes
  whose every database call is one atomic step that reproduces its SQL function. A call may be applied
  and answered, applied with its answer lost, or not applied (`Wrappers.Delivery`). Theorems quantify
  over all traces.
- **Code with loops and state** is imperative Dafny. A method that awaits something takes a script of
  turns: what others do meanwhile, and how its own call ends. Every script is allowed, so a postcondition
  speaks about every interleaving with the others. `PublishApprovedDraft` and `ExecuteClaim` are proved
  to move exactly as their protocols' processes do, so the protocol theorems are about that code.
- **Foreign code** (models, search, HTTP, Telegram, clocks, randomness) is an oracle or a parameter.
  Unicode normalisation, collation and regular expressions over texts are function parameters; SHA-256
  is idealised as injective; JavaScript numbers are integers and reals with the rounding written out.

| file | what it models |
|---|---|
| `Wrappers`, `Lists`, `Sorting` | shared types and list facts |
| `ExcludedTopics`, `BoundedPool`, `ExcludedTopicPolicy` | the classifier's answer, the bounded pool, the policy over a list |
| `PublicationStore`, `PublicationProtocol`, `PublicationSafety`, `PublicationReturns`, `PublicationBlocks`, `PublicationDiscipline`, `PublishApprovedDraft` | publishing one draft |
| `ScheduleProtocol`, `ScheduleSafety`, `ExecuteClaim` | the scheduler |
| `NewsRequest`, `RequestOverlap`, `Resumption` | the `/news` request and its checkpoint; runs of it that overlap; how it and the scheduler take up drafts that were left behind |
| `NewsJobsStore`, `NewsJobsSafety`, `RunTelegramNewsJob` | the job table, one job run and its heartbeat |
| `PipelineLease` | the lease around the pipeline |
| `UpdateLedger`, `PollTelegram` | the update cursor |
| `ProviderErrors`, `AiFallback` | the AI fallback engine |
| `EditorialSimilarity`, `EvidenceMatching`, `EditorialEnrichment` | the editorial pass |
| `CandidateScore`, `CandidateRanking`, `NewsCuration`, `FairRanking`, `StoryDeduplication`, `ResearchSelection` | from candidates to one selected article |
| `SettingsFence`, `LabsFence`, `CallbackText`, `CallbackCodecs` | the bot's settings and its buttons |

Findings about the code, each with inputs on which it occurs and the exact condition:

- A publisher that is told "Telegram rejected the message" although it was posted, or an operator who
  resets a draft whose publisher is still alive or whose message was sent, can make the draft be posted
  twice; no other action can, not even an operator's false report that a message was sent
  (`PublicationDiscipline.DisciplineIsExact`, `UntruthfulResetPostsTwice`).
- The retry delay of a job delivery is cast to a 32-bit integer before it is capped, so with a delivery
  limit above 31 the thirty-first failure cannot be recorded (`NewsJobsSafety.RetryLimitIsExact`).
- "One job at a time" can be lost in two ways: the claim skips the locked row of a job whose stale claim
  is being renewed, or the renewal commits between the claim's check and its pick
  (`NewsJobsSafety.OneAtATimeIsExact`, `TwoJobsCanBeBusy`).
- The program accepts, and the database refuses, a custom topic that is one character of two UTF-16
  code units; the other way round the database accepts punctuation, texts that are not normal, and up to
  80 characters of two units each (`SettingsFence.TextChecksDisagree`, `DisagreementsOccur`).
- After a policy block whose checkpoint was not saved, every later run of a `/news` request raises, while
  a scheduled run of such a draft reports the block again (`Resumption.BlockWithoutCheckpoint`,
  `StuckForGood`, `BlockIsReportedAgain`, `ResumptionsEndAlike`).
- Nothing fences the checkpoint of a `/news` request, so two runs of it can publish a draft each. They can
  if and only if one of them reads that there is no checkpoint while the other, which read this too, can
  still publish the draft it finds; overlaps of any other kind do no harm (`RequestOverlap.FenceIsExact`,
  `UnfencedReadOccurs`, `Resumption.OverlappingRunsPostTwice`).
- An update that fails is passed exactly by the rules of `PollTelegram.UpdateIsPassedExactly`, of which a
  report that finds its row in processing counts as none; so an update whose row a handler always holds is
  retried forever (`PollTelegram.HeldUpdateIsRetriedForever`, `HeldForever`).
- Names that every JavaScript object inherits, such as `constructor`, are taken for known languages,
  topics, features and states, and nothing else unknown is (`CallbackCodecs.InheritedNamesAreRead`,
  `KnownUnlessInherited`, `KnownLabsUnlessInherited`).
- Button versions survive printing and parsing below 10^15 only, although the printers accept any safe
  integer (`CallbackText.VersionRoundTrip`).

## Model

| member | source | states |
|---|---|---|
| `PublicationSafety.AtMostOncePublication` | src/publish.js:18-220 | in every disciplined run, whatever publishers, crashes, settings edits and operators do, a draft gets at most one message; a message implies publishing or published; a published draft records that message; a blocked draft has none |
| `PublicationSafety.WhateverIsSentWasCleared` | src/publish.js:54-174 | every posted text was allowed by the policy under the topics of the settings recorded with its claim |
| `PublicationSafety.ClaimTakesWhatIsInForce` | db/migrations/20260812130000_add_publication_policy_blocks.sql:113-233 | a process starts sending only from a claim that found exactly the text and the settings row it had classified in force, on an approved draft |
| `PublicationSafety.OneCallIsBounded` | src/publish.js:54-178 | one call classifies at most twice and sends at most once and never makes a third pass |
| `PublicationSafety.EveryStepFollowsTheTable` | src/pipeline-states.js:17-24 | any step by anyone moves the draft's status along the transition table only and takes no post back |
| `PublicationSafety.PublishedIsFinal` | src/publish.js:28-35 | once a publication is recorded it never changes, nothing more is posted, and every later call hands it back or fails |
| `PublicationSafety.RunKeepsInv` | src/publish.js:18-220 | the protocol invariant (one holder of the claim, posts, row, settings history, clearances) survives every disciplined run |
| `PublicationReturns.CallersAreToldTheTruth` | src/publish.js:28-218 | in every disciplined run, however it goes on: a call that reported a publication named the one message on the channel, one that reported a block was right that nothing was posted, and one that could not record an accepted message was right that it is there |
| `PublicationBlocks.WhateverIsBlockedWasRefused` | src/publish.js:75-121 | in every disciplined run the reason of a block is one that the policy found under the topics of the settings version that the block names |
| `PublicationBlocks.BlockTakesWhatIsInForce` | db/migrations/20260812130000_add_publication_policy_blocks.sql:235-385 | a step records a block exactly when the approved text and the settings are still those that were classified; the block names them, and nothing has been posted |
| `PublicationStore.TableIsExact` | src/pipeline-states.js:17-24 | the functions that change a draft make exactly the moves of the table, except that none rejects a draft before its submission |
| `PublicationDiscipline.DisciplineIsExact` | src/publish.js:185-196 | in every state that careful runs reach and for every action, without exception: the step keeps at-most-once publication for all careful continuations if and only if it is careful, that is no reset after a post or under a live claim, and no Telegram error for a message that was posted |
| `PublicationDiscipline.CareIsEnough` | src/publication-recovery.js:1-35 | no careful run posts a draft twice, even if operators report messages that were never sent |
| `PublicationDiscipline.UntruthfulResetPostsTwice` | src/publication-recovery.js:25-31 | a concrete run in which a reset after a sent message leads to a second post |
| `PublicationDiscipline.OneMorePost` | src/publish.js:18-220 | an approved draft without block or publication can always be posted by one more undisturbed call |
| `PublishApprovedDraft.PublishApprovedDraft` | src/publish.js:18-220 | whatever the imperative call returns or raises is how its process ends in the protocol, with any foreign steps before each await |
| `PublishApprovedDraft.RecordRefusal` | src/publish.js:75-121 | the blocking branch goes back to the loop only in the first pass after stale settings, and otherwise ends as the protocol does |
| `PublishApprovedDraft.ClaimCleared` | src/publish.js:123-174 | the claiming branch gets through only with a claimed body equal to the classified one |
| `PublishApprovedDraft.SendAndRecord` | src/publish.js:180-218 | sending, releasing after a rejection and finalizing end as the protocol's process does |
| `PublishApprovedDraft.World.ClaimDraft` | src/publish.js:123-128 | the claim call moves the process according to the outcome that the SQL function returned |
| `ExcludedTopics.VetoIsFailClosed` | src/publication-policy.js:21-110 | the final veto allows a text if and only if no topic is excluded or the classifier answered and its answer is complete, well-formed and clears every topic |
| `ExcludedTopics.VetoNamesAnExcludedTopic` | src/publication-policy.js:28-110 | a refusal names an excluded topic and its true ground: classifier error, or the relation found for that topic |
| `ExcludedTopics.SameCodesIffRearranged` | src/excluded-topics.js:48-80 | the structural checks on codes accept exactly the rearrangements of the excluded codes |
| `ExcludedTopics.ValidAnswerClearsIffNothingRefuses` | src/excluded-topics.js:48-80 | a valid answer normalises to no refusal exactly when every relation it gives is incidental or unrelated |
| `ExcludedTopics.FindRefusal` | src/publication-policy.js:70-90 | finds the first refusing assessment, and none only if there is none |
| `BoundedPool.EveryScheduleIsBounded` | src/excluded-topic-policy.js:137-156 | in every worker schedule at every moment: at most the bound in flight, indices claimed in order and once each, results only of their own index |
| `BoundedPool.EveryScheduleGivesTheSameResults` | src/excluded-topic-policy.js:137-156 | every schedule of enabled steps ends after exactly 2n + size steps and then holds all outcomes in input order |
| `BoundedPool.MapSettledWithConcurrency` | src/research.js:138-163 | the pool over shared counter and result array returns the outcomes in input order for any schedule and bound |
| `ExcludedTopicPolicy.ApplyExcludedTopicPolicy` | src/excluded-topic-policy.js:158-334 | for any bound and schedule the report, or the error, equals that of the candidates taken one at a time in input order |
| `ExcludedTopicPolicy.ReportIsExact` | src/excluded-topic-policy.js:281-315 | eligible are exactly the candidates with no explicit title whose classifier cleared every topic, blocked all others, both in order; counts add up; the audit is distinct and safe |
| `ExcludedTopicPolicy.NothingIsLost` | src/excluded-topic-policy.js:281-315 | the candidates that may go on and those that may not are together the input as multisets |
| `ExcludedTopicPolicy.AuditKeepsOk` | src/excluded-topic-policy.js:77-94 | the provider audit keeps one safe entry per provider and model |
| `ScheduleSafety.AtMostOnePostPerOccurrence` | src/news-scheduler.js:176-347 | however workers overlap, crash or take claims over, an occurrence posts at most one message, of the draft it checkpointed |
| `ScheduleSafety.RerunReturnsTheExistingPublication` | src/publish.js:28-35 | a publisher started after its draft was published can only return that publication |
| `ScheduleSafety.EveryLaunchIsFresh` | src/news-scheduler.js:289-304 | every publication was preceded, in this order and with nothing else between, by a successful claim renewal, a clock reading outside enabled quiet hours, and the loading and perhaps the approval of its draft |
| `ScheduleSafety.OnlyTheOwnerChangesTheRow` | db/migrations/20260807130000_add_news_bot_settings.sql:462-582 | a worker's step changes the schedule row only while the row is claimed by that worker |
| `ScheduleSafety.ResultsAreTrue` | src/news-scheduler.js:397-445 | what a run reports is true of the row: ended and failed runs closed the occurrence, deferrals kept it, an unresolved publication paused the schedule and kept its draft |
| `ScheduleSafety.RunKeepsInv` | db/migrations/20260807130000_add_news_bot_settings.sql:462-582 | rows, checkpoints, workers and launches stay consistent in every disciplined run |
| `ExecuteClaim.RunScheduledNewsOnce` | src/news-scheduler.js:349-445 | the imperative run ends as its worker does in the schedule machine, including every error path, and is idle exactly when the row could not be claimed |
| `ExecuteClaim.ExecuteClaim` | src/news-scheduler.js:176-347 | the body of a run returns, throws or dies exactly where its worker is done, caught or stopped |
| `ExecuteClaim.DeferForQuietHours` | src/news-scheduler.js:147-166 | a run goes on from the clock only when it need not defer, and otherwise ends with the deferral or a lost claim |
| `ExecuteClaim.ObtainDraft` | src/news-scheduler.js:198-239 | a run continues with the claim's draft or with a new one that has just been checkpointed |
| `ExecuteClaim.PublishAndFinish` | src/scheduled-publication.js:3-28 | approving, publishing, checkpointing and finishing follow the worker's steps |
| `ExecuteClaim.World.RenewClaim` | src/news-scheduler.js:48-104 | a renewal succeeds only while no loss is known and the database confirms the claim |
| `NewsRequest.Request.AtMostOnePostPerRequest` | src/news-search.js:52-242 | however often a request is run again after crashes, without overlap, it posts at most one message |
| `NewsRequest.Request.RunCheckpointedNewsSearch` | src/news-search.js:52-166 | a settled checkpoint is only reported, as it stands; an automatic one is resumed with its own draft; a fresh request takes the first tier that finds something; at most one publisher is started, and a checkpoint is settled only as that publisher ended |
| `NewsRequest.Request.PublishCheckpointedDraft` | src/news-search.js:168-242 | for any script of foreign steps and failures the imperative call ends as the pure run does, of which `Resumption` shows that a draft in any other state than the resumable ones ends it in an error without a launch; the checkpoint is settled once, and only with what the publisher started for it came back with |
| `NewsRequest.Request.SearchTiers` | src/news-search.js:9-50 | the first tier that does not come up empty decides, and its find is the one new draft |
| `NewsRequest.Request.SaveCheckpoint` | src/news-repository.js:1356-1364 | the unfenced upsert, applied or not, keeps the request consistent when runs do not overlap |
| `RequestOverlap.AtMostOnePostPerRequest` | src/news-search.js:52-242 | runs of a request overlap in any way and die at any await: if none reads that there is no checkpoint while another can still publish its own draft, at most one message is posted |
| `RequestOverlap.FenceIsExact` | src/news-search.js:67-98 | in every state that such runs reach and for every action: the request stays at one message for all fenced continuations if and only if the action is fenced in this way |
| `RequestOverlap.UnfencedReadOccurs` | src/news-repository.js:1356-1364 | two runs that both read before one of them saves reach an unfenced read |
| `RequestOverlap.RunAloneIsTheRequest` | src/news-search.js:52-242 | a run of this machine by itself, with any script, ends as the sequential run of the request does |
| `RequestOverlap.PlayIsARun` | src/news-search.js:52-242 | what a script plays is a trace of this machine |
| `Resumption.OtherDraftsAreNotResumed` | src/news-search.js:168-197 | a draft that is loaded in any state but the resumable ones ends the run in an error, with nothing launched and the checkpoint as it was |
| `Resumption.StuckForGood` | src/news-search.js:168-197 | once the draft of a waiting checkpoint is rejected, every later run, whatever happens meanwhile, raises, launches nothing and leaves the checkpoint |
| `Resumption.BlockIsReportedAgain` | src/scheduled-publication.js:3-28 | in every trace of the schedule: a worker that has set out to publish a blocked draft can end without an error only by reporting the block |
| `Resumption.ResumptionsEndAlike` | src/scheduled-publication.js:11-28 | left alone, a request and a scheduled run that take up the same draft end alike if and only if it is not a rejected draft with a block; of that one the request raises and the schedule reports the block |
| `Resumption.BlockWithoutCheckpoint` | src/news-search.js:199-242 | a run from the very start that ends with the block recorded and nothing posted, while its checkpoint still waits for publication |
| `Resumption.OverlappingRunsPostTwice` | src/news-search.js:52-166 | two overlapping runs of one request that both end well and post a draft each |
| `NewsJobsSafety.ClaimsAreFenced` | db/migrations/20260814090000_add_telegram_news_jobs.sql:205-539 | for any clients and tokens: one applied mutation per claim, on the claimed job and of the claimed kind; executions and deliveries stay within their limits |
| `NewsJobsSafety.OutcomeIsFinal` | db/migrations/20260814090000_add_telegram_news_jobs.sql:374-425 | a recorded outcome is never replaced and its job is never executed again |
| `NewsJobsSafety.OneAtATimeIsExact` | db/migrations/20260814090000_add_telegram_news_jobs.sql:205-352 | the second read of a claim keeps at most one job busy exactly when it does not pass over the claimed job, whose row is locked or whose claim was renewed since the first read, for another open one |
| `NewsJobsSafety.OneJobAtATime` | db/migrations/20260814090000_add_telegram_news_jobs.sql:244-272 | at most one job is busy in every run, with anything between the two reads of a claim, whose picks pass no claimed job over |
| `NewsJobsSafety.TwoJobsCanBeBusy` | db/migrations/20260814090000_add_telegram_news_jobs.sql:244-272 | two runs from the empty table that make two jobs busy: the renewal holds the row's lock during the pick, and the renewal commits between check and pick |
| `NewsJobsSafety.OnlyRenewalsIntervene` | db/migrations/20260814090000_add_telegram_news_jobs.sql:354-372 | between the two reads of a claim no step but a renewal can make a job fresh again |
| `NewsJobsSafety.RetryLimitIsExact` | db/migrations/20260814090000_add_telegram_news_jobs.sql:472-513 | retries can always be recorded if and only if the delivery limit is at most 31 |
| `NewsJobsSafety.FailingDeliveries` | db/migrations/20260814090000_add_telegram_news_jobs.sql:472-513 | a run that reaches any number of failed deliveries up to thirty |
| `NewsJobsStore.PickAmong` | db/migrations/20260814090000_add_telegram_news_jobs.sql:250-272 | a claim takes a best open unlocked job: abandoned ones first, then by availability |
| `RunTelegramNewsJob.JobRun.RunOnce` | src/telegram-news-jobs.js:263-394 | renewals are single-flight, a loss is absorbing, every mutation directly follows a renewal after the work and carries what the work ended with, at most one is acknowledged, it is the one reported and applied, none is omitted while the claim holds, and no timer or renewal outlives the run |
| `RunTelegramNewsJob.JobRun.Execute` | src/telegram-news-jobs.js:295-351 | an execution reports an outcome exactly when its record was acknowledged, and never retries after that; errors of the recording call are classified by their message like any other |
| `RunTelegramNewsJob.JobRun.Deliver` | src/telegram-news-jobs.js:353-393 | a delivery reports completion exactly when the completion was acknowledged |
| `RunTelegramNewsJob.JobRun.RenewOnce` | src/telegram-news-jobs.js:182-239 | renew joins a pending renewal, succeeds only with a renewal answered just now, and throws once the claim is lost |
| `RunTelegramNewsJob.JobRun.StopHeartbeat` | src/telegram-news-jobs.js:230-238 | stopping waits for a pending renewal and reports a known loss |
| `RunTelegramNewsJob.OutcomeFromResult` | src/telegram-news-jobs.js:83-124 | what passes keeps its status and can be recorded exactly when it has no stray draft or message |
| `PipelineLease.PipelineRun.RunPipeline` | src/pipeline.js:172-284 | an acquired lease is released exactly once and last, with no renewal pending; the run completes only if no loss was ever observed, and drafts only before one; it throws only after a loss or a failed call |
| `PipelineLease.PipelineRun.Stop` | src/pipeline.js:114-170 | stopping waits for a pending renewal and reports a known loss |
| `UpdateLedger.FailuresAreCounted` | db/migrations/20260812095000_harden_telegram_update_polling.sql:21-162 | a recorded failure counts once, the last allowed one makes the update terminal, terminal rows stay terminal, other rows are untouched |
| `UpdateLedger.HandlersRemember` | db/migrations/20260627224500_make_telegram_publication_failures_retryable.sql:28-94 | claims and finishes never revive a terminal update nor forget failures |
| `PollTelegram.PollTelegram` | src/telegram-polling.js:247-508 | every update below the offset was handled or is terminal, the offset never goes back, no update is recorded failed more often than allowed, the loop gives up on the ledger after exactly the allowed consecutive failures and otherwise ends only for a cause in its last round; the states between its rounds make a run, in which each round does to its first update what the handling, the report and the ledger determine |
| `PollTelegram.UpdateIsPassedExactly` | src/telegram-polling.js:353-499 | in every run, from any round in which an update is in turn, with failed polls, busy rounds and lost answers in between: the offset is past it if and only if it was handled since, or a report of its failure was answered when it was terminal, closed at once, or out of attempts |
| `PollTelegram.TerminalExactly` | db/migrations/20260812095000_harden_telegram_update_polling.sql:21-162 | over any rounds, the failures on record grow by the reports that found the row free, and the update is terminal if and only if it was, or was closed, or those have used up its attempts |
| `PollTelegram.FailingUpdateIsPassed` | src/telegram-polling.js:414-499 | in every run, an update in turn is passed at the latest with its last allowed failure that is reported, answered and finds no handler holding its row |
| `PollTelegram.HeldUpdateIsRetriedForever` | src/telegram-polling.js:389-401 | in every run, while a handler holds its row whenever it is served, found busy or failing, the update is not passed and no failure of it goes on record |
| `PollTelegram.HeldForever` | src/telegram-control.js:351-358 | such rounds, in any number and any mixture of busy ones and failures, are played from the start by a poller that nothing ends, and it is still where it started |
| `PollTelegram.RetryHeldUpdate` | src/telegram-polling.js:247-508 | the loop itself, on those rounds, serves them all and keeps its first offset |
| `PollTelegram.Poller.ProcessUpdate` | src/telegram-polling.js:353-499 | what one update does to the ledger and the offset and how the loop goes on, for every handling: it moves the offset just past itself or leaves it |
| `PollTelegram.Poller.RecordAndDecide` | src/telegram-polling.js:414-499 | a reported failure passes the update exactly when the answer came back and the update is then terminal; without an answer it retries, stops or gives up by the count |
| `PollTelegram.Poller.ServeBatch` | src/telegram-polling.js:348-503 | a batch that runs through leaves exactly its updates fewer pending |
| `PollTelegram.Poller.Report` | src/telegram-polling.js:414-427 | an answered report tells the ledger's truth about the update, and a lost answer does no harm |
| `PollTelegram.RetryDelayIsCapped` | src/telegram-polling.js:62-65 | delays stay below thirty seconds, the first below half a second |
| `ProviderErrors.TransientErrorsAreLoggedAsSuch` | src/ai-provider-attempts.js:72-124 | both classifications agree on transient errors, so an exhausted quota is never retried |
| `AiFallback.Engine.Execute` | src/ai-provider.js:273-357 | visits follow the priority list, each with a fresh window; the answer is the first success; exhaustion carries one error per attempt; nothing follows Exa's quota; every turn of the world is used once, in order; with ideal timers the call stays within its windows |
| `AiFallback.Engine.RunWithRetry` | src/ai-provider.js:278-314 | a provider is left only after success, quota, a permanent error, its budget or its deadline; each attempt begins after the capped back-off of the one before; no attempt follows a fired deadline |
| `AiFallback.Engine.RunAttempt` | src/ai-provider.js:173-239 | a call is made exactly when the window is still open, and times out exactly when it would take longer than what is left |
| `AiFallback.Engine.TryOnce` | src/ai-provider.js:278-314 | the reason for leaving a provider is the one its last attempt shows |
| `AiFallback.Engine.SearchFactWithExa` | src/ai-provider.js:381-410 | at most two calls, the second only after a settled transient error; an unsettled call is never raced; each call ends as the provider settles it |
| `AiFallback.OnlyTheLastAttemptSucceeds` | src/ai-provider.js:273-357 | of all attempts of a call only the very last can be a success |
| `AiFallback.WindowsAddUp` | src/ai-provider.js:148-156 | the windows used are those of the providers at the head of the list |
| `AiFallback.RetryDelayIsBounded` | src/ai-provider.js:43-51 | a delay is at least one millisecond and at most the maximum plus its jitter |
| `EditorialSimilarity.MultisetOverlap` | src/editorial-enrichment.js:175-189 | the counting pass gives the size of the multiset intersection |
| `EditorialSimilarity.MeasureSimilarity` | src/editorial-enrichment.js:263-287 | the measured score is the specified one and the flag its comparison with the threshold |
| `EditorialSimilarity.RawScoreIsExact` | src/editorial-enrichment.js:263-287 | the score lies in [0, 1] and is 1 exactly for equal bigram multisets with the smaller token set contained in the larger |
| `EditorialSimilarity.ScoreIsSymmetric` | src/editorial-enrichment.js:263-287 | the order of the drafts does not matter |
| `EditorialSimilarity.IdenticalDraftsScoreOne` | src/editorial-enrichment.js:263-287 | identical non-empty drafts score 1 |
| `EditorialSimilarity.RoundingIsExact` | src/editorial-enrichment.js:280-286 | rounding keeps [0, 1] and moves the threshold to 0.67995 of the raw score |
| `EvidenceMatching.ValidateEvidenceMap` | src/editorial-enrichment.js:289-322 | the greedy pass accepts if and only if the claims' and entries' multisets of (claim, URL) agree and every entry quotes the last-listed evidence of its URL |
| `EvidenceMatching.OrderDoesNotMatter` | src/editorial-enrichment.js:289-322 | acceptance is invariant under permuting claims and entries |
| `EvidenceMatching.CheckEntry` | src/editorial-enrichment.js:308-315 | an entry passes if and only if it quotes non-empty evidence for the URL it cites |
| `EditorialEnrichment.EnrichEditorialDraft` | src/editorial-enrichment.js:574-818 | attempts are at most three and numbered, used facts are distinct and extend the evidence one by one, the result is valid for that evidence and cites every used source, at most five generations run, similarity never rises; it searches exactly when asked to and able to, and fails only for an unacceptable first draft or a malformed fact |
| `EditorialEnrichment.SearchFacts` | src/editorial-enrichment.js:640-800 | the search loop keeps that invariant, searches once per attempt, and leaves a request open only when it cannot search, the limit is reached or the query repeats |
| `EditorialEnrichment.SearchOnce` | src/editorial-enrichment.js:661-799 | one attempt either extends the evidence with a used fact or is recorded as failed and ends the loop, as the answers of the search and the model determine |
| `EditorialEnrichment.RetryIfTooSimilar` | src/editorial-enrichment.js:457-572 | a too similar draft is replaced exactly when the retry is acceptable, asks for no more facts, cites every used source and is strictly less similar |
| `EditorialEnrichment.ValidatedCandidate` | src/editorial-enrichment.js:411-444 | a candidate passes if and only if it is well-formed and its evidence map matches the evidence |
| `CandidateScore.LaterNeverScoresLess` | src/research.js:176-208 | with all else equal a later date never scores less, and no date never more |
| `CandidateScore.RecencyLastsTwoDays` | src/research.js:176-190 | recency counts exactly for dated candidates of the last two days |
| `CandidateRanking.RankCandidates` | src/research.js:210-243 | exactly one copy per unexpired URL, the first of the best-scoring ones, in comparator order |
| `NewsCuration.SelectCurationSample` | src/news-curation.js:70-94 | the loops compute the first candidate of each publisher, then the others, up to the limit |
| `NewsCuration.SampleIsFull` | src/news-curation.js:70-94 | on distinct URLs the sample has min(limit, n) different candidates and new publishers come first |
| `NewsCuration.CurateNewsCandidates` | src/news-curation.js:134-228 | invalid or repeated identifiers and empty rankings are errors; otherwise the ranked candidates precede all others |
| `NewsCuration.CurationIsAPermutation` | src/news-curation.js:198-222 | on distinct URLs curation is a permutation that starts with the model's ranking |
| `NewsCuration.RankedCandidatesCanBeCurated` | src/research.js:210-243 | what is ranked has the distinct URLs that curation needs |
| `FairRanking.RankDeterministically` | src/news-curation.js:96-132 | a permutation that keeps the sorted order within each publisher and deals publishers out fairly, in order of first appearance; no round adds nothing |
| `FairRanking.RoundsAreFair` | src/news-curation.js:118-131 | in every prefix a publisher leads another by at most one item unless the other is exhausted |
| `FairRanking.UnfinishedRoundAdds` | src/news-curation.js:119-130 | a round before the end always adds an item, so the early break is never taken |
| `FairRanking.Group` | src/news-curation.js:111-117 | buckets hold each publisher's candidates in sorted order, publishers in order of first appearance |
| `Sorting.SortIsSorted` | src/news-curation.js:104-110 | the stable sort gives a sorted permutation |
| `StoryDeduplication.Jaccard` | src/story-deduplication.js:150-157 | the counting loop computes intersection over union |
| `StoryDeduplication.JaccardIsASimilarity` | src/story-deduplication.js:150-157 | symmetric, in [0, 1], and 1 exactly for equal non-empty sets |
| `StoryDeduplication.ShortlistHoldsTheClosest` | src/story-deduplication.js:193-207 | at most five similar stories, closest first, and no omitted one is closer than a listed one |
| `StoryDeduplication.DeduplicationIsFailClosed` | src/story-deduplication.js:241-390 | a candidate passes if and only if nothing similar was published, or it is no deterministic match and the classifier's answer is coherent and lets it pass |
| `StoryDeduplication.DecisionsAreGrounded` | src/story-deduplication.js:214-390 | duplicates and follow-ups name a listed story, others none; confidences lie in [0, 1] |
| `ResearchSelection.RunResearch` | src/research.js:866-1204 | the selected article is the first in turn, was recorded as new and passed the evidence policy; without one every article is accounted for in every pass and the error tells why; decisions are those of the comparison; each article is compared, checked and rejected at most once; at most three classifier calls; at most one acknowledged terminal write, which says how the run ended |
| `ResearchSelection.FirstPass` | src/research.js:900-1001 | the pass takes the first article that is new, has evidence and passes the policy; of each article before it the log tells why it was not taken |
| `ResearchSelection.FallbackPass` | src/research.js:1003-1054 | a fallback pass takes the first article with a summary of its kind that was not turned away and passes the policy |
| `ResearchSelection.CheckEvidence` | src/research.js:879-899 | checking an article's evidence selects it, or rejects and excludes it, once |
| `ResearchSelection.ResearchRun.Compare` | src/research.js:901-956 | the recorded decision is that of the comparison, with a classifier only while fewer than three calls were made |
| `ResearchSelection.IsPolicyEmptied` | src/research.js:1057-1070 | the policy-filtered ending is chosen exactly when every article that is no duplicate was excluded |
| `ResearchSelection.ResearchRun.Close` | src/news-repository.js:379-397 | a terminal write closes a running row once, and is acknowledged only if it did |
| `SettingsFence.HandleSettingsCallback` | src/telegram-settings.js:598-824 | a tap makes at most one write, under the button's version; it replaces the row it was computed from exactly when that version had been reached; it is refused exactly when the change does not fit the row or turns the schedule on while a draft of an unresolved publication is neither approved nor published, and raises for a valid change only when a call was lost or the database refuses what the program accepts |
| `SettingsFence.HandleSettingsInput` | src/telegram-settings.js:826-889 | two tries from fresh rows make at most one write, which adds the topic to the row it replaces; each other answer is true of the row, and giving up means that the row changed twice |
| `SettingsFence.NoUpdateIsLost` | src/telegram-settings.js:598-824 | a button shown by the bot applies its change to the very row it replaces |
| `SettingsFence.ApplyKeepsValid` | src/telegram-settings.js:700-775 | every change that is not refused keeps one to twelve topics, at most five custom, all distinct, and is accepted by the database if and only if it adds no custom topic of one character and names no inherited language or topic |
| `SettingsFence.TextChecksDisagree` | src/news-settings.js:88-103 | in both directions, exactly which custom topics one of program and database accepts and the other refuses |
| `SettingsFence.DisagreementsOccur` | db/migrations/20260807130000_add_news_bot_settings.sql:27-50 | U+20000 once, U+20000 forty-one times and `a!` are such topics |
| `SettingsFence.Table.Update` | db/migrations/20260807210000_add_news_night_pause.sql:42-124 | the fenced update writes only under the expected version, whatever others write before it |
| `LabsFence.HandleLabsCallback` | src/telegram-labs.js:341-442 | a tap changes at most the row that was read, under the version on the button, and no other; it is called outdated only when that row is; inherited features and states change nothing |
| `LabsFence.Table.Update` | db/migrations/20260811160000_add_editorial_enrichment_flag.sql:48-91 | a feature row is written only under the expected version |
| `CallbackText.SplitUndoesJoin` | src/telegram-settings.js:110-121 | joining parts without colons is undone by splitting |
| `CallbackText.JoinUndoesSplit` | src/telegram-settings.js:110-121 | the parts of any text contain no colon and make it up again |
| `CallbackText.VersionRoundTrip` | src/telegram-settings.js:37-43 | a printed version is read back exactly when it is below 10^15 |
| `CallbackCodecs.SettingsRoundTrip` | src/telegram-settings.js:61-175 | every valid settings action is printed in at most 64 bytes and read back exactly when its version is below 10^15 |
| `CallbackCodecs.LabsRoundTrip` | src/telegram-labs.js:62-147 | the same for actions on known features and states, a missing feature meaning article tags |
| `CallbackCodecs.SettingsAreReadExactly` | src/telegram-settings.js:110-175 | a text is read as an action and a version exactly when it is at most 64 bytes, its two middle parts spell that action under the table lookups of the code, inherited names included, and its last part is any numeral of the version with at most fifteen digits |
| `CallbackCodecs.LabsAreReadExactly` | src/telegram-labs.js:104-147 | the same for Labs texts |
| `CallbackCodecs.InheritedNamesAreRead` | src/news-settings.js:8-56 | `cfg:l:constructor:1` and `lab:s:valueOf:1` are read as actions |
| `CallbackCodecs.KnownUnlessInherited` | src/telegram-settings.js:110-175 | a settings text that is read names a known language or topic if and only if its value is not an inherited name |
| `CallbackCodecs.KnownLabsUnlessInherited` | src/telegram-labs.js:8-35 | likewise for features and states |
| `CallbackCodecs.InheritedKeysAreNotReadBack` | src/telegram-labs.js:62-147 | an action on an inherited feature is printed, and what is printed is not read back |
| `CallbackCodecs.ReviewRoundTrip` | src/telegram-control.js:81-98 | printing and parsing review callbacks are inverse to each other |
| `CallbackCodecs.ParsersAreExclusive` | src/telegram-control.js:234-258 | what a parser reads is dispatched to its own handler only |

## Left out

- Provider adapters, prompts, JSON and Zod schemas, HTTP, DNS, feeds, HTML parsing, rendering of menus and notifications, command-line tools, audit transports and logging: foreign calls or text, modelled as oracles or not at all.
- Unicode normalisation, collation, time zones and regular expressions over texts are function parameters; SHA-256 is taken to be injective; JavaScript's floating point is modelled by integers and reals.
- The claim gate on story fingerprints and the exceptions that SQL functions raise for missing rows are covered by calls that are not applied; a draft is assumed to exist once it is named.
- The trimming and the length limit of `sendTelegramMessage` (src/telegram.js:62-102): a message it refuses ends like one whose outcome is unknown.
- The scheduler model gives each draft its own settings row, since the publication theorems hold for any settings; the settings that steer a run are part of the schedule row.
- A handler or publisher that is abandoned by a race against a lost lease goes on in the source; in `PollTelegram` its later effects on the ledger are among the steps of other handlers.
- How the polling lease is acquired and renewed (src/telegram-polling.js:206-298): for the loop, losing it or being stopped may occur at any await, also during the back-off sleep.
- The errors that an injected `classifyExecutionError` could throw in a job run; the default classification is modelled.
- The operations `executeOnce` and `testExaConnection` of the AI engine, and provider results that are null.
- The acquisition steps of `runResearch` before its candidates are known, and its statistics; the articles of a run have distinct identifiers.
- Identifiers of curated candidates are their numbers instead of texts like `candidate-1`.
- `/settings` pages, prompts and review-chat bindings change no settings and are not modelled; `getOrCreateNewsSettings` is one of the writes that others make.
- `statusCallback` parsing, review sessions and the transition table of articles.
- A missing Telegram configuration, which ends a request before its first call, and the reply texts of settings taps.
- No size is claimed for review callbacks: with a session identifier of 64 digits they exceed 64 bytes.
- The draft text assembly (`draft.js`, `editor.js`, `article-tags.js`): its checks are one flag of an oracle.
