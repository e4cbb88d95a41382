# Ticket-to-merge platform: a model in Dafny

This project models the parts of the platform whose guarantees span loops,
stores and interleavings, and proves them: reading an uploaded archive, the
four-eyes parameter protocol, starting runs and closing gates, the staged
delivery run with its webhooks, choosing a ticket's flow from rules, printing
the audit trail, keys of template sections, and the caches and merges around
them. `dafny verify dfyconfig.toml` checks everything.

Three forms recur:

- **Protocols** are step machines. A step is what the code does between two
  awaits; a schedule is any sequence of steps by any number of callers and by
  the outside world, failures included. An invariant is kept by every step, and
  the main theorems speak of every schedule.
- **Imperative code** is a class or a method with the source's loops, proved
  equal to a specification function or predicate; the theorems are about that.
- **Pure code** is functions, with theorems that relate several of them or
  compare them with an independent definition: a reference writer, a reference
  reader, "the narrowest rule that competes".

| file | about |
|---|---|
| `DocxZip`, `DocxZipRoundTrip`, `Bytes` | the zip reader, and a reference writer after PKWARE APPNOTE.TXT |
| `ParamsService`, `ParamsServiceCall`, `ParamsServiceAnswers`, `ParamsServiceLoss`, `ParamsServiceReplace`, `Actors` | four eyes, interleaved and as one call, what it answers, and when interleaving loses, doubles or replaces a proposal |
| `DemoRun`, `DemoRunHistory`, `DemoRunAttempts`, `DemoRunIds`, `DemoRunBuilds`, `DemoRunWebhooks` | the delivery run, what stands behind its records, how often it tries, the ids its approvals carry, the builds it hears, and the webhooks that arrive while it runs |
| `RunGateway` | racing starters of one ticket's run, and the rows behind runs |
| `GateDecision`, `GateDecisionHistory`, `GateDecisionAlone`, `JiraCommands`, `JiraCommandOutcomes` | closing a gate step by step, the moments behind a decision, and the call as a whole; intake and commands, and what each leaves behind |
| `CommandPoll`, `JiraPoller` | reading commands off comment threads |
| `FlowDecision`, `Listening`, `ListeningSeed` | the flow a ticket runs, its second implementation, and the seeded rules |
| `AuditCsv` | the CSV export, its paging, and a reader for section 2 of RFC 4180 |
| `SectionKeys` | slugs and unique schema keys |
| `ConnectionHealth`, `ConnectionHealthRows`, `EscalationLadder`, `JiraDiscovery` | single-flight probes, the merged ladder, the discovery sweep |
| `Sequences`, `Texts`, `Wrappers` | filter, map and stable sort; trimming and digits; `Option` |

## Where the code keeps less than its comments say

Each of these is a lemma with the input or schedule, beside the exact condition
under which the promise does hold.

- An archive whose comment is itself an empty archive reads as empty
  (`CommentThatIsAnArchiveWins`); otherwise the scan finds the writer's end record
  exactly when no later signature stands in the comment (`FindsItsEndRecord`).
- A confirming `putParam` clears the slot's proposal after an await. A newer
  proposal made in between is answered `pending` and then deleted
  (`StaleClearLosesAProposal`), exactly when it was put after the confirming call's
  read (`ClearLosesAProposalExactlyWhen`); with uninterrupted calls no proposal is
  lost. Two people who both find the slot empty are both answered `pending`, and
  the later proposal replaces the earlier one (`TwoProposersReplace`); a put replaces
  another's exactly when that was put last since its read
  (`PutReplacesAnothersExactlyWhen`). Two confirmers who both read a proposal before it is cleared store it
  twice (`BothConfirmersStore`), and only they can (`TwoVersionsNeedTwoReads`).
- In the demo run an approval overtaken by a rejection is recorded under the next
  run's id and leaves that run waiting for ever
  (`OvertakenApprovalStrandsTheNextRun`). A waiting run can go on exactly when it is
  not stranded in this way (`WaitingRunCanLeaveUnlessStranded`), and a record carries
  the id of its gate's run exactly when no run was started before the membership
  answer, or the last one in the same second (`ApprovalCarriesItsRunExactlyWhen`).
- A build that succeeds before the run makes its promise is recorded and dropped, and
  the run times out (`EarlyBuildIsLost`); a build reaches the run exactly when it is
  resolved while the promise waits (`BuildIsHeardExactlyWhen`).
- A run's row has the workflow id as its key, so a ticket that is run again gets
  no live row: the key violation is taken for a race
  (`RerunIsStartedWithoutARow`, `EndedTicketNeverLivesAgain`), although re-running is
  described as supported. Opening a row works exactly while there is a live one or
  none at all (`OpenRowWorksOnce`).
- A gate decision is delivered with the step that was open when it was asked, also
  when the run has moved on (`MovedOnRunGetsTheOldStep`); it names the present step
  exactly when no move in between took the run off it
  (`DecisionNamesTheCurrentStepExactlyWhen`). A signed record may have no decision
  delivered for it (`RecordIsDeliveredExactlyWhen`), and asking again signs again
  (`RepeatedRequestSignsAgain`).
- The comment poller keeps its memory in the process, and the comment beside it
  expects a restart to cost a duplicate refusal at worst. An approval written for an
  earlier gate closes the gate that is open now, and an old mode change is sent
  again (`RestartAppliesOldCommands`); a restart is harmless exactly when no command
  it reaches is effective now (`RestartIsHarmlessExactlyWhen`). The pilot's poll
  avoids this with a baseline (`BaselineIsNeverReturned`).
- A command whose handling throws is marked as seen and never handled again by the
  process, and ends its round (`ThrownIsNeverRetried`).
- A poll for health may show a verdict older than the time to live: the probe it
  joins has its verdict before it writes it (`SlowWriteShowsAnOldVerdict`). That
  happens exactly when the joined probe's verdict is that old (`RowsAreTruthful`).
- `/ai-assign` on a ticket that already runs is recorded and accepted without
  changing the run (`AssignmentsLeaveRunsAlone`), and the reply for a command refused
  for lack of an opt-in label is never given (`OptInReplyIsNeverGiven`).
- `ruleFor` and the decision can name different rules in a conflict
  (`RuleForCanAskForMore`), exactly when a competing rule is narrower
  (`RuleForAgreesExactly`). The pilot's sort knows no rule ids and the rule store
  lists by project and priority only, so that the pilot can pick another of the
  tied rules than the platform (`OutOfIdOrderTheyPart`, `PilotAgreesExactly`).
- The pilot's discovery query, once any status rule exists, finds no ticket that only
  an issue-type or catch-all rule would classify (`FoundExactlyByStatusRules`).
- The pilot's CSV download is the whole window exactly up to 500 records
  (`PilotFileIsWholeUpTo500`).
- A page limit below one record, which the comment says is raised to one, gives fifty
  (`PageIsAsAsked`).

## Model

| member | source | states |
|---|---|---|
| DocxZip.FindEndRecord | apps/bff/src/docx-zip.ts:143-149 | The backward scan finds the last end-record signature in reach or refuses, looking at no more than 65536 positions. |
| DocxZip.CentralDirectory | apps/bff/src/docx-zip.ts:97-141 | The header walk ends for every byte array with every read in bounds, and yields the entries that lie end to end at the recorded offset, or the reason for refusing. |
| DocxZip.ReadZipEntry | apps/bff/src/docx-zip.ts:78-82 | The data of the first entry of that name, null when there is none, or the refusal. |
| DocxZip.ZipEntryNames | apps/bff/src/docx-zip.ts:85-87 | All names in directory order, or the refusal. |
| DocxZip.NameLiesInside | apps/bff/src/docx-zip.ts:111-139 | Every parsed entry stands at a central header of its own whose fixed part and name lie inside the file. |
| DocxZip.ReadIsBounded | apps/bff/src/docx-zip.ts:155-194 | What is read is within the entry limit or is a run of the upload's own bytes. |
| DocxZip.ReadsExactly | apps/bff/src/docx-zip.ts:78-194 | For every byte array, name and answer: the look-up gives it if and only if it is what the bytes say. Null: the directory is whole and no header bears the name. Data: from the first header of that name, where it declares no more than the limit, a local header stands at its offset, the packed run after the LOCAL name and extra field lies inside the file, and the method is 0 with that run or 8 with what it inflates to within the limit. A refusal: the first of these, or of the directory's own conditions, that fails. |
| DocxZip.ListsExactly | apps/bff/src/docx-zip.ts:85-149 | A listing gives these names if and only if they are the names of as many central headers, laid end to end from the recorded offset, as the last end record counts; it refuses for the first thing wrong with the directory. |
| DocxZipRoundTrip.NamesRoundTrip | apps/bff/src/docx-zip.ts:85-141 | For every archive of the reference writer without a later signature, with any leading bytes, extra fields, gaps and comments, the listing is the names as written, in order. |
| DocxZipRoundTrip.ContentsRoundTrip | apps/bff/src/docx-zip.ts:78-194 | For the same archives a lookup gives the first member of that name unpacked, stored or deflated, and null exactly when there is none. |
| DocxZipRoundTrip.FindsItsEndRecord | apps/bff/src/docx-zip.ts:143-149 | The scan stops at the writer's end record if and only if no later position of the file reads as one. |
| DocxZipRoundTrip.CommentThatIsAnArchiveWins | apps/bff/src/docx-zip.ts:89-149 | An archive whose comment is an empty archive lists nothing, whatever it holds. |
| ParamsService.EveryGuardedValueIsSeenByTwo | apps/bff/src/params-service.ts:85-211 | Over every interleaving each stored guarded value was proposed by a finished call for the person behind `changedBy` and submitted again in another call by its human approver; they differ unless it is a master's solo approval. |
| ParamsService.EveryAppliedValueIsAudited | apps/bff/src/params-service.ts:161-200 | A call that answers `applied` left its version stored and a record of it, marked solo exactly when one person is on both sides; no record speaks of a version that was not stored. |
| ParamsService.VersionsAreExact | apps/bff/src/params-service.ts:161-178 | Over every interleaving the stored versions of a slot are exactly 1..n, rising in time, and a write fails exactly when its version was overtaken. |
| ParamsServiceCall.AloneIsEffect | apps/bff/src/params-service.ts:85-200 | A call run without interruption has, step by step, the effect decided once from the state it found. |
| ParamsServiceCall.Params.PutParam | apps/bff/src/params-service.ts:85-159 | The call over shared fields leaves exactly the state of its uninterrupted steps, and the four-eyes invariant. |
| ParamsServiceAnswers.AnswersExactly | apps/bff/src/params-service.ts:110-158 | With a proposal open, an undisturbed call is applied if and only if a person asks for the very value proposed and is another than the proposer or in the four-eyes group; then the next version is stored, recorded (solo exactly for the same person) and the proposal cleared. It is pending if and only if the proposer asks otherwise, and replaces the proposal in the first name; refused for the channel, or for the value, if and only if another asks through a tool, or for another value, and leaves nothing. |
| ParamsServiceAnswers.RefusesExactly | apps/bff/src/params-service.ts:85-95 | Unknown if and only if nobody defined the parameter; a bad value if and only if its definition does not accept it; neither leaves anything. |
| ParamsServiceAnswers.UnguardedIsStored | apps/bff/src/params-service.ts:96-99 | An unguarded value is stored and recorded at once, in the requester's name. |
| ParamsServiceAnswers.GuardedIsProposed | apps/bff/src/params-service.ts:101-113 | A guarded value with nothing open becomes the open proposal, and nothing is stored. |
| ParamsServiceAnswers.UnattributableThrows | apps/bff/src/params-service.ts:110-131 | Where requester or proposer cannot be attributed the call throws and leaves nothing. |
| ParamsServiceAnswers.Finishes | apps/bff/src/params-service.ts:85-159 | An undisturbed call always finishes with its answer, and leaves the other calls and the definitions as they were. |
| ParamsServiceAnswers.EveryStoredValueWasAccepted | apps/bff/src/params-service.ts:85-95 | Over every interleaving each stored value is of a known parameter whose definition accepts it. |
| ParamsServiceCall.Params.Apply | apps/bff/src/params-service.ts:161-200 | Writes the next version, its record, and clears the proposal of a guarded slot. |
| ParamsServiceCall.UninterruptedCallKeepsProposals | apps/bff/src/params-service.ts:110-158 | An uninterrupted call removes a proposal only by storing that very value in the proposer's name. |
| ParamsServiceCall.StaleClearLosesAProposal | apps/bff/src/params-service.ts:145-158 | A schedule on which a proposal answered `pending` is deleted without being applied. |
| ParamsServiceLoss.ClearLosesAProposalExactlyWhen | apps/bff/src/params-service.ts:110-158 | On every run the proposal a confirming call deletes is another than the one it confirmed if and only if something was proposed for the slot after that call had read it; when it is the one, its value is stored. |
| ParamsServiceLoss.TwoVersionsNeedTwoReads | apps/bff/src/params-service.ts:110-178 | On every run one proposal stands behind two stored versions only if two different calls both read it with no clear and no proposal between the reads. |
| ParamsServiceLoss.BothConfirmersStore | apps/bff/src/params-service.ts:161-178 | And from every reachable state in which two calls have both read it, they can both store it, as two versions in a row. |
| ParamsServiceReplace.PutReplacesAnothersExactlyWhen | apps/bff/src/params-service.ts:101-141 | On every run a call puts its proposal over one that is not in its own name if and only if the last proposal put for the slot since the call's read was another's; with none put since, it replaces what it had read, in the same name. |
| ParamsServiceReplace.TwoProposersReplace | apps/bff/src/params-service.ts:101-112 | From every state in which two calls are about to propose for one slot, both are answered `pending` and only the later proposal is there. |
| DemoRun.EveryMergeIsEarned | apps/demo/src/run.ts:146-608 | On every run with interleaved webhooks a merge has before it, in order: a step 3 approval by a verified member, a passed scan and a passed test of one attempt of at most three, the opening of that PR, and a step 8 approval by a verified member, with a succeeded build of that PR before the latter. |
| DemoRunHistory.EveryRecordIsEarned | apps/demo/src/run.ts:146-561 | On every run each record tells what came in from outside: behind an approval stand its author's delivery, its good signature while that waiter was the gate, and that author's confirmed membership, in this order; behind a build result its delivery; behind every other record that run's stage, the answer it got and the write that succeeded. |
| DemoRunAttempts.AtMostThreeAttempts | apps/demo/src/run.ts:295-394 | On every run, for each run id: its failed checks are those of attempts 1, 2, 3 in this order and at most these; every scan, test and pull request belongs to the attempt after the failed ones before it, and none is recorded twice; after the third failed check the run writes nothing any more. |
| DemoRunAttempts.FailedCheckDraftsAgain | apps/demo/src/run.ts:314-394 | A failed check has the run draft the next attempt after the first and second, and ends it after the third. |
| DemoRunAttempts.MergeIsReachable | apps/demo/src/run.ts:146-608 | A schedule on which a run merges at its third attempt, the first having failed its scan and the second its test. |
| DemoRun.StrandedForever | apps/demo/src/run.ts:495-533 | A run waiting for a gate that no field or handler refers to waits for ever on every schedule. |
| DemoRun.WaitingRunCanLeaveUnlessStranded | apps/demo/src/run.ts:495-608 | A waiting run has a schedule on which it goes on if and only if it is not stranded. |
| DemoRun.OvertakenApprovalStrandsTheNextRun | apps/demo/src/run.ts:495-533 | A schedule on which an approval overtaken by a rejection is recorded with the next run's id and strands that run. |
| DemoRunIds.ApprovalCarriesItsRunExactlyWhen | apps/demo/src/run.ts:146-157 | For any ids, cut from the clock and possibly shared: on every run the record of an approval carries the id of the run begun last before the membership answer, and that is its gate's run's id if and only if no start took effect since that gate's promise was made, or the last of them was given the same id. |
| DemoRunBuilds.BuildIsHeardExactlyWhen | apps/demo/src/run.ts:540-608 | On every run a build promise comes out green, or red, if and only if a handler resolved a succeeded, or other, build of its pull request while that promise was waiting, and times out if and only if its timer ran out while it was waiting. |
| DemoRunBuilds.EarlyBuildIsLost | apps/demo/src/run.ts:410-418 | From every state about to activate a pull request: a succeeded build of it that is delivered before the promise is made is recorded, and the run still times out. |
| DemoRunWebhooks.RunObject.HandleJiraWebhook | apps/demo/src/run.ts:495-538 | The handler as written, over the run's fields, leaves the state of its undisturbed steps, whatever signature, membership and record answer. |
| DemoRunWebhooks.RunObject.HandleAdoWebhook | apps/demo/src/run.ts:540-561 | Likewise for a build event: recorded first, then the waiting build promise of that PR is settled. |
| DemoRunWebhooks.UninterruptedApprovalLetsTheRunGoOn | apps/demo/src/run.ts:495-538 | Undisturbed, a verified member's approval is recorded under the waiting run's own id and that run goes on. |
| RunGateway.OneOpenRunPerTicket | apps/deploy/src/temporal-gateway.ts:220-300 | However callers race, a ticket has at most one open execution and each execution exactly one creator. |
| RunGateway.StartedIsTruthfulUnlessStale | apps/deploy/src/temporal-gateway.ts:256-300 | On the plain path `started` is told exactly to the creator; with a signal the creator always is, and a joiner exactly when the execution is younger than its pre-read. |
| RunGateway.Gateway.SignalWithStart | apps/deploy/src/temporal-gateway.ts:220-300 | With nobody in between `started` is exact on both paths, and the row is opened exactly then. |
| RunGateway.OpenRowWorksOnce | apps/deploy/src/stores/run-context.ts:336-374 | Opening a row leaves a live one if and only if there was a live one or none at all. |
| RunGateway.EndedTicketNeverLivesAgain | apps/deploy/src/temporal-gateway.ts:98-107 | Once a ticket's row has ended no schedule ever gives it a live row again. |
| RunGateway.RerunIsStartedWithoutARow | apps/deploy/src/stores/run-context.ts:336-374 | For every ticket: started, ended, started again gives an open execution reported as started and no live row. |
| GateDecisionHistory.EveryDecisionIsEvidenced | apps/bff/src/gate-decision.ts:41-95 | On every run each delivered decision is that of one call, whose turns before, in this order, found the ticket's gate open, the group its owner and the account of that very request in the group, and then put the record onto the trail at the position the signal names; the signer is a person, and signal and record repeat the request. |
| GateDecision.SignaturesAreUsedOnce | apps/bff/src/gate-decision.ts:66-95 | No two delivered decisions share a position, and a caller told the gate closed had its own decision delivered. |
| GateDecisionHistory.RecordIsDeliveredExactlyWhen | apps/bff/src/gate-decision.ts:66-95 | On every run each gate record was signed by exactly one call, and reaches the workflow if and only if that call's next turn comes, does not fail and finds a run of the ticket; otherwise the record stands with no signal. |
| GateDecisionHistory.RepeatedRequestSignsAgain | apps/bff/src/gate-decision.ts:66-78 | A request made twice at an open gate is signed twice: two equal records under two numbers. |
| GateDecision.DecisionNamesTheCurrentStepExactlyWhen | apps/bff/src/gate-decision.ts:41-95 | On every run a delivered decision names the step its run is at if and only if no move since the call asked for the gate took the ticket off that step, or the last one brought it back. |
| GateDecision.MovedOnRunGetsTheOldStep | apps/bff/src/gate-decision.ts:91-95 | From every state with an open gate, a move between signing and delivery has the run receive a decision for the step it has left. |
| GateDecisionAlone.UninterruptedStepsAreTheCall | apps/bff/src/gate-decision.ts:41-96 | Undisturbed steps give exactly the answer, trail and signal of the call as a whole. |
| JiraCommands.EveryStartWasAllowed | apps/bff/src/jira-intake.ts:111-183 | Over any session, with the setup changing in between, every started run was asked for by one of its operations under the setup then in force, and that setup bound the project and was active, had the switch off, needed no opt-in the request had not given, and named an application unless the decided flow only analyses. |
| JiraCommands.UnboundIsSilent | apps/bff/src/jira-commands.ts:78-82 | Through any stretch of a session in which a project is unbound or paused no run of its tickets starts, none changes what it was started with, and nothing about them is recorded, signalled or commented, whatever is asked. |
| JiraCommands.FullStopLeavesOnlyGates | apps/bff/src/jira-commands.ts:84-96 | Through any stretch of a session under level `all` no run starts, and only gate decisions reach trail or engine. |
| JiraCommands.RunsKeepTheirInput | apps/bff/src/jira-intake.ts:181-242 | Until it ends a run keeps the application, mode, data class, flow and status map it was started with, whatever is asked of its ticket. |
| JiraCommands.AssignmentsLeaveRunsAlone | apps/bff/src/jira-commands.ts:147-166 | At any point of any session an accepted `/ai-assign` on a running ticket is the trail's next record, and the run keeps the application it was started with. |
| JiraCommands.OptInReplyIsNeverGiven | apps/bff/src/jira-commands.ts:279-310 | No session ever gives the reply for a command refused for lack of an opt-in label. |
| JiraCommands.MovesExactlyWhenEffective | apps/bff/src/jira-commands.ts:68-181 | Handling a command changes runs, trail or engine if and only if it is effective: the project bound, the switch leaving it through, a known actor, and then per command an open gate of a member, a run, or an intake that takes it. It throws exactly where the trail refuses the actor. |
| JiraCommandOutcomes.GateCommandsDoWhatTheySay | apps/bff/src/jira-commands.ts:184-231 | In every state with the run at an approval gate: `/approve` by a person of the owning group leaves a record and a signal that approve, in that person's name, without a reason, at that step, under one number, and the answer "approved"; `/reject` leaves ones that reject, with the reason given; an account outside the group is told so; one that is no person's throws. |
| JiraCommandOutcomes.NothingToDecide | apps/bff/src/jira-commands.ts:233-248 | Where the run waits at no owned approval gate, or there is no run, a gate command is declined and answered so, and leaves nothing else. |
| JiraCommandOutcomes.UnheardExactly | apps/bff/src/jira-commands.ts:78-110 | A command is dropped in silence if and only if the project is unbound or paused, held back by the stop if and only if that is full and the command decides no gate, and declined for its author if and only if he cannot be named; each with its counter and reply. |
| JiraCommandOutcomes.ModesAreSent | apps/bff/src/jira-commands.ts:128-141 | A work mode reaches the engine and the trail as it was asked for, and a take-over is the mode in which a human leads. |
| JiraCommandOutcomes.QuestionsAreAnswered | apps/bff/src/jira-commands.ts:250-265 | A status question is answered with the run's step and changes nothing; an explanation is declined. |
| JiraCommandOutcomes.StartsAreAsAsked | apps/bff/src/jira-commands.ts:143-181 | `/ai-start` and `/ai-assign` start a run, if none is there, with the named application or else the project's, in the project's mode and data class, on the flow the rules decide for the ticket as read; the assignment is recorded either way; refused only for want of an application that the flow needs. |
| JiraCommandOutcomes.RequestsAreTakenAsAsked | apps/bff/src/jira-intake.ts:111-269 | A request for a run is turned away for the first of: unbound, not opted in, the switch, no application for a flow that does more than analyse; otherwise it is taken and starts a run, so recorded, if none is there. |
| JiraCommandOutcomes.StopsHoldStartsBack | apps/bff/src/jira-intake.ts:132-150 | Under any stop nothing is started by a command, and the person is told once. |
| JiraCommands.SessionsAreAccounted | apps/bff/src/jira-intake.ts:181-242 | Over any session the start records are the started runs in order and no others, a run in progress is one of them, and every gate signal points at its own record. |
| CommandPoll.Gate.MarkExistingCommentsSeen | apps/pilot/src/poll.ts:118-133 | Adds exactly the thread's ids and returns how many were new. |
| CommandPoll.Gate.PollForCommandOnce | apps/pilot/src/poll.ts:146-175 | One pass returns, marks and notes what the specification of a poll says. |
| CommandPoll.Gate.PollForCommand | apps/pilot/src/poll.ts:182-196 | Polls until the first hit or the abort, the hits before being none. |
| CommandPoll.NoIdTwice | apps/pilot/src/poll.ts:146-175 | For any threads and any accepted sets, nothing already seen is returned and no id is returned twice. |
| CommandPoll.BaselineIsNeverReturned | apps/pilot/src/poll.ts:109-133 | No comment present at gate-open is ever returned by a later poll. |
| CommandPoll.StaleApprovalWithoutBaseline | apps/pilot/src/poll.ts:109-133 | Without the baseline a left-over accepted command is returned at once; with it nothing is. |
| CommandPoll.HitsAreTheNewCommands | apps/pilot/src/poll.ts:118-196 | On a thread that only grows the hits are a prefix of the accepted commands written after the baseline, and one more poll returns exactly the next of them, or nothing when there is none. |
| CommandPoll.NotesWhatItPasses | apps/pilot/src/poll.ts:146-175 | On new comments a poll logs exactly, in order, the malformed and the not accepted commands before the one it returns. |
| JiraPoller.Poller.PollTicket | apps/deploy/src/jira-poller.ts:122-148 | Hands over the first post of every unseen key in order and marks each before handling it, up to and with the first that throws; what follows that one stays unmarked. |
| JiraPoller.KeyTellsPostsApart | apps/deploy/src/jira-poller.ts:133-139 | Two keys are equal if and only if ticket, author and time are, colons in authors included. |
| JiraPoller.EachCommandOncePerProcess | apps/deploy/src/jira-poller.ts:83-148 | However rounds overlap no key is handed over twice, and a round that is through its thread leaves no command of it that no round handed over. |
| JiraPoller.RoundHandsOverItsThread | apps/deploy/src/jira-poller.ts:122-148 | With nothing in between, a round hands over the first post of every key not seen before, in order, up to and with the first that throws, and otherwise gets to the end of its thread. |
| JiraPoller.ThrownIsNeverRetried | apps/deploy/src/jira-poller.ts:130-146 | A command whose handling threw is never handed over again by the process, whatever rounds follow. |
| JiraPoller.NothingUnseen | apps/deploy/src/jira-poller.ts:130-141 | A thread all of whose keys have been seen leaves nothing to handle. |
| JiraPoller.RestartIsHarmlessExactlyWhen | apps/deploy/src/jira-poller.ts:50-87 | For any thread a fresh process leaves runs, trail and engine as they are if and only if no command it reaches is effective in the present state; the process that had handled the thread does nothing. |
| JiraPoller.RestartAppliesOldCommands | apps/deploy/src/jira-poller.ts:50-87 | In every state in which they are effective, an old approval closes the gate that is open now, naming the present step, and an old mode change is sent again. |
| FlowDecision.DecisionIsTheNarrowest | apps/bff/src/flow-decision.ts:222-267 | Flow, rule id and status map come from one rule of the most specific matching tier that no other asks less than; agreement and conflict are reported exactly, with exactly the competing ids. |
| FlowDecision.FlowByFlow | apps/bff/src/flow-decision.ts:96-100 | With a match: analysis if and only if some competing rule asks for it; a fix if and only if none does and some asks for a fix; full development if and only if every competing rule asks for it; a conflict if and only if two flows are asked for. |
| FlowDecision.CompetingRules | apps/bff/src/flow-decision.ts:137-155 | A rule competes if and only if it matches and, where it is a catch-all, only catch-alls match. |
| FlowDecision.PlanByFlow | apps/pilot/src/flow-plan.ts:36-60 | Engineering runs if and only if no competing rule asks for analysis; the analysis gate is skipped if and only if none does and some asks for a fix; no flow means both. |
| FlowDecision.NoMatchIsDefault | apps/bff/src/flow-decision.ts:229-233 | The default, or none where there is none, is decided without rule or board if and only if no rule matches. |
| FlowDecision.DecisionIgnoresOrder | apps/bff/src/flow-decision.ts:157-178 | For distinct ids every permutation of the rules gives the same decision. |
| FlowDecision.CatchAllIsIgnored | apps/bff/src/flow-decision.ts:137-155 | Adding a catch-all anywhere changes nothing for a ticket that a conditioned rule matches. |
| FlowDecision.ConditionedRuleOnlyNarrows | apps/bff/src/flow-decision.ts:222-267 | Adding a conditioned rule there changes the flow only if it matches and is narrower, and then to its own. |
| FlowDecision.EngineeringNeedsEveryRule | apps/pilot/src/flow-plan.ts:36-49 | Engineering runs if and only if every competing rule's flow would run it. |
| FlowDecision.RuleForAgreesExactly | apps/bff/src/flow-decision.ts:187-193 | `ruleFor` names the decided rule if and only if no competing rule asks for a narrower flow than it does, which is always so when the rules agree. |
| FlowDecision.RuleForCanAskForMore | apps/bff/src/flow-decision.ts:187-193 | A ticket on which `ruleFor` returns full development where analysis was decided. |
| Listening.ListeningRulesStore.Set | apps/pilot/src/listening.ts:78-101 | What is kept is the enabled rules, variants normalised: the same ones, ordered by tier and priority, equals in the order they were posted. There is only one such list. |
| Listening.KeptAsPosted | apps/pilot/src/listening.ts:78-93 | Every rule kept is an enabled rule that was posted, unchanged but for its variants. |
| Listening.VariantIsTrimmed | apps/pilot/src/listening.ts:180-190 | A variant is kept without the white space around it, and not at all if and only if it is absent or blank. |
| Listening.ListeningRulesStore.RuleFor | apps/pilot/src/listening.ts:152-167 | The loop returns the first rule that classifies the ticket. |
| Listening.ListeningRulesStore.DiscoveryClauses | apps/pilot/src/listening.ts:116-140 | The clauses list exactly the projects and statuses the bot's status rules name, one clause a project, each status once. |
| Listening.PilotTakesTheFirstBest | apps/pilot/src/listening.ts:152-167 | On a ticket of the bot's the pilot's rule is, of the matching rules no other beats on tier or priority, the one posted first, and none exactly when none matches. |
| Listening.PilotAgreesExactly | apps/pilot/src/listening.ts:78-167 | There the pilot's rule is the platform's if and only if the first posted of those rules and the one of least id are stored alike. |
| Listening.PilotRunsTheDecidedFlow | apps/pilot/src/listening.ts:169-177 | There the pilot finds nothing exactly when the platform falls back, and otherwise runs the flow of the first posted best rule: full development where that was decided, a fix or full development where a fix was, and another than decided if and only if a competing rule asks for analysis where it does not, or for a fix where it runs full development. |
| Listening.OutOfIdOrderTheyPart | apps/pilot/src/listening.ts:95-100 | On a ticket assigned to the bot, two tied rules out of id order for which the two implementations run different flows. |
| Listening.FoundExactlyByStatusRules | apps/pilot/src/listening.ts:105-140 | A query narrowed by status rules finds exactly the tickets some status rule classifies. |
| ListeningSeed.SeedsLeaveOneRulePerName | apps/bff/src/listening-seed.ts:65-132 | Over every interleaving of seeds, failures and an administrator's writes, retargetings and removals a finished seed has created + skipped equal to the number of distinct eligible names; each name has exactly one rule, or an administrator took one of that trigger away after that seed began; every row was there before, is the administrator's or has one reporting creator, and what was created or there before is still found or was taken away. |
| ListeningSeed.CreatedRulesAreCautious | apps/bff/src/listening-seed.ts:98-115 | Over every interleaving each created rule is for the target's project and account, enabled, without variants or board, a fix of priority 50 for a defect-like name and an analysis of priority 100 for any other. |
| ListeningSeed.NamesExactly | apps/bff/src/listening-seed.ts:81-87 | A name counts if and only if it is not empty and is the trimmed name of a listed type that is no subtask. |
| ListeningSeed.DefectNames | apps/bff/src/listening-seed.ts:42-54 | Case is folded the Turkish way: capital spellings are defects, and the dotted and dotless letters are told apart. |
| ListeningSeed.SeedingOnlyAppends | apps/bff/src/listening-seed.ts:65-70 | A seeding step never changes a row that is there. |
| ListeningSeed.ReseedingCreatesNothing | apps/bff/src/listening-seed.ts:65-132 | A seed that begins with every name covered creates nothing, whatever runs beside it, removals included. |
| ListeningSeed.SeedDefaultRules | apps/bff/src/listening-seed.ts:71-132 | The loop over the store leaves the rows and counts of its undisturbed turns for every pattern of failing writes; a failure that is no unique violation is thrown on, with the rows written so far kept. |
| ListeningSeed.UninterruptedTurnsAreAlone | apps/bff/src/listening-seed.ts:71-132 | A seed of the interleaved model that nothing interrupts takes all its turns and leaves exactly what the call as a whole leaves. |
| ListeningSeed.AloneCountsEveryName | apps/bff/src/listening-seed.ts:71-132 | Undisturbed, it appends one row per created rule; it stops only at a failing write, and otherwise counts and covers every eligible name. |
| ListeningSeed.SeededRulesNeverConflict | apps/bff/src/listening-seed.ts:21-26 | On seeded rules alone no ticket is a conflict or full development, and a fix is decided exactly for defect-like types. |
| AuditCsv.AuditEventsToCsv | apps/bff/src/audit-filter.ts:76-87 | The row loop and join give a header and one line-fed row per event, in order. |
| AuditCsv.ExportReadsBack | apps/pilot/src/audit-report.ts:79-108 | An RFC 4180 reader recovers the header and all six columns of every event if and only if no `at` or `hash` holds a quote, comma or line end; actor, action and subject are arbitrary. |
| AuditCsv.PageIsAsAsked | apps/pilot/src/audit-report.ts:61-76 | A page holds just the records of the filtered window from the offset asked for, or the start; at least one and at most 500 of them, fifty where no limit, or one below a single record, is asked for, and else as many as asked. |
| AuditCsv.PagesTile | apps/pilot/src/audit-report.ts:61-76 | For any requested limit consecutive pages concatenate to the filtered window from the offset on. |
| AuditCsv.PilotExportIsWholeUpTo500 | apps/pilot/src/server.ts:121-126 | The pilot's export is the whole window if and only if that has at most 500 events, and its first 500 otherwise. |
| AuditCsv.PilotFileIsWholeUpTo500 | apps/pilot/src/server.ts:121-126 | Read back, the pilot's file is the window's columns if and only if there are at most 500. |
| SectionKeys.SlugIsASlug | apps/bff/src/template-service.ts:181-190 | A slug is over [a-z0-9_], at most 60 long, with no leading or doubled underscore and a trailing one only when cut; its letters are the title's, all of them when not cut. |
| SectionKeys.SlugJoinsWords | apps/bff/src/template-service.ts:181-190 | A slug is the words of the folded title, one underscore apart, cut after 60 characters. |
| SectionKeys.SlugTwice | apps/bff/src/template-service.ts:181-190 | Slugging a slug removes its one trailing underscore, if any, and nothing else. |
| SectionKeys.UniqueKey | apps/bff/src/template-service.ts:193-201 | The unbounded search ends with the first free candidate, its suffix at most one more than the number of taken keys. |
| SectionKeys.FirstFreeIsUnique | apps/bff/src/template-service.ts:192-201 | There is only one such key. |
| SectionKeys.RepeatsAreNumbered | apps/bff/src/template-service.ts:192-201 | Where the seed and its first repeats are taken the key is the seed, an underscore and the next number, from 2. |
| SectionKeys.NormalizeSections | apps/bff/src/template-service.ts:130-160 | Accepts exactly 1 to 60 faultless sections, keeping number, order and trimmed texts, with pairwise distinct keys, each the first free for its title; otherwise the first fault in order. |
| SectionKeys.FaultsExactly | apps/bff/src/template-service.ts:134-147 | Each fault of a posted section, told from the section: no object, a blank title, a format outside the four, a blank instruction, each only where the ones before are in order. |
| SectionKeys.KeysArePlain | apps/bff/src/template-service.ts:116-129 | Every key is a plain identifier of at most 63 characters, and the title's own slug exactly when that was free. |
| ConnectionHealth.OneProbePerConnection | apps/bff/src/connection-health.ts:67-121 | At every point at most one probe per connection is running, its pending write included, and the in-flight map holds exactly the connections with one, after failures too. |
| ConnectionHealthRows.RowsAreTruthful | apps/bff/src/connection-health.ts:73-162 | An answered poll has one row per family. It says "not configured" if and only if the family had no enabled connection listed; otherwise its verdict was reached for the very connection that stands for the family, its first default or else its first, at the time shown: the listed one where fresh, else that of a probe of it. A row is older than the time to live if and only if the poll joined a probe that had reached its verdict that long before and was still waiting for its write. |
| ConnectionHealthRows.AnswersWhenComplete | apps/bff/src/connection-health.ts:128-162 | On every run a poll has answered if and only if it has a row for every family. |
| ConnectionHealthRows.ListedFromTheStore | apps/bff/src/connection-health.ts:128-131 | What a poll chooses from is what the store held at one of its own turns after it began. |
| ConnectionHealth.PromptWritesKeepTheBound | apps/bff/src/connection-health.ts:92-107 | Where every write finishes within the time to live of its verdict, no row is ever older than that. |
| ConnectionHealth.SlowWriteShowsAnOldVerdict | apps/bff/src/connection-health.ts:92-107 | For every time to live, a schedule with a slower write on which a poll shows an older verdict. |
| ConnectionHealthRows.ProbesStartExactlyWhenNeeded | apps/bff/src/connection-health.ts:73-83 | On every run a step starts a probe if and only if a poll's own listing of its family's connection is too old and no probe of that connection is running. |
| ConnectionHealthRows.EveryProbeWasNeeded | apps/bff/src/connection-health.ts:73-121 | Every probe of every run was started by such a step, for that connection. |
| EscalationLadder.LadderView | apps/bff/src/notify-service.ts:194-237 | Rows come out by hour, pairwise different in hour or kind, each with the strictly sorted union of its steps' channels; no row but the last reports. |
| EscalationLadder.NothingLostOrInvented | apps/bff/src/notify-service.ts:194-237 | A channel is shown at an hour, as a delegation or as a message, if and only if some step of that hour is one and names the channel or has its event routed there, or else the fallback. |
| EscalationLadder.ReportIsLast | apps/bff/src/notify-service.ts:190-207 | A row reports if and only if it is the last row and the last step is no delegation. |
| JiraDiscovery.Discovery.DiscoverOnce | apps/deploy/src/jira-discovery.ts:182-277 | Intake gets exactly the new keys in order of first sight until the cap is accepted; the accepted ones are returned and counted. |
| JiraDiscovery.RoundIsFairAndCapped | apps/deploy/src/jira-discovery.ts:213-277 | No key is tried twice or known, each was offered by an enabled rule, at most the cap is accepted, and below the cap every new offered key was tried. |

## Left out

- HTTP routes, live Jira, ADO and model calls, message texts, logs: input and output.
- DEFLATE: `inflate` is any partial function; the output limit is the reader's own.
- `looksLikeZip`: a comparison of four bytes.
- Time stamps and clocks, except in `ConnectionHealth`, where the clock only moves forward; calendar text is not parsed.
- The division in the zip reader's count check is written as the comparison 46 * count > size + 46.
- `localeCompare` and the sort order of channel names: a rule id and a channel stand for their places in that order.
- Folding of section titles (Turkish letters, case, accents): any function from text to text.
- Lower-casing of issue-type names is modelled as far as it can produce one of the five defect names.
- The canonical form of a parameter value is a field of the value; masking and listing of parameters are not modelled.
- Parsing of actor strings: actors are already classified.
- Which events an audit filter keeps: any predicate. Infinite offsets and limits are not modelled.
- `ParamsService`: starts from an installation with no stored parameters; rows put there by an installer are not modelled.
- `DemoRun`: the run's own stages are modelled on values as a step machine, because its guarantees are about interleavings; the webhook handlers also stand as methods. The text of prompts, comments and progress reports is not captured.
- `RunGateway`: engine calls are single steps, and a call that fails is taken to have had no effect; the checkout and version lookups before a row is written are left out.
- `ConnectionHealth`: the reader is modelled on values as a step machine; secrets, the content of notes and the `version` column are left out. Whoever else rewrites the connection rows leaves only verdicts that were reached.
- `Listening`: the check that a posted rule is well formed, and the quoting inside the query text.
- `JiraCommands`: each call is atomic and nothing it calls fails; ticket keys are taken to be well formed.
- `GateDecision`: whether the workflow accepts a delivered signal is its own business and not part of this model.
- `CommandPoll.HitsAreTheNewCommands`: speaks of threads that only grow and whose comments have distinct ids; the other poll theorems do not assume this.
- `DocxZip.ReadIsBounded`: a stored entry may be longer than the entry limit, because the limit is compared with the declared size only.
- `JiraDiscovery`: the query text and the rescheduling loop are left out; intake's answer is any function of the key, which loses nothing since no key is asked about twice.
- Publishing template versions, the kill-switch setter, notification settings and the Studio read models: small and easy next to what is here.
