# A verified model of the campaign engine, the benchmark splits and the report arithmetic

This project models three parts of the repository and proves what they promise.

**The campaign engine** (`src/searcher/campaigns/`, with the event stream of `src/searcher/api/events.py`).
A campaign is one row with a state and a version, a list of completed steps and an append-only event log.
`Transitions` holds the table of legal edges and the guards, and what any legal run owes to them.
`Controller` is the single writer: transitions, checkpoints, cancellation, events. `Race` takes the same
writer apart into its separate reads and writes and lets any number of threads interleave them.
`Orchestrator` is the process that walks the stages, updating the stored campaign in place; `Process` says step by
step, as functions on all a process can see, what each of its methods does, and the modules below are about these
functions. Between two controller calls, and between the flag check, the read, the write and the event of one
transition, the process may be killed and an operator may cancel. `Walk` says where a pass can stand. `Resume` and
`Runs` say how every call, pass and run can end and why; `Restarts` what the next process makes of the place it
finds, with whatever lanes; `Lanes` what becomes of a campaign whose matching stages were skipped; `Progress` what a
process gets done that nothing disturbs; `Witnesses` how the unintended ends are reached from a new campaign;
`Lifetimes` what any number of processes do together. `Stories` says what an event log tells of the versions that
were committed, `Retelling` that every run adds to that story, and `Untold` which versions it leaves out for ever.
`Verdicts` follows what the handlers of an undisturbed run find to the verdict, and says what a row tells of its own
end; `Lasting` says what no call of a run undoes: a blocked lane, a request to cancel, the coverage of a discovery that
fell back.
`Tasks` is idempotent worker tasks, `EventLog` and `Stream` the log and its replay to a client that reconnects,
`Publication` the result lists, `Terminal` the verdict a campaign stops with, `Shortlist` the cap before the
expensive stages.

**The split authority** (`benchmark/splits.py`). `RenderGroups` is the union-find with path halving over
shared image digests; `Splits` is the held-out side built from it and the two guards against leaks.

**Small algorithms** with an exact meaning: `PhotoReuse` (`src/searcher/authenticity/photo_reuse.py`),
`Threshold` (`benchmark/threshold.py`), `Confusion`, `Figures` and `Calibration` (`benchmark/metrics.py`).

Stored rows are assumed to behave as `src/searcher/storage/repositories.py` writes them: the campaign row is
replaced only if its version is the expected one, events are appended, tasks are found by search id and key.
What a stage handler leaves behind and announces, what a blocked lane says of itself, when a process dies, when an
operator cancels and when the budget is spent are decided by an environment that may answer anything. The facts of a
verdict are those stored and those the process saw: queries, candidates, counts and the coverage the last completed
discovery stored, and its blocked lanes.

## What the proofs found

- **A completed replan is a dead end.** `docs/architecture/ORCHESTRATION.md` promises to discover once more.
  `_replan` clears every completed step but one and ends in DISCOVERING, and the next edge wanted,
  DISCOVERING to PLANNING_SOURCES, is not in the table. A new campaign that nothing disturbs and that learns
  something in its first pass is replanned and ends FAILED; no later process handles a stage of it or completes it.
  Only a replan cut short before its last edge leaves a pass that can be walked.
- **A crash while the references are analysed is final** from INGESTING_REFERENCES on: the wave always
  starts at its first step, and that edge is then illegal. A new campaign is killed there and ends FAILED.
- **A skipped retrieval lane cannot come back.** A campaign that skipped the matching stages and died before its
  verdict asks, in a process that has the lane again, for the edge from GAP_ANALYSIS to FINE_MATCHING, and fails.
  A process that finds a campaign amid the matching stages without the lane handles nothing, and a replan or a
  COMPLETE from there is an edge that is not in the table.
- **A version can stay unannounced for ever.** `transition` commits the row in one transaction and its event in
  another. Killed in between, a process leaves a version no later one announces: the campaign is already in that
  state, so entering it does nothing. It is the only cause, and costs at most two versions for each process that
  dies; all other versions are announced once, with the state the row had, and the chain stays intact.
- **The end can be announced before the version it overtook**: a cancellation between the two writes of a transition
  gets its event into the log first. This is the only disorder.
- **A budget stop before DISCOVERING escapes `run`**: PARTIAL is refused exactly there, inside the handler of
  the budget exception.
- **A cancellation can be lost to a race**: the transition that passed its flag check first still commits, the
  cancel is refused as stale, and the campaign stays active with its flag up.
- **The event chain can fork** when two writers read the last event before either appends.
- **A stream can close before the terminal event is in the log**; the next connection delivers it.
- **A card does not keep a campaign from BLOCKED**: with no candidate stored, and discovery or every source blocked, an
  unsaturated campaign is BLOCKED whatever its counts say. In every other case a card and a blocked source or lane make
  it PARTIAL.
- **The stored hidden count is twice the recount.**
- **The confusion matrix can lose counts**: exactly when a pair repeats an unlisted prediction under an
  unlisted truth that was still unknown at an earlier use of that prediction. Every cell holds the pairs since its
  column was last made. Listed columns never lose any, so precision and the false-Real count are always right;
  the recall of a label is wrong exactly when a pair under it was lost, unless it was never found and something is
  still counted.
- **`assert_no_leakage` refuses an identifier repeated inside one side**, though its docstring and message
  speak of more than one split.
- **`run_task` does not check the search id on the worker's packet**; a packet filed under another campaign
  lets the work be done again.
- **`select_kept_ids` keeps one id under a cap of zero.**

## Model

| member | source | states |
|---|---|---|
| Transitions.RunFollowsSpine | src/searcher/campaigns/transitions.py:11-80 | until discovery a legal run can only follow the one reference spine or stop |
| Transitions.DiscoveryComesFirst | src/searcher/campaigns/transitions.py:71-187 | every state from discovery on has an earlier guarded DISCOVERING entry, no sooner than the ninth |
| Transitions.CompleteIsEarned | src/searcher/campaigns/transitions.py:210-262 | in every legal run COMPLETE and PARTIAL come after the whole spine and a guarded DISCOVERING, COMPLETE holds a receipt at its commit, and nothing follows either |
| Transitions.PublishingIsEarned | src/searcher/campaigns/transitions.py:81-166 | in every legal run each PUBLISHING directly follows DISCOVERING through RANKING in order, with the three guards true at those entries |
| Transitions.CancelOpenIffActive | src/searcher/campaigns/transitions.py:11-187 | CANCELLED is open from exactly the non-terminal states, whatever the facts |
| Transitions.PartialOpenIffDiscovered | src/searcher/campaigns/transitions.py:11-187 | a budget stop can be recorded as PARTIAL from exactly the active states at or after discovery |
| Transitions.PlanningSourcesOpenFrom | src/searcher/campaigns/transitions.py:63-187 | the first edge of a second round exists from PLANNING_QUERIES and REPLANNING only |
| Transitions.WaysIntoTheReferences | src/searcher/campaigns/transitions.py:11-62 | CREATED can be entered from nowhere and each state of the references from the one before it only |
| Transitions.WaysIntoTheSearch | src/searcher/campaigns/transitions.py:63-187 | from where the states of the search can be entered: the queries again from REPLANNING only, discovery from PLANNING_SOURCES, ACQUIRING or REPLANNING |
| Transitions.WaysIntoThePass | src/searcher/campaigns/transitions.py:81-130 | each stage from ACQUIRING to FINE_MATCHING can be entered from the one before it only |
| Transitions.WaysOutOfThePass | src/searcher/campaigns/transitions.py:111-187 | from where the later stages can be entered: each from the one before, GAP_ANALYSIS past the matching too, REPLANNING from DISCOVERING or GAP_ANALYSIS |
| Transitions.WaysToTheEnds | src/searcher/campaigns/transitions.py:11-187 | from where the campaign can end: COMPLETE from the last three, PARTIAL from the active states at or after discovery, BLOCKED from all active states but CREATED, FAILED and CANCELLED from every active state |
| Transitions.GuardsAsk | src/searcher/campaigns/transitions.py:210-251 | what each guarded state asks for when it is entered, and that no other asks for anything |
| Transitions.FailedIsInternal | src/searcher/campaigns/transitions.py:252-275 | FAILED is admitted exactly from an active state, with one of the five internal error classes and a reason in which neither phrase about matches stands anywhere, in any case of letters |
| Cancellation.CancellationController.Request | src/searcher/campaigns/cancellation.py:25-26 | after a request that campaign's flag is set and no other flag has changed |
| Cancellation.CancellationController.IsCancelled | src/searcher/campaigns/cancellation.py:17-29 | reading a flag answers whether it was requested and changes no flag, though it may create one |
| Controller.CampaignController.Transition | src/searcher/campaigns/controller.py:148-180 | a refused transition changes nothing; an admitted one commits one version and appends its one event |
| Controller.CampaignController.TakeCheckpoint | src/searcher/campaigns/controller.py:182-204 | the step marked is the state the row shows, not the label |
| Controller.CampaignController.Cancel | src/searcher/campaigns/controller.py:307-337 | the flag is set, an active campaign ends CANCELLED with both events, a terminal one is untouched |
| Controller.CancelPasses | src/searcher/campaigns/controller.py:307-325 | the transition inside cancel is never refused on an active campaign |
| Controller.CallAll | src/searcher/campaigns/controller.py:148-204 | the calls themselves, in any order on a new controller, leave it as the sequence the next lemmas are about |
| Controller.LogAlwaysRetellsRow | src/searcher/campaigns/controller.py:148-204 | after any sequence of completed controller calls the event chain is intact, version k announces the k-th state by a legal edge, the last is the row's, and no step is listed twice |
| Controller.CancelIsFinal | src/searcher/campaigns/controller.py:307-337 | after a completed cancel the row never changes again and the flag stays up, whatever is called |
| Controller.RowTellsItsCommits | src/searcher/campaigns/controller.py:148-180 | after any calls the row shows the last receipt that a commit was given, if any was, and once ended the reason and the verdict of the commit that ended it |
| Controller.CancelSaysSo | src/searcher/campaigns/controller.py:307-337 | a campaign ended by cancel says "cancelled by operator", and keeps the receipt it had or the one that is stored |
| Controller.GuardsReadTheDisk | src/searcher/campaigns/controller.py:128-146 | what the guards come to on the context that is put together from the row and from what is stored |
| Race.CommitsFormALegalRun | src/searcher/campaigns/controller.py:148-180 | for any writers in any interleaving the committed states are a legal run, the version counts the commits and the row shows the last |
| Race.AloneIsATransition | src/searcher/campaigns/controller.py:148-180 | undisturbed, the separate steps of one writer are the controller's transition: the same check, and the same row and event if it passes |
| Race.AloneIsAnAnnouncement | src/searcher/campaigns/controller.py:396-421 | undisturbed, the separate steps of an announcement append one event with the version the row then has |
| Race.RowTellsItsHistory | src/searcher/campaigns/controller.py:148-180 | for any writers in any interleaving the row shows the last receipt that a commit gave, and once ended the reason and the verdict of the commit that ended it |
| Race.TerminalIsFinal | src/searcher/campaigns/controller.py:156-171 | a terminal row is never left or overwritten by any writer, however late it commits |
| Race.CancellationBound | src/searcher/campaigns/controller.py:156-171 | after the request a writer commits at most the one transition whose flag check it had passed, and none if it had passed none |
| Race.OneTransitionFollows | src/searcher/campaigns/controller.py:156-171 | after the request, while only one writer is past its flag check, at most one more version and a CANCELLED after it are ever committed, in any interleaving |
| Race.OnlyCancelledRemains | src/searcher/campaigns/cancellation.py:25-33 | once nobody is past a flag check, the only thing that can still be committed is one CANCELLED |
| Race.CancelLandsIffUnraced | src/searcher/campaigns/controller.py:307-325 | a cancel takes effect exactly when no other writer commits between its read and its write, and then it writes the cancelled row |
| Race.CancelCanBeLost | src/searcher/campaigns/controller.py:156-171 | a reachable interleaving leaves the campaign active, flagged and with nobody at work |
| Race.TerminalRowPrecedesItsEvent | src/searcher/campaigns/controller.py:171-180 | a reachable interleaving shows a terminal row that no event in the log announces |
| Race.ChainOkIffReadsHold | src/searcher/campaigns/controller.py:396-421 | for any writers in any interleaving the chain holds if and only if nobody appends between a writer's last read of the last event id and its append |
| Race.AtomicEmitsKeepChain | src/searcher/campaigns/controller.py:396-421 | with read-last-then-append as one step every interleaving keeps the chain |
| Race.ChainCanFork | src/searcher/campaigns/controller.py:396-421 | with the two as separate steps two writers fork it |
| EventLog.EventChainOk | src/searcher/campaigns/events.py:46-52 | answers true exactly when every event names the one before it |
| EventLog.NumberedPublicEvents | src/searcher/campaigns/events.py:59-71 | returns the public events after a number, each under its place among all public events; the next row says which events they are |
| EventLog.PublicEventsAreTheLogs | src/searcher/campaigns/events.py:59-71 | the public events are the events of the log at strictly rising places, and every place of a public event is one of them |
| EventLog.NumbersAreStable | src/searcher/campaigns/events.py:59-71 | a longer log keeps the public events of a shorter one at the same numbers |
| Stream.LastEventIdRoundTrip | src/searcher/api/events.py:22-34 | every id written into a message is read back as the same number |
| Stream.WhatAHeaderMeans | src/searcher/api/events.py:22-34 | a header means the number it spells, with surrounding whitespace, a plus sign, leading zeros and single underscores between digits or without; every other text, negative numbers too, means from the beginning |
| Stream.Generate | src/searcher/api/events.py:42-63 | over any polls a connection sends exactly the numbered public events after the client's id, and a close-triggered return has sent all of its final read |
| Stream.GoesOnForMore | src/searcher/api/events.py:42-63 | a connection takes another turn only while nobody has left or deleted, and on a closed campaign only while its last look found more than it has sent |
| Stream.ReplayIsExactlyOnce | src/searcher/api/events.py:42-63 | a client that reconnects any number of times with its last id receives a gap-free, duplicate-free prefix of the public events, whatever each connection's last read was |
| Stream.ClientReceivesExactlyOnce | src/searcher/api/events.py:22-63 | the same from end to end, over connections each served by the polling loop from the header the client then sent; and after a close that lost no message, everything its final read showed |
| Stream.EachEventOnce | src/searcher/api/events.py:42-63 | of a log whose ids are places such a prefix is events of that log in its order, none twice, and every public one up to the last |
| Stream.ClientSeesEachEventOnce | src/searcher/api/events.py:22-63 | over any connections, each served by the polling loop, ids strictly rise along what the client received, all of it public and from the log, and every public event up to its last one is there once |
| Stream.UncutSessionCatchesUp | src/searcher/api/events.py:42-63 | one connection that is not cut off brings the client up to everything the server read for it |
| Stream.WhatACloseLeavesBehind | src/searcher/api/events.py:53-56 | what a close can leave unsent are exactly the public events appended after its final read |
| Tasks.TaskController.RunTask | src/searcher/campaigns/controller.py:232-267 | the worker runs exactly when no task is stored under the capsule's key |
| Tasks.TaskController.CommitPacket | src/searcher/campaigns/controller.py:209-230 | a packet whose key is stored changes nothing; another stores its evidence and its task once |
| Tasks.WorkIsDoneOnce | src/searcher/campaigns/controller.py:209-267 | over any calls, also with packets of other campaigns: a worker is run if and only if no packet is filed under its capsule's key, later calls return the one that is and change nothing, no key is filed twice, and only filed packets' evidence is committed |
| Tasks.RepeatReusesIffSearchIdMatches | src/searcher/campaigns/controller.py:253-267 | a second call reuses the first packet if and only if the worker put the capsule's search id on it |
| Tasks.FailuresLeaveNoTrace | src/searcher/campaigns/controller.py:232-267 | after any calls a call fails exactly when it runs a worker that raises, gives no packet or gives one of another key, says which, changes nothing and leaves the next call to ask again; otherwise the answer is the worker's packet |
| Tasks.StoredIsNotRunAgain | src/searcher/campaigns/controller.py:253-267 | a task stored without its packet is answered with an empty packet for the capsule, and its worker is not run |
| Terminal.UiCoverage | src/searcher/campaigns/orchestrator.py:531-594 | every source becomes one coverage row filed by its outcome, and the hidden results are counted |
| Terminal.CollectOutcomes | src/searcher/campaigns/orchestrator.py:1545-1559 | a record overwrites a source's outcome, a bare name only fills a gap |
| Terminal.ChooseTerminal | src/searcher/campaigns/orchestrator.py:1501-1577 | the branches, including the call into published_terminal_status, decide exactly the one verdict that the lemmas below characterise on the facts |
| Terminal.VerdictOnTheFacts | src/searcher/campaigns/orchestrator.py:1501-1577 | the verdict of an unsaturated campaign, three times if and only if, on its counts, lanes, queries and rows alone: when it is BLOCKED, when PARTIAL and when COMPLETE |
| Terminal.VerdictOfTheSaturated | src/searcher/campaigns/orchestrator.py:1501-1577 | a saturated one is COMPLETE, with a saturation receipt, unless discovery is blocked and left no candidate: then it is BLOCKED |
| Terminal.CardsAreNotBlocked | src/searcher/campaigns/orchestrator.py:1501-1577 | with a card and a blocked source or lane an unsaturated campaign is PARTIAL, except exactly where no candidate is left and discovery or every source is blocked |
| Terminal.ReasonIsTrue | src/searcher/campaigns/orchestrator.py:1501-1577 | whatever sentence a verdict gives as its reason, what the sentence says is true of the facts |
| Terminal.OutcomesDecide | src/searcher/campaigns/publication.py:80-133 | what each of the twelve outcomes of a source comes to in an empty search, alone and beside a source that answered |
| Terminal.CompleteMeansEverySourceAnswered | src/searcher/campaigns/publication.py:80-133 | on the live path an exhaustion COMPLETE means no planned source is in the unresolved set, and a blocked one leaves no candidate and no card |
| Terminal.FallbackIsNeverExhaustion | src/searcher/campaigns/orchestrator.py:503-529 | on coverage that is empty or only the fallback row no unsaturated campaign is COMPLETE, even in a process that forgot the blocked lane |
| Terminal.UnresolvedIffUnansweredAtLast | src/searcher/campaigns/orchestrator.py:1545-1559 | for coverage rows of any shape and order an unresolved outcome is noticed exactly when it is the last record of its source |
| Terminal.CompleteIffLastRecordsAnswer | src/searcher/campaigns/orchestrator.py:1545-1577 | where the outcomes decide, the verdict is COMPLETE exactly when every source's last record is an answer, and PARTIAL otherwise |
| Walk.SequenceIsLegal | src/searcher/campaigns/orchestrator.py:294-314 | wherever a pass can stand, the next stage of the sequence is a legal edge away |
| Walk.RemainingAt | src/searcher/campaigns/orchestrator.py:363-370 | with the first k stages completed, what is left is the sequence from stage k on |
| Walk.EarlyPlansAgree | src/searcher/campaigns/orchestrator.py:294-314 | until BROAD_RETRIEVAL is completed, candidates may come and go without moving the campaign |
| Resume.RefusalIsTrue | src/searcher/campaigns/transitions.py:190-275 | what a refused transition blames is the case: the flag is up, the edge is not in the table, or the guard is false |
| Resume.NextStageAt | src/searcher/campaigns/orchestrator.py:363-370 | the stage picked is the k-th when the first k are completed, and none at the end |
| Resume.StageResumes | src/searcher/campaigns/orchestrator.py:383-389 | a stage that is due is never refused as an illegal edge; wherever it is cut short the campaign stands before it or after it, with its cause in the environment, in the flag or in a false guard |
| Resume.PipelineResumes | src/searcher/campaigns/orchestrator.py:340-389 | from wherever k stages are done, with any lanes, the remaining ones are handled in order, each once, without the retrieval lane those up to BROAD_RETRIEVAL and GAP_ANALYSIS, and all of them if the pass comes back; any end leaves the campaign at a known place, at most one stage to be repeated, and no pass asks for an illegal edge |
| Resume.SkipResumes | src/searcher/campaigns/orchestrator.py:376-382 | without the retrieval lane a pass at BROAD_RETRIEVAL handles GAP_ANALYSIS in place of the matching stages, and leaves the campaign before them or past them |
| Runs.RecordExactly | src/searcher/campaigns/orchestrator.py:1601-1621 | a verdict is recorded exactly when nobody cancelled, nothing comes before its write and the state reaches it, and then its row has the sentence of the verdict and a receipt; otherwise the campaign is as it was or cancelled, and each refusal has its cause |
| Runs.FaultsComeOut | src/searcher/campaigns/orchestrator.py:383-389 | what a handler ends with comes out of its stage: a spent budget, an error, and a cancellation exactly if it was asked for and noticed |
| Runs.StageWrites | src/searcher/campaigns/orchestrator.py:278-292 | a stage that comes back has written the commit of entering it unless it was entered before, its progress event, its handler's events, and one checkpoint and one completed step under its name |
| Runs.VerdictWrites | src/searcher/campaigns/orchestrator.py:1601-1621 | a recorded verdict is one commit, one checkpoint and the closing event, whatever is cancelled meanwhile |
| Runs.FailureWrites | src/searcher/campaigns/orchestrator.py:1623-1643 | a recorded failure is one commit and the closing event, without a checkpoint |
| Runs.TerminateExactly | src/searcher/campaigns/orchestrator.py:1579-1621 | an active campaign gets the verdict its stored facts earn, with its sentence, unless the process dies before the write, somebody cancels before it, or the state does not reach it; each exactly then |
| Runs.ReceiptComesFirst | src/searcher/campaigns/orchestrator.py:1579-1600 | the receipt is stored before the verdict is tried and stays stored whether it is recorded, refused or cut short |
| Runs.FailExactly | src/searcher/campaigns/orchestrator.py:1623-1643 | FAILED is recorded from every active state unless the process dies first or the campaign is being cancelled; each exactly then |
| Walk.InternalErrorBlamesNoMatches | src/searcher/campaigns/transitions.py:252-275 | the sentence _fail records never trips the guard against blaming missing matches |
| Runs.StopExactly | src/searcher/campaigns/orchestrator.py:209-224 | the except clauses, exactly: an illegal edge out of an active state escapes if and only if a spent budget stops a campaign before discovery that is reached before a crash or a cancel; from discovery on it is PARTIAL; any other exception is FAILED |
| Runs.RoundsEnd | src/searcher/campaigns/orchestrator.py:196-208 | the loop ends; it comes back only with the campaign ended, by a cancellation or with the verdict its facts earned, and otherwise for a reason the environment gives |
| Runs.RunEnds | src/searcher/campaigns/orchestrator.py:187-224 | for every stored campaign and every environment: a run returns only with the campaign ended or being cancelled, dies only in a crash, lets out only a cancellation, one that overtook a budget stop, or a budget stop before discovery; a transition overtaken by a cancel leaves the campaign CANCELLED; a verdict that is not a budget stop is always what the stored facts earned, with its sentence and a receipt on the row; COMPLETE is never anything else, PARTIAL otherwise a spent budget, FAILED another exception |
| Restarts.WaveResumes | src/searcher/workers/reference/pipeline.py:38-250 | a wave started where it can be asks for no illegal edge, comes back only with its last step done or the campaign cancelled, and otherwise stops inside itself |
| Restarts.LostInTheWave | src/searcher/workers/reference/pipeline.py:38-250 | found past VALIDATING_INPUT the wave is refused at its first edge and nothing changes |
| Restarts.EnsureReferenceResumes | src/searcher/campaigns/orchestrator.py:316-338 | a walk that has begun skips the wave; a campaign in its first two states reaches the walk or stops on the way; a later one is refused |
| Restarts.ReplanExactly | src/searcher/campaigns/orchestrator.py:1287-1341 | after a finished pass the campaign is sent back exactly if a round is left, something was learned, nothing says stop and neither a crash nor a cancellation comes in between; cut short it is a pass that can be walked |
| Restarts.SentBackOnlyFails | src/searcher/campaigns/orchestrator.py:187-224 | a run of a campaign that was sent back handles no stage; left alone it ends FAILED on the edge from DISCOVERING to PLANNING_SOURCES, otherwise CANCELLED, PARTIAL on a spent budget, or it stays sent back |
| Restarts.SentBackOverdue | src/searcher/campaigns/orchestrator.py:187-227 | the same for a process that is allowed no more rounds than are stored: no stage is handled, it never ends COMPLETE, and the one illegal edge it can ask for is to COMPLETE |
| Restarts.RunResumes | src/searcher/campaigns/orchestrator.py:187-227 | with any lanes and any rounds, a run that finds a walk anywhere handles the stages from there on, in order; it ends the campaign or leaves it where the next process goes on, at most one stage to be repeated; it asks for an illegal edge out of an active state only after it walked its whole pass and was replanned, over a retrieval lane that came or went, or for a verdict with its rounds used up |
| Restarts.LostCampaignFails | src/searcher/campaigns/orchestrator.py:316-338 | a campaign whose process died inside the wave handles nothing more and ends FAILED unless its process dies or it is being cancelled |
| Progress.SmoothRun | src/searcher/campaigns/orchestrator.py:187-224 | a run that nothing disturbs, from every place its lanes let it go on from, handles every stage still to be done, once and in order, and ends the campaign: with the verdict its facts earned if it was not replanned, FAILED if it was |
| Witnesses.ReplanSendsANewCampaignToFailed | src/searcher/campaigns/orchestrator.py:1287-1341 | from its creation, with a second round allowed and something learned, an undisturbed campaign walks its pass, is replanned and ends FAILED |
| Witnesses.LateRun | src/searcher/campaigns/orchestrator.py:209-216 | a run whose time is spent when it starts ends PARTIAL after discovery; before it the refused transition escapes and the campaign stays as it was |
| Witnesses.BudgetStopEscapesANewCampaign | src/searcher/campaigns/orchestrator.py:209-216 | from its creation, a campaign whose time is spent lets the edge from PLANNING_QUERIES to PARTIAL escape |
| Witnesses.KilledInTheWave | src/searcher/campaigns/controller.py:148-180 | from its creation, a process killed between the row and the event of INGESTING_REFERENCES leaves the campaign lost in the reference wave, with that version untold |
| Witnesses.KilledPastTheMatching | src/searcher/campaigns/orchestrator.py:376-382 | from its creation, a process without the retrieval lane that is killed before its verdict leaves the campaign past the matching stages |
| Lifetimes.LifetimeStands | src/searcher/campaigns/orchestrator.py:187-227 | through any number of processes, each with its own settings and lanes, the campaign stands at a known place after each; every process handles the stages from its place to the next in order, nothing if it found the campaign sent back or lost; an illegal edge out of an active state has one of these causes, a replan of its own, a retrieval lane that came or went, or used-up rounds; an overtaken transition means CANCELLED |
| Lifetimes.WorkIsBounded | src/searcher/campaigns/orchestrator.py:340-389 | all processes together, whatever their settings and lanes, call at most the twelve handlers and one more for every process; only a replan cut short costs another pass |
| Lifetimes.NothingMends | src/searcher/campaigns/orchestrator.py:187-227 | once replanned, or lost in the reference wave, no number of processes with any settings and lanes handles another stage of the campaign or completes it |
| Lifetimes.OneProcessIsEnough | src/searcher/campaigns/orchestrator.py:187-224 | whatever is stored, one process that is not killed and during which nobody cancels ends the campaign, or stops on its budget before discovery |
| Lifetimes.KilledInTheWaveFails | src/searcher/campaigns/orchestrator.py:316-338 | from its creation: a process killed in the reference wave, and the next one, undisturbed, ends the campaign FAILED without handling a stage |
| Lifetimes.KilledPastTheMatchingFails | src/searcher/campaigns/orchestrator.py:340-389 | from its creation: a process without the retrieval lane, killed before its verdict, and the next one, with the lane and undisturbed, ends the campaign FAILED without handling a stage |
| Lanes.SkippedOnlyFails | src/searcher/campaigns/orchestrator.py:340-389 | a campaign that skipped matching, found by a process that has the lane again, handles nothing and left alone ends FAILED |
| Stories.WhatTheLogTells | src/searcher/campaigns/controller.py:148-180 | when the log tells what was committed: every event has the state the row had at its version, a version is announced unless it was left untold, none twice, all in order but for one overtaken by the cancellation that ended the campaign |
| Untold.TheLogIsTrue | src/searcher/campaigns/orchestrator.py:187-227 | from creation, through any processes killed, cancelled or stopped anywhere down to between the writes of a transition, the event chain is intact, every event announces the state of its version, none is announced twice, all in order but for one overtaken by the final cancellation, at most two are missing for each process that died, and no step is listed twice |
| Untold.OnlyADeathLeavesOneUntold | src/searcher/campaigns/controller.py:148-180 | a version is announced by the process that commits it or by none, ever; it stays untold only if that process dies between the two writes of a transition or of a cancel, and only among the last two it leaves |
| Untold.ToldUnlessKilled | src/searcher/campaigns/controller.py:165-180 | a transition that comes to its write is announced if and only if its process does not die between the write and the event |
| Untold.CancelToldUnlessKilled | src/searcher/campaigns/controller.py:307-337 | a cancel of an active campaign is announced if and only if its process does not die right after its write |
| Untold.AVersionIsNeverTold | src/searcher/campaigns/controller.py:165-180 | from its creation: a process killed between the two writes, and no process after it ever announces version 2 |
| Untold.TheEndIsToldFirst | src/searcher/campaigns/controller.py:307-337 | from its creation: a cancel between the two writes of the first transition, and the log announces versions 0, 2, 1 |
| Verdicts.RowsSayTheirEnd | src/searcher/campaigns/orchestrator.py:187-227 | from creation, through any processes, an active row gives no reason, a cancelled one names the operator, a failed one has the fixed sentence, and a verdict gives one of its own and carries a receipt |
| Verdicts.CompleteSaysWhy | src/searcher/campaigns/orchestrator.py:1501-1621 | a run that ends COMPLETE says "success saturation" or "coverage exhausted", whichever its counts make true, and its row carries the receipt |
| Verdicts.JudgedOnWhatWasFound | src/searcher/campaigns/orchestrator.py:187-224 | an undisturbed run of one round of a new campaign is judged on the coverage its DISCOVERING handler found and on the queries, candidates and counts its last handler left |
| Verdicts.EmptySearchIsCompleteIffAnswered | src/searcher/campaigns/orchestrator.py:454-529 | so from its creation a search that was carried out and found nothing ends COMPLETE exactly when every source that discovery asked answered at last, and PARTIAL otherwise |
| Lasting.FallingBackIsHollow | src/searcher/campaigns/orchestrator.py:503-529 | a discovery that comes back fallen back leaves no completed source and only the fallback row, whatever was stored before |
| Lasting.FallenBackIsNeverExhausted | src/searcher/campaigns/orchestrator.py:454-529 | once coverage is empty or only the fallback, no number of processes whose discoveries fall back, or that handle none, ends the campaign COMPLETE without the cards for it |
| Lasting.NeverExhaustedFromCreation | src/searcher/campaigns/orchestrator.py:454-529 | the same from creation on |
| Lasting.LanesAreKept | src/searcher/campaigns/orchestrator.py:391-529 | a lane that a handler finds blocked stays blocked for its process, and so does every lane blocked before |
| Lasting.BlockedLanesCount | src/searcher/campaigns/orchestrator.py:1501-1545 | a run that ends COMPLETE with a lane blocked, when it opened or later, is saturated or has candidates and no card |
| Lasting.CancelGoesFirst | src/searcher/campaigns/orchestrator.py:340-375 | unless a handler itself runs out of budget, a run is stopped by the budget only while nobody has asked to cancel |
| Orchestrator.CampaignOrchestrator.Enter | src/searcher/campaigns/controller.py:148-180 | the flag check, the read, the checks, the versioned write and the event, with whatever comes in between, do exactly what the transition of Runs, Restarts and Untold does |
| Orchestrator.CampaignOrchestrator.RunPipeline | src/searcher/campaigns/orchestrator.py:340-389 | the loop leaves the stored campaign exactly as the pass that Resume and Restarts are about does |
| Orchestrator.CampaignOrchestrator.ReferenceWave | src/searcher/workers/reference/pipeline.py:38-250 | the loop over the six steps leaves the campaign exactly as the wave that Restarts is about does |
| Orchestrator.CampaignOrchestrator.Replan | src/searcher/campaigns/orchestrator.py:1287-1341 | in place, exactly the replan of Restarts.ReplanExactly, and whether it happened |
| Orchestrator.CampaignOrchestrator.Terminate | src/searcher/campaigns/orchestrator.py:1579-1621 | in place, exactly the end of Runs.TerminateExactly |
| Orchestrator.CampaignOrchestrator.Rounds | src/searcher/campaigns/orchestrator.py:196-208 | the loop over the rounds ends and leaves the campaign exactly as Runs.RoundsEnd describes |
| Orchestrator.CampaignOrchestrator.Run | src/searcher/campaigns/orchestrator.py:187-224 | in place, exactly the run that Runs.RunEnds, Restarts.RunResumes and Progress.SmoothRun are about: the same world, outcome and cause |
| Orchestrator.Lifetime | src/searcher/campaigns/orchestrator.py:187-227 | one process after the other on the same stored campaign, each with an empty memory and possibly without the old flags, ends and leaves it exactly as the processes Lifetimes is about |
| Shortlist.SelectKeptIds | src/searcher/campaigns/orchestrator.py:93-109 | the kept ids are the first distinct non-empty ones up to the cap, but at least one |
| Shortlist.KeepsTheBest | src/searcher/campaigns/orchestrator.py:93-109 | ranked ids come first and in order, nothing twice, nothing left out while there is room, and exactly when the cap is kept |
| Publication.ShownIffEarned | src/searcher/campaigns/publication.py:30-77 | a valid decision is shown as Real or Possibly Real exactly when it says so, is no replica, can be opened and gives a reason; and then it has no veto |
| Publication.ListOfEach | src/searcher/campaigns/publication.py:30-77 | on which of the four lists every valid decision lands, each if and only if, on the decision and its listing alone |
| Publication.EventOfEach | src/searcher/campaigns/orchestrator.py:1148-1186 | every published decision is announced by the event of its list, for its candidate and its row |
| Publication.CountsAreAnnounced | src/searcher/campaigns/orchestrator.py:1148-1186 | there are as many rows on each list as events of its kind |
| Publication.Publisher.Publish | src/searcher/campaigns/orchestrator.py:1148-1186 | one row and one matching event per decision in order, nothing on a second call, counts equal to a recount but hidden twice it |
| Publication.Recount | src/searcher/campaigns/orchestrator.py:1174-1178 | the recount adds the hidden rows to the count already begun |
| Publication.PublishedIsSound | src/searcher/contracts/models.py:529-542 | every stored row that is shown is non-replica, has an http or https link, no veto and a reason, and shows what its decision said |
| Publication.ListsShareTheRows | src/searcher/campaigns/orchestrator.py:1174-1178 | the four lists together hold all the rows |
| RenderGroups.Forest.Find | benchmark/splits.py:84-88 | the walk ends at the root of its case and path halving changes no root |
| RenderGroups.Forest.Union | benchmark/splits.py:90-94 | linking gives right's whole tree left's root, keeps every other root and keeps the forest acyclic |
| RenderGroups.HalvingKeepsForest | benchmark/splits.py:84-88 | re-pointing a case at its grandparent keeps the forest and brings the walk nearer its root |
| RenderGroups.LinkingKeepsForest | benchmark/splits.py:90-94 | putting one root under another keeps the forest |
| RenderGroups.IndexByDigest | benchmark/splits.py:95-99 | the index lists exactly the cases that render each digest |
| RenderGroups.UnionFind | benchmark/splits.py:79-103 | two cases get the same root exactly when a chain of shared image digests connects them |
| Splits.ComputeRenderGroups | benchmark/splits.py:106-113 | the groups are the connected components, each once |
| Splits.HeldOutFromRenderGroups | benchmark/splits.py:116-126 | the held-out side holds exactly the cases connected to some seed |
| Splits.HeldOutIsWholeGroups | benchmark/splits.py:116-126 | it takes or leaves any two connected cases together |
| Splits.AssertNoPixelLeakage | benchmark/splits.py:430-471 | refuses an empty side, and otherwise reports exactly the digests both sides carry |
| Splits.CrossesIffShown | benchmark/splits.py:430-471 | a digest is reported exactly if an image of a calibration case and one of a case that is held out only have it |
| Splits.NoPixelLeakByConstruction | benchmark/splits.py:106-126 | for the held-out side built from the same images no digest crosses, so the guard can refuse only an empty side |
| Splits.AssertNoLeakage | benchmark/splits.py:276-302 | passes exactly when both sides are listed and no identifier is listed twice anywhere |
| Splits.SidesAreTheListings | benchmark/splits.py:276-302 | what is reported for an identifier is every listing of it, by side: calibration, then held out, then hidden, as many of each as there are |
| Splits.ListedOnceIffNoOverlap | benchmark/splits.py:276-302 | no identifier has two listings exactly when all listings are distinct |
| Splits.RepeatInsideOneSideIsRefused | benchmark/splits.py:276-302 | two listings inside calibration are refused too |
| PhotoReuse.CollectFamilies | src/searcher/authenticity/photo_reuse.py:57-68 | the families of a listing are the non-blank strongest keys of its images |
| PhotoReuse.KeyIsTheStrongest | src/searcher/authenticity/photo_reuse.py:57-68 | an image is known by the first of family, perceptual hash and digest that it has, without surrounding whitespace |
| PhotoReuse.SellerIsTheFirstNamed | src/searcher/authenticity/photo_reuse.py:34-54 | a listing's seller is the first of the six names that is not blank, otherwise its source, otherwise unknown |
| Text.StripsTheEnds | src/searcher/authenticity/photo_reuse.py:34-68 | stripping takes whitespace from both ends, all of it and nothing else |
| PhotoReuse.ScreenPhotoReuse | src/searcher/authenticity/photo_reuse.py:71-106 | for all candidates and thresholds both sets hold exactly the ids with an image under enough sellers |
| PhotoReuse.FlagsMeanOtherSellers | src/searcher/authenticity/photo_reuse.py:71-106 | reused exactly when another seller's listing shows one of its images, stock exactly when one image spans the threshold, and stock is reused |
| PhotoReuse.MoreCandidatesFlagMore | src/searcher/authenticity/photo_reuse.py:71-106 | adding candidates never takes a flag away |
| PhotoReuse.OrderDoesNotMatter | src/searcher/authenticity/photo_reuse.py:71-106 | both sets are the same for every order of the candidates |
| Threshold.RatesFall | benchmark/threshold.py:35-42 | raising the threshold never raises a rate |
| Threshold.RowsSayTheRates | benchmark/threshold.py:35-59 | every row of a sweep has its threshold, the rounded share of the positive pairs that score at least as much as tpr, that of the negative ones as fpr, and their numbers |
| Threshold.Sweep | benchmark/threshold.py:45-59 | the sweep is the sixty rows from 0.40 to 0.99 |
| Threshold.ChoosesTheLowest | benchmark/threshold.py:62-72 | on a sweep the chosen row has the lowest threshold within the ceiling, no row within it finds more, and none is chosen exactly when none is within it |
| Threshold.LowestIffItFindsMost | benchmark/threshold.py:62-72 | on any rows the choice is within the ceiling and nothing within it finds more; it has the lowest threshold exactly when a row with the lowest threshold finds as much as any |
| Confusion.ConfusionMatrix | benchmark/metrics.py:44-56 | the loop computes the table the lemmas below are about |
| Confusion.CellHoldsTheCounted | benchmark/metrics.py:44-56 | for every input a cell holds exactly its pairs since the column of its prediction was last made |
| Confusion.NeverOvercounts | benchmark/metrics.py:44-56 | no cell ever exceeds the number of its pairs |
| Confusion.ExactIffNothingClashes | benchmark/metrics.py:44-56 | every cell is the number of its pairs exactly when no pair repeats an unlisted prediction under a then unknown, unlisted truth |
| Confusion.ListedPairsAreExact | benchmark/metrics.py:44-56 | in particular when all truths or all predictions are listed |
| Confusion.TwoPairsLoseACount | benchmark/metrics.py:50-54 | two pairs are enough to lose one |
| Figures.TotalIffNothingClashes | benchmark/metrics.py:44-56 | all cells together are at most the pairs, and equal them exactly when nothing clashes |
| Figures.PrecisionRecall | benchmark/metrics.py:59-73 | for every label precision is missing exactly when nothing was predicted as it, and times the predicted pairs it is the correct ones; recall is the same over the pairs of its row that are still counted |
| Figures.PerfectIffNeverWrong | benchmark/metrics.py:59-73 | a precision is 1 exactly when the label was predicted and never wrongly, and 0 exactly when it was predicted and never rightly |
| Figures.RecallIsRightIff | benchmark/metrics.py:59-73 | the recall of a label is right exactly when no pair under it was lost, or none of it was found and something under it is still counted |
| Figures.FalseRealReport | benchmark/metrics.py:76-95 | the report counts and lists the false Reals; each rate is missing exactly when its denominator is zero, and times it is the count, over all items and over those not labelled real |
| Figures.FalseIdsAreListed | benchmark/metrics.py:76-95 | the ids listed are those of the items published as real and labelled otherwise, at strictly rising places and all of them |
| Figures.FalseRealAgreesWithTheMatrix | benchmark/metrics.py:76-95 | the false Reals are the column of real without its diagonal, for every input |
| Calibration.Edges | benchmark/metrics.py:106-111 | for every positive width the walk ends and its edges are the rounded multiples of the width below nearly 1 and then 1; they rise from 0, strictly if rounding keeps numbers apart |
| Calibration.EdgesFit | benchmark/metrics.py:106-111 | there is an edge for every multiple of the width below 1 less a millionth of a millionth, and no other before 1 |
| Calibration.FillBin | benchmark/metrics.py:114-139 | a bin's figures are those of the pairs inside it |
| Calibration.BinSays | benchmark/metrics.py:114-139 | a bin's count and its positives are the numbers of such pairs inside it, and its mean times its count is the sum of their scores |
| Calibration.SumSplits | benchmark/metrics.py:114-139 | the sum of the scores in a bin adds up over any two lists of pairs |
| Calibration.SumOfOne | benchmark/metrics.py:114-139 | the sum of one pair is its score if it is inside, and otherwise nothing |
| Calibration.CalibrationBins | benchmark/metrics.py:98-152 | one bin per pair of edges, and the threshold's bin holds it, or is missing exactly when the threshold is out of range |
| Calibration.ExactlyOneBin | benchmark/metrics.py:117-127 | every score from 0 to 1 is in exactly one bin, and no other score in any |
| Calibration.EdgesBelongAbove | benchmark/metrics.py:117-127 | a score on an edge belongs to the bin above it, and 1 to the last |
| Calibration.BinsShareThePairs | benchmark/metrics.py:117-139 | the bins' counts add up to the pairs in range |
| Calibration.MeanBetween | benchmark/metrics.py:125-139 | a bin's mean lies between its edges |

## Left out

- Discovery, fetching, adapters, image decoding, matching, authenticity scoring and ranking: a stage handler is an arbitrary change of what is on disk that may fail; from FINE_MATCHING on it neither invents the first candidate nor loses the last.
- SQLite, the content store, receipts' digests and budget arithmetic: assumed contracts, or answers of the environment.
- Orchestrator.CampaignOrchestrator.Run: a cancel puts its flag up first and comes to the row whenever the environment says; from there its writes are made together, unless its process dies among them. Nothing comes between the two halves of an event append: that is Race. A cancel from another operating-system process, whose flag this one cannot see, is not modelled.
- Controller.CampaignController.Cancel: closing the campaign's open tasks is not modelled.
- Terminal.UiCoverage: the rows' detail texts, the strategies and the charged-page figure are not modelled; the pages are a parameter.
- `reconstruct` at the start of a run, and `is_deleted` in it.
- Two threads overwriting each other's `runtime` record: the steps, the round and the coverage are read and written as one.
- Deleting a campaign, which purges its log and its rows; the stream only notices that it happened.
- `_salvage_publish` before a budget verdict: it changes results and never the state.
- Publication.Publisher.Publish: a crash between two inserts leaves a prefix that a later call does not complete; where transactions begin and end is not part of this model.
- Tasks.TaskController.CommitPacket: a crash between storing the evidence and storing the row is not modelled, for the same reason.
- PhotoReuse.ScreenPhotoReuse: case folding is a parameter, and metadata values that are not text are dropped beforehand.
- Text.Strip: whitespace beyond Latin-1 is not stripped; Stream.ParseLastEventId reads ASCII digits only.
- Threshold.ChoosesTheLowest, Calibration.Edges: floating point is replaced by exact reals and an arbitrary monotone rounding.
- Calibration.Edges: a width of zero or less, for which the original loop never ends.
- Splits: `assign_kind_split`, manifests and the split properties.
- `recall_at_k`, `mean_reciprocal_rank` and `group_ranks`: plain averages and grouping.
- Replica text detection and URL splitting: answers carried by the listing.
- The API routes other than the event stream, the web interface, scripts and report rendering.
