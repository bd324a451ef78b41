# kodezart, verified

Kodezart runs coding agents against tickets: a request is queued, a fire graph of nodes
drives sessions, merges and reviews, a delivery graph publishes the result, prompts are
rendered from templates, and everything written outward passes an admission gate. This
project models the parts of it where correctness rests on several pieces agreeing over time,
and proves what they promise. `dafny verify dfyconfig.toml` checks all of it.

## What is modelled

* **Prompt templates** (`PromptSyntax`, `PromptRoundTrip`, `PromptPrinting`,
  `PromptRendering`, `PromptFreeNames`). The tokeniser, the stack parser, the recursive
  renderer with its mutable scope stack and missing list, and the free-name analysis. The
  parser accepts exactly the bracketings of a tree and says exactly why it refuses; printing
  and parsing undo each other on exactly the canonical trees; the renderer refines a pure
  meaning; two binding maps that agree on the free names render alike.
* **The job queue** (`JobStreams`, `JobStreamObject`, `JobRegistry`, `JobQueue`,
  `JobQueueInvariant`, `JobQueueRuns`, `JobQueueReaders`, `AsyncioQueue`). A transition system whose steps run
  from one suspension point to the next, its invariant over five structures kept in step by
  hand, and theorems over every interleaving: what readers are handed, the order and number
  of jobs started, how records move, that none ends unstarted but at a stop, what a shutdown
  leaves. The stream, the registry and the queue are also classes whose methods are tied to
  those steps.
* **The workflow graphs** (`FireGraph`, `FireTermination`, `FireInvariant`, `FireRuns`,
  `FireFindings`). The authored fire graph inside its delivery graph, the scope graph, and
  the tracker-native lane with its own delivery, as one state machine over one counter of
  remediation rounds. Every run ends, from every state; no node's own precondition is unmet
  but in three cases, each characterised exactly and reached; the classifiers always find a
  disposition; what a run spends is bounded.
* **Outbound admission** (`OutboundGating`, `OutboundRedaction`, `OutboundAdmission`,
  `ReferenceScanner`). Exact redaction over overlapping spans, the verdict fold, the decision
  and its bounded memo, and the span-preserving decoder of displayed references.
* **The criteria barrier and its loop** (`Criteria`, `RalphLoop`), and **bounded re-dispatch**
  (`Redispatch`).

Sessions, the merger, the board, the forge, the scanners and the evaluator are answers given
to the model: parameters, streams of answers, or functions. `Possible` in `FireGraph` states
what their own contracts promise: a merge reports one outcome for one repository, a quality
loop reports between one iteration and its limit. A sweep that demands regeneration is taken
to be one whose list of regeneration targets is not empty. `Composed` states the one thing
the theorems take from the composition root: the publisher of stalled heads is always wired.

## Where the code and its documentation part

* `types/domain/outcome.py` calls both fix-budget outcomes unreachable at any valid
  configuration. The code reaches both, whatever the number of rounds: at every authored
  configuration `AFailedReviewExhaustsItsBudget` has a run whose last review fails, and at every
  one with a forge `FailedChecksExhaustTheirBudget` has one whose pull request fails its last
  checks. `FixBudgetOutcomesReadTheRun` says exactly which ended runs get each of them. Every
  other disposition is read off the ending, both ways, by `DispositionsReadTheEnding` for the
  fire and by `UnpublishedDispositionsReadTheEnding` and `PublishedDispositionsReadTheEnding`
  for the authored run.
* The native delivery reads a fire as stalled from six fields of the state and not from
  whether its ruling was recorded. In a fire whose ruling went unrecorded it then publishes
  the tip of an earlier round. `AStaleTipIsDelivered` is such a run, and
  `StalledTipIsStaleIffRulingUnrecorded` says it happens in those fires and no others.
* The stalled publication raises when no tip is recorded. On the authored and native arms
  that never happens, nor on a scope run whose operation declares no repository, which takes
  the single-repository path. On a scope run over declared repositories it happens exactly
  when nothing was landed, because no repository gained commits or every one that did
  diverged: `ScopeStallRaisesIffNothingLanded`, reached by
  `AScopeRunRaisesAtItsStalledPublication`.
* The composition root compiles a native graph whenever it has a criteria source, but gives it
  a rulings reader only when write-back is configured, which by default it is not
  (`composition/engine.py`, lines 182-202 and 256-270); and it sends a request without a
  repository to the forge arm, calling every forge call guarded (lines 101-111). A lane then
  raises where it rules open questions exactly when it has no reader (`RulingRaisesIffUnread`,
  `ALaneWithoutItsReaderRaises`), and at its delivery exactly when a forge is to publish and
  there is no repository (`DeliveryRaisesIffUnhoused`, `ALaneWithoutItsRepositoryRaises`). These
  two and the scope run's are all the faults of their own the graphs can stop on (`Excused`).

## Model

| member | source | states |
|---|---|---|
| `PromptSyntax.FindPair` | src/kodezart/core/prompt_rendering.py:24 | the index of the first adjacent pair of a brace, with none before it, or none at all |
| `PromptPrinting.SplitShape` | src/kodezart/core/prompt_rendering.py:71-75 | a body with a tag is the text before it, the tag's content and the rest, with no earlier pair of braces in either |
| `PromptPrinting.SplitUnique` | src/kodezart/core/prompt_rendering.py:71-75 | there is only one such division, and it is the one found |
| `PromptRendering.ParseTemplate` | src/kodezart/core/prompt_rendering.py:67-98 | the stack loop over the tags answers what the recursive parser over tokens does |
| `PromptRoundTrip.ParseAcceptsExactlyTrees` | src/kodezart/core/prompt_rendering.py:67-98 | a body parses to a tree exactly when its tokens are that tree's bracketing by if and each |
| `PromptRoundTrip.AcceptedIsBracketed` | src/kodezart/core/prompt_rendering.py:67-98 | a body is accepted exactly when some tree brackets its tokens |
| `PromptRoundTrip.RefusalIsExact` | src/kodezart/core/prompt_rendering.py:77-98 | "unclosed" means not bracketed but completable, any other refusal that no continuation is accepted |
| `PromptRoundTrip.BuildSound` | src/kodezart/core/prompt_rendering.py:69-98 | an accepted tree flattens back to exactly the tokens consumed |
| `PromptRoundTrip.BuildComplete` | src/kodezart/core/prompt_rendering.py:69-98 | the tokens of any known tree are read into the top block as that tree |
| `PromptPrinting.ParsePrint` | src/kodezart/core/prompt_rendering.py:67-98 | a canonical tree, printed with padded tags, parses to itself |
| `PromptPrinting.ParsedIsCanonical` | src/kodezart/core/prompt_rendering.py:67-98 | every accepted tree is canonical, so printing it and parsing again is lossless |
| `PromptPrinting.CanonicalIsTheRange` | src/kodezart/core/prompt_rendering.py:67-98 | the canonical trees are exactly those some body parses to |
| `PromptPrinting.UnpaddedNameReadsBack` | src/kodezart/core/prompt_rendering.py:24-76 | a name tag without padding reads back exactly when the name does not end in a brace |
| `PromptPrinting.TagReadsBack` | src/kodezart/core/prompt_rendering.py:76-96 | a canonical tag's padded source is classified as that tag |
| `PromptRendering.ResolvePath` | src/kodezart/core/prompt_rendering.py:112-131 | the loop over scopes and path segments finds what the recursive resolution does |
| `PromptRendering.RenderNodes` | src/kodezart/core/prompt_rendering.py:134-169 | the text is the denoted leaves', the missing list gains exactly their holes, the scope stack is restored |
| `PromptRendering.RenderNode` | src/kodezart/core/prompt_rendering.py:139-169 | one node's share of that, with a false if reaching nothing of its body |
| `PromptRendering.RenderItems` | src/kodezart/core/prompt_rendering.py:158-169 | each item is rendered in a frame of its own that is popped again |
| `PromptRendering.RenderTemplate` | src/kodezart/core/prompt_rendering.py:172-186 | the renderer answers the template's meaning: the text, the unbound names, or the refusal |
| `PromptRendering.MergeExact` | src/kodezart/core/prompt_rendering.py:134-186 | the collected names are the reached holes without repeats |
| `PromptRendering.MissingIsExact` | src/kodezart/core/prompt_rendering.py:134-186 | a name is reported missing exactly when an unbound reference to it is reached |
| `PromptRendering.MergeInOrder` | src/kodezart/core/prompt_rendering.py:134-186 | missing names stand in the order they were first reached |
| `PromptFreeNames.FreeBindingNames` | src/kodezart/core/prompt_rendering.py:255-265 | the collected set is the free names of the parsed tree, and a malformed body has none |
| `PromptFreeNames.CollectFree` | src/kodezart/core/prompt_rendering.py:268-280 | the mutable walk adds exactly the free names of the nodes |
| `PromptFreeNames.FreeNamesDecideRendering` | src/kodezart/core/prompt_rendering.py:255-280 | binding maps that agree on the free names' heads render the body identically |
| `PromptFreeNames.MissingNamesAreListed` | src/kodezart/core/prompt_rendering.py:255-280 | every name a rendering reports missing is a free name, or a loop's own under that loop, and then an item frame it pushed has no such member or finds it null |
| `PromptFreeNames.HolesAreListed` | src/kodezart/core/prompt_rendering.py:255-280 | the same of every reference left unbound, within a loop or outside one |
| `JobStreams.StepKeeps` | src/kodezart/adapters/asyncio_job_queue.py:42-95 | every legal step keeps the buffer the history's tail and each reader on an unbroken tail |
| `JobStreams.ReaderSeesAnUnbrokenTail` | src/kodezart/adapters/asyncio_job_queue.py:77-95 | a reader is handed the last min(capacity, n) frames at its first run, then every later one, none missed or repeated |
| `JobStreams.ClosedReaderFinishes` | src/kodezart/adapters/asyncio_job_queue.py:77-95 | a joined reader of a closed stream returns, and by then has the whole tail |
| `JobStreams.PlayKeepsPlaces` | src/kodezart/adapters/asyncio_job_queue.py:77-95 | a reader's start is fixed, what it was handed only grows, and a finished one never moves |
| `JobStreamObject.JobStream.PublishEvent` | src/kodezart/adapters/asyncio_job_queue.py:54-60 | the frame enters the bounded buffer and every live subscriber's queue; true when one was pushed out |
| `JobStreamObject.JobStream.CloseStream` | src/kodezart/adapters/asyncio_job_queue.py:62-65 | the stream is closed and every live subscriber gets the sentinel |
| `JobStreamObject.JobStream.DiscardBuffer` | src/kodezart/adapters/asyncio_job_queue.py:67-75 | the buffer is emptied and its former length returned, readers untouched |
| `JobStreamObject.JobStream.Next` | src/kodezart/adapters/asyncio_job_queue.py:77-95 | one request to a generator joins it if new, then hands over, returns or waits |
| `JobStreamObject.JobStream.CloseReader` | src/kodezart/adapters/asyncio_job_queue.py:94-95 | a closed generator leaves the subscriber list |
| `JobRegistry.InMemoryJobRegistry.AddRecord` | src/kodezart/adapters/job_registry.py:53-55 | the record is held, its key last unless it was there |
| `JobRegistry.InMemoryJobRegistry.AmendRecord` | src/kodezart/adapters/job_registry.py:57-65 | the record is replaced and keeps its place |
| `JobRegistry.InMemoryJobRegistry.ForgetRecord` | src/kodezart/adapters/job_registry.py:67-69 | the record and its place are dropped, the others keep their order |
| `JobRegistry.InMemoryJobRegistry.Open` | src/kodezart/adapters/job_registry.py:37-50 | the open records, all of them or a scope's, oldest first |
| `JobQueueInvariant.StepKeeps` | src/kodezart/adapters/asyncio_job_queue.py:177-456 | every step keeps lanes, records, requests, streams and timers in step |
| `JobQueueInvariant.InvariantLinks` | src/kodezart/adapters/asyncio_job_queue.py:302-456 | under the invariant every record and stream a step looks up is held |
| `JobQueueInvariant.SubmitKeeps` | src/kodezart/adapters/asyncio_job_queue.py:228-261 | a submission keeps the invariant, refused or taken |
| `JobQueueInvariant.DequeuesKeeps` | src/kodezart/adapters/asyncio_job_queue.py:293-310 | taking a lane's head renumbers the rest from one and keeps the invariant |
| `JobQueueInvariant.PublishToKeeps` | src/kodezart/adapters/asyncio_job_queue.py:387-398 | a published frame keeps the invariant, the record truncated once one is pushed out |
| `JobQueueInvariant.FinishesKeeps` | src/kodezart/adapters/asyncio_job_queue.py:400-412 | the record and its stream end together |
| `JobQueueInvariant.BufferExpiresKeeps` | src/kodezart/adapters/asyncio_job_queue.py:427-444 | a discard marks the record truncated exactly when it lost frames |
| `JobQueueInvariant.RecordExpiresKeeps` | src/kodezart/adapters/asyncio_job_queue.py:446-450 | an evicted job leaves both tables and no lane or worker was using it |
| `JobQueueInvariant.SweepKeeps` | src/kodezart/adapters/asyncio_job_queue.py:204-219 | the shutdown sweep keeps the invariant of a swept queue |
| `JobQueueRuns.StructuresAgree` | src/kodezart/adapters/asyncio_job_queue.py:228-456 | requests are the queued jobs', streams the records', closed is terminal, truncated is a lost frame |
| `JobQueueRuns.RefusalChangesNothing` | src/kodezart/adapters/asyncio_job_queue.py:228-261 | a refused submission changes nothing; an accepted one is last in its lane at its own position |
| `JobQueueRuns.StepBegins` | src/kodezart/adapters/asyncio_job_queue.py:204-412 | outside the sweep no step takes a record more than one state on, so none goes from queued to terminal |
| `JobQueueRuns.RunsFollow` | src/kodezart/adapters/asyncio_job_queue.py:204-412 | over any run states only move forward, a terminal outcome never changes, and a job no longer queued was started by its lane or abandoned by the stop |
| `JobQueueRuns.RunsAdmit` | src/kodezart/adapters/asyncio_job_queue.py:228-261 | what a lane accepts over a run is what was sent to it, in the order of submission |
| `JobQueueRuns.LanesAreServedInOrder` | src/kodezart/adapters/asyncio_job_queue.py:283-310 | a lane runs at most its worker count, and has started the front of what it accepted |
| `JobQueueRuns.RunsGrow` | src/kodezart/adapters/asyncio_job_queue.py:228-310 | what a lane has accepted and started only grows at the end |
| `JobQueueRuns.StopEndsEverything` | src/kodezart/adapters/asyncio_job_queue.py:177-224 | after the sweep, and ever after, no record is open, no stream unclosed; the open ones were abandoned, the others untouched |
| `JobQueueRuns.EveryRunKeepsItsPromises` | src/kodezart/adapters/asyncio_job_queue.py:163-456 | in every run of a new queue each lane runs at most its number and starts the front of what was submitted to it, in order; no job ends unstarted but at the stop, which leaves nothing open |
| `JobQueueReaders.StreamsPlay` | src/kodezart/adapters/asyncio_job_queue.py:228-450 | within any run of the queue each stream undergoes a legal run of its own |
| `JobQueueReaders.ReadersSeeAnUnbrokenTail` | src/kodezart/adapters/asyncio_job_queue.py:263-269 | the readers' guarantee under every interleaving of the whole queue, evictions and shutdown included |
| `AsyncioQueue.AsyncioJobQueue.Open` | src/kodezart/adapters/asyncio_job_queue.py:163-174 | a start takes submissions from its first segment on |
| `AsyncioQueue.AsyncioJobQueue.MakeDefaultLane` | src/kodezart/adapters/asyncio_job_queue.py:175 | its second makes the default lane, unless a submission has |
| `AsyncioQueue.AsyncioJobQueue.SubmitJob` | src/kodezart/adapters/asyncio_job_queue.py:228-261 | the method is the submission step, and reports the refusal or the stored record |
| `AsyncioQueue.AsyncioJobQueue.EnsureLaneOf` | src/kodezart/adapters/asyncio_job_queue.py:283-291 | a missing lane is made with its idle workers, an existing one left alone |
| `AsyncioQueue.AsyncioJobQueue.Reindex` | src/kodezart/adapters/asyncio_job_queue.py:452-456 | one pass gives each waiting record its one-based position and touches no other |
| `AsyncioQueue.AsyncioJobQueue.StartJob` | src/kodezart/adapters/asyncio_job_queue.py:302-310 | the start of a job is the dequeue step, and its request was held |
| `AsyncioQueue.AsyncioJobQueue.PublishFrame` | src/kodezart/adapters/asyncio_job_queue.py:387-398 | the method is the publishing step on the stream and the record |
| `AsyncioQueue.AsyncioJobQueue.OnEvent` | src/kodezart/adapters/asyncio_job_queue.py:343-345 | a run's frame is published and a terminal one sets the outcome |
| `AsyncioQueue.AsyncioJobQueue.OnErrorFrame` | src/kodezart/adapters/asyncio_job_queue.py:348-385 | a failed run's error frame is published before it ends with its fate |
| `AsyncioQueue.AsyncioJobQueue.FinishJob` | src/kodezart/adapters/asyncio_job_queue.py:400-412 | the record turns terminal and the stream closes in one step |
| `AsyncioQueue.AsyncioJobQueue.ScheduleEvictions` | src/kodezart/adapters/asyncio_job_queue.py:419-425 | both eviction timers are set and the worker is idle again |
| `AsyncioQueue.AsyncioJobQueue.DropBufferLater` | src/kodezart/adapters/asyncio_job_queue.py:427-444 | the method is the buffer's expiry |
| `AsyncioQueue.AsyncioJobQueue.DropRecordLater` | src/kodezart/adapters/asyncio_job_queue.py:446-450 | the method is the record's expiry |
| `AsyncioQueue.AsyncioJobQueue.AttachReader` | src/kodezart/adapters/asyncio_job_queue.py:263-269 | a held job's stream gains a reader, an unknown job is refused and nothing changes |
| `AsyncioQueue.AsyncioJobQueue.AbandonOpen` | src/kodezart/adapters/asyncio_job_queue.py:209-219 | the loop over the open records abandons and closes each of them and no other |
| `AsyncioQueue.AsyncioJobQueue.SweepUp` | src/kodezart/adapters/asyncio_job_queue.py:204-219 | the method is the shutdown sweep |
| `AsyncioQueue.InvariantIsEnough` | src/kodezart/adapters/asyncio_job_queue.py:302-412 | under the invariant each method finds the record, request and stream it looks up |
| `FireTermination.MeasureDrops` | src/kodezart/chains/ralph_workflow.py:295-354 | every step from every state lowers (rounds left, regenerations left, node rank), though remediation resets the regenerations |
| `FireTermination.DraftDrops` | src/kodezart/chains/fire_remediation.py:155-172 | opening a round spends one although it re-enters at the gate |
| `FireTermination.SweepDrops` | src/kodezart/chains/fire_specification.py:427-464 | a sweep that sends back spends a regeneration, and one that does not goes forward |
| `FireInvariant.InitialHolds` | src/kodezart/chains/ralph_workflow.py:558-721 | the prepared state meets its entry node's invariant |
| `FireInvariant.SweepKeeps` | src/kodezart/chains/fire_specification.py:427-464 | validation counts, bounds and reports infeasibility as the later nodes rely on |
| `FireInvariant.LoopKeeps` | src/kodezart/chains/fire_implementation.py:225-242 | a quality loop adds its iterations and drops the old tip |
| `FireInvariant.MergeKeeps` | src/kodezart/chains/fire_consolidation.py:80-184 | consolidation leaves a merged state with both review commits, a recorded error, or a stall |
| `FireInvariant.LandKeeps` | src/kodezart/chains/fire_consolidation.py:186-244 | a landed best commit gives the stalled publication its tip |
| `FireInvariant.ReviewKeeps` | src/kodezart/chains/fire_review.py:98-105 | review always has both its commits |
| `FireInvariant.DraftKeeps` | src/kodezart/chains/fire_remediation.py:155-172 | a drafted round resets what the next one must not inherit |
| `FireInvariant.OpenPrKeeps` | src/kodezart/chains/authored_publication.py:208-223 | a pull request always has its tip |
| `FireInvariant.OpenStalledPrKeeps` | src/kodezart/chains/authored_publication.py:137-143 | a stalled one has trajectory, best commit and tip but on a scope run that landed nowhere |
| `FireInvariant.EndedIsClassified` | src/kodezart/domain/outcome.py:8-45 | both classifiers find a disposition for each way a fire ends |
| `FireInvariant.DeliverWrites` | src/kodezart/chains/native_delivery.py:92-141 | the lane's delivery decides, and leaves remediation pending only with a round left, unless a forge is to publish and there is no repository |
| `FireInvariant.DeliveryRaisesIffUnhoused` | src/kodezart/chains/native_delivery.py:92-141 | exactly then it raises |
| `FireInvariant.RulingRaisesIffUnread` | src/kodezart/chains/ralph_workflow.py:516-520 | the rulings step raises exactly when the lane was built without its reader |
| `FireRuns.StepKeeps` | src/kodezart/chains/authored_delivery.py:186-249 | one step of any of the graphs keeps the invariant, or stops on a collaborator's failure or on a precondition left unprovided |
| `FireRuns.EveryStepIsSafe` | src/kodezart/chains/ralph_workflow.py:469-544 | after any number of steps the invariant holds, or the run stopped on a collaborator's failure or one of the three characterised faults |
| `FireRuns.StepsReach` | src/kodezart/chains/ralph_workflow.py:295-354 | every run reaches, in finitely many steps, what the total run comes to |
| `FireRuns.RunEndsSafely` | src/kodezart/chains/authored_delivery.py:186-260 | every run ends, classified and within budget, or stops on a collaborator's failure or one of the three characterised faults |
| `FireRuns.SpendingIsBounded` | src/kodezart/chains/fire_remediation.py:39-51 | loops, generations, iterations, rounds, branches, tickets and pull requests stay within their bounds |
| `FireRuns.LedgerIsWithinBudget` | src/kodezart/chains/fire_implementation.py:234-239 | R rounds and G regenerations cost at most R+1 loops, (R+1)(G+1) generations and (R+1) loops' iterations |
| `FireRuns.StepKeepsDates` | src/kodezart/chains/fire_implementation.py:240 | a recorded tip is the current round's from its merge on, and only an earlier round's before |
| `FireRuns.ScopeStallRaisesIffNothingLanded` | src/kodezart/chains/fire_consolidation.py:301-318 | over declared repositories a scope run's stalled publication raises exactly when none gained commits without diverging |
| `FireFindings.StalledTipIsStaleIffRulingUnrecorded` | src/kodezart/chains/native_delivery.py:97-104 | a lane read as stalled carries an earlier round's tip exactly when its ruling went unrecorded |
| `FireFindings.AStaleTipIsDelivered` | src/kodezart/chains/native_delivery.py:97-141 | a reachable run publishes a stale tip |
| `FireFindings.AScopeRunRaisesAtItsStalledPublication` | src/kodezart/chains/authored_publication.py:137-143 | a reachable scope run whose one repository diverged raises at its stalled publication |
| `FireFindings.DispositionsReadTheEnding` | src/kodezart/domain/outcome.py:8-45 | each of the fire's ten dispositions is given for exactly one kind of ending |
| `FireFindings.UnpublishedDispositionsReadTheEnding` | src/kodezart/domain/authored_outcome.py:11-19 | without a pull request the authored disposition is the fire's, a hand-off renamed, both ways |
| `FireFindings.PublishedDispositionsReadTheEnding` | src/kodezart/domain/authored_outcome.py:21-47 | with one it is a stall's or, once the work is integrated, that of its last checks, both ways |
| `FireFindings.FixBudgetOutcomesReadTheRun` | src/kodezart/domain/authored_outcome.py:11-47 | which ended runs get the two outcomes the vocabulary calls unreachable, both ways |
| `FireFindings.AFailedReviewExhaustsItsBudget` | src/kodezart/types/domain/outcome.py:37-40 | at every authored configuration a reachable run spends its budget and ends in one outcome the vocabulary calls unreachable, its review failed |
| `FireFindings.FailedChecksExhaustTheirBudget` | src/kodezart/types/domain/outcome.py:37-40 | at every one with a forge a reachable run ends in the other, its checks failed |
| `FireFindings.ALaneWithoutItsReaderRaises` | src/kodezart/chains/ralph_workflow.py:516-520 | every lane without its reader, but one entered to deliver recorded work, reaches that fault |
| `FireFindings.ALaneWithoutItsRepositoryRaises` | src/kodezart/composition/engine.py:101-111 | every lane on a forge without a repository can come to its delivery with reviewed work and raise |
| `OutboundGating.SortHits` | src/kodezart/types/domain/gating.py:385-389 | hits are put in payload order, those without a location first, none lost |
| `OutboundRedaction.Redact` | src/kodezart/adapters/outbound_admission.py:206-225 | the cursor loop writes the text of the copied slices and placeholders |
| `OutboundRedaction.RedactionIsExact` | src/kodezart/adapters/outbound_admission.py:206-225 | the copied indices are exactly those no hit covers, in order, for any overlaps |
| `OutboundRedaction.ShownIsCopied` | src/kodezart/adapters/outbound_admission.py:206-225 | the characters shown are the content's at the copied indices |
| `OutboundRedaction.PlaceholdersAreTheOpenings` | src/kodezart/adapters/outbound_admission.py:214-223 | there is one placeholder for each spanned hit that starts at or after every earlier end, with its category |
| `OutboundAdmission.FoldHits` | src/kodezart/adapters/outbound_admission.py:187-199 | the loop folds each hit's verdict for the writer |
| `OutboundAdmission.FoldIsTheWorst` | src/kodezart/adapters/outbound_admission.py:187-199 | the fold is blocked exactly when some hit blocks and clean exactly when there is none |
| `OutboundAdmission.NothingFoundStaysVisible` | src/kodezart/adapters/outbound_admission.py:123-185 | what is written shows only characters no hit covers, every hit has a span, every finding is reported, and the verdict is their fold in any order |
| `OutboundAdmission.LocalFindingsDecide` | src/kodezart/adapters/outbound_admission.py:132-142 | a credential or declared claim blocks whatever the other scanners would say, and all are reported |
| `OutboundAdmission.AggregatesBlock` | src/kodezart/types/domain/gating.py:257-298 | declared claims have no span and block, and arise exactly from a durable write's counts and rosters |
| `OutboundAdmission.NoAnswerBlocks` | src/kodezart/adapters/outbound_admission.py:143-164 | a decision carries a failure exactly when a scanner that was asked gave no answer |
| `OutboundAdmission.KeysTellWritesApart` | src/kodezart/adapters/outbound_admission.py:96-103 | two writes share a memo key only when they are the same |
| `OutboundAdmission.StoringKeeps` | src/kodezart/adapters/outbound_admission.py:115-120 | storing keeps at most 4096 entries, each the uncached decision of every write with its key |
| `OutboundAdmission.Admission.Retain` | src/kodezart/adapters/outbound_admission.py:115-121 | a failed decision is never kept, any other is, the oldest dropped past the bound |
| `OutboundAdmission.Admission.Gate` | src/kodezart/adapters/outbound_admission.py:82-121 | the memoised gate answers as the uncached one, for every visibility and history |
| `OutboundAdmission.Admission.Decided` | src/kodezart/adapters/outbound_admission.py:123-185 | the decision method takes the branches of the decision |
| `ReferenceScanner.ReferenceText` | src/kodezart/adapters/reference_content_scanner.py:31-45 | text and spans have equal length and are the decoding, character by character |
| `ReferenceScanner.SpansAreSound` | src/kodezart/adapters/reference_content_scanner.py:31-45 | spans are in bounds, non-empty, in order, and each is one raw character or one whole escape |
| `ReferenceScanner.PlainTextIsItself` | src/kodezart/adapters/reference_content_scanner.py:31-45 | text without escapes decodes to itself with its own indices |
| `ReferenceScanner.Scan` | src/kodezart/adapters/reference_content_scanner.py:78-106 | the loop over URL tokens is the scan |
| `ReferenceScanner.ScanIsExact` | src/kodezart/adapters/reference_content_scanner.py:78-106 | no answer exactly when some token is malformed, and otherwise exactly the hits of the listed tokens, where a token is one no earlier token runs into |
| `ReferenceScanner.HitsAreListed` | src/kodezart/adapters/reference_content_scanner.py:93-105 | every hit is that of a listed token, trimmed of trailing punctuation |
| `ReferenceScanner.RedactingAHitRemovesItsReference` | src/kodezart/adapters/reference_content_scanner.py:98-104 | a hit covers every raw character behind its token, escapes whole |
| `Criteria.BarrierPassesExactlyWhen` | src/kodezart/chains/criteria.py:388-401 | a barrier passes exactly when the named criteria are still held and the roster describes what is owed now |
| `Criteria.OwnWorkNeverRefuses` | src/kodezart/chains/criteria.py:204-275 | if only graded criteria moved, between unstarted and finished, the barrier reads the graded roster again |
| `Criteria.PassingMeansGraded` | src/kodezart/chains/criteria.py:388-401 | past a barrier every unstarted criterion was graded and every graded one stands with the same Check |
| `Criteria.SelectedDescribes` | src/kodezart/chains/criteria.py:217-222 | the owed roster is in key order and exactly the owed criteria, or one of them has no legible Check |
| `Criteria.MissingIsExact` | src/kodezart/chains/criteria.py:138-148 | a reading is refused exactly when a criterion the spec names is no longer held |
| `RalphLoop.LoopEndsWithinItsBound` | src/kodezart/chains/ralph_loop.py:1417-1438 | from its start the loop ends within max(1, limit) rounds, at the first cleared or plateaued one, holding the last genuine grading |
| `RalphLoop.LoopReportIsPossible` | src/kodezart/chains/fire_implementation.py:225-242 | what the loop reports is an answer the fire graph takes it to give, between one iteration and its limit |
| `RalphLoop.OwnWorkSurvivesRefusedRounds` | src/kodezart/chains/ralph_loop.py:482-534 | rounds that end in an upheld amendment change nothing a later barrier reads |
| `RalphLoop.GradedEffectIsExact` | src/kodezart/chains/ralph_loop.py:295-308 | a grading's effect is permitted exactly while the reading describes the roster it graded |
| `Redispatch.UntilConforming` | src/kodezart/core/redispatch.py:80-149 | attempts, breaches handed on, breaches returned and the ending are accounted for, whatever the sessions do |
| `Redispatch.EndingIsSettled` | src/kodezart/core/redispatch.py:104-149 | each ending happens exactly when its attempts say so; it propagates only when the last attempt gave no output |
| `Redispatch.EndingIsUnique` | src/kodezart/core/redispatch.py:80-149 | the accounting leaves one ending |
| `Redispatch.ReportIsExact` | src/kodezart/core/redispatch.py:152-170 | no report means the first answer conformed; a report names every refusal in order |
| `Redispatch.UntilPermutation` | src/kodezart/core/redispatch.py:173-202 | only a non-permutation is corrected, and the same prompt is asked again |

## Left out

- Sessions, Git, forges, trackers, HTTP, logging, checkpointing and real time: they appear as answers, functions or steps that may happen at any point.
- Retry policies, retry floors and recursion limits of the graphs: one execution a node.
- `AsyncioQueue.AsyncioJobQueue`: its table holds streams as values, so it does not capture that a reader and the table share one stream object; `JobStreamObject.JobStream` is that object, tied to the same steps, and reader steps are its methods.
- `JobQueue.Lane` is a value the queue's methods replace; nothing else in the source holds a lane.
- A stop that arrives inside the wait of a start: the lane the start would still make is not modelled.
- Starting a queue again after a stop: one lifecycle is modelled. The stop leaves the lane FIFO and the stored requests as they are, which only a restart could observe.
- Cancelled workers take no further step: the engine is taken not to swallow cancellation, and job ids to be fresh.
- An error frame and the finish after it are two steps here although they may share one segment in the code; the extra interleavings only add runs.
- `OutboundAdmission.Admission.Gate`: scanners are functions and the digest injective; a judgment that answers differently on the same text is outside the agreement.
- Credential patterns, the judgment session, the native URL parser and the HTML entity table: functions of the text.
- The tokens of the reference scanner: white space is ASCII and letter case is ASCII.
- `FireGraph.Classify`: the rulings, trajectories, gap arithmetic and topology behind the state's fields are not modelled; plateau is any Boolean.
- The loops over repositories that collect merge outcomes: a consolidation arrives as the list of its outcomes.
- The delivery of finished lanes, lapse escalation, cross-off writes and the evaluator's own session in the loop: a round is a grading or a refusal.
- The check, after a native loop, that the branch still names the evaluated commit: Git facts.
- Audit passes, organising passes, configuration, prompt-set loading and the HTTP surface: other parts of the repository.
