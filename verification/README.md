# LiteraryGiant in Dafny

A Dafny 4.11 model of the parts of LiteraryGiant whose correctness is not visible from any one
function, with proofs. `dafny verify dfyconfig.toml` checks everything.

Code that works by changing things is modelled twice: as methods on classes or with loops, in
the form of the source, and as functions on values that those methods are proved against. The
laws are lemmas about the functions, over every input, every run or every reachable state.

## What is modelled

**Expert reviews and durable checkpoints** (`bounded_reviews.py`, `native_runtime.py`,
`native_delegation.py`, `codex_reviews.py`). A step is one stretch of code between two
suspension points. A save is an atomic replacement of one durable value that succeeds, fails
before it, or fails after it; crash and reopening are steps. `ExpertReviews` is the concurrent
protocol of two workers, the joint source check and interruption. `Checkpoint` and
`NativeSession` are the write-ahead tool loop with its strict reader; `CodexReviews` is the
checkpointed adapter. `NativeVerdicts` and `NativeRefusal` are about all processes of one session.
`ExpertVerdicts`, `NativeTranscript`, `NativeBatches` and `CodexContents` say what a step leaves
behind, verdicts, history, records and file, without the functions that compute it.
`BoundedReviewsObject`, `NativeRuntimeObject` and `CodexAdapter` hold the objects; each method
equals a step, or the part of one that runs in that object.

**Provider translation** (`anthropic_bridge.py`). `StreamTranslation` is the streaming state
machine, `StreamMeaning` the batch meaning it refines, `StreamAcceptance` the exact condition
under which a message is translated, `StreamContents` what each item holds. `RequestTranslation`
is the way to the provider, `RepairSearch` the bounded search for the arguments of one broken
tool call, `RepairMeaning` what it compares and how far it looks.

**Versioned decisions and knowledge** (`narrative_knowledge.py`, `narrative_view.py`,
`creative_decisions.py`, `book_analysis.py`, over the parts of `project_store.py` they write
through). `StoryStore` is the database: versions that are never altered, heads, one transaction
at a time. Records are told about in runs of propose, confirm, withdraw, of options and
selections, and of accepted manuscript versions. `KnowledgeWrites`, `DecisionWrites`,
`NarrativeContents` and `AdoptionContents` say in terms of the saved records when each
transaction succeeds, what it writes, and what each view shows. `Evidence` is the numbered
quotes of a snapshot, `EvidenceQuotes` exactly which parts of a content are quoted.

**Files and logs** (`chapter_sync.py`, `scripts/preview_slime.py`, `book_assets.py`,
`backend_events.py`, `backend_history.py`, `intent_router.py`). The chapter file and its
reconciliation with the database; the GIF writer, against a reader written from the GIF89a
specification; the asset migration with a stop at any point; the event log fold; the page
cache; the Chinese numeral reader. `ChapterLooks`, `AssetShelves`, `EventLives` and
`PageContents` say what each of them puts out.

## What was found

Each is a lemma with the failing input or the exact condition.

- A reply that holds a message carrying the id of one of its own expert calls is saved, and the
  strict reader refuses that checkpoint for ever: `NativeCheckpointSafe.BatchAcceptedIff`,
  `NativeStrayMessage.StrayRefused`.
- Reopening a Native session announces the children of its saved records again. When the writes
  of a verdict were lost, the second announcement contradicts the first:
  `NativeLostVerdict.TwoVerdicts`. One child has one verdict exactly when at every reopening the
  states the saved records settle to agree with what was announced: `NativeVerdicts.OneVerdictIff`.
- A tool in the empty namespace comes back from the stream without a namespace, and two tools
  that differ only in kind share a wire name: `RequestTranslation.HistoryNameBack`,
  `RequestTranslation.KindsConfused`.
- A simulated adoption equals the real one exactly when no reviewed decision declares the
  version as another document's: `Adoption.AdoptionIff`. In every reachable story none does.
- A chapter content that holds a closing line after its first line may be read back as other
  contents without an error: `ChapterFile.SilentMisread`. A printed carriage return makes an
  exported chapter count as edited at once: `ChapterSync.ExportOutcome`. A crash between the
  file and its baseline can leave both export and import refused: `ChapterSync.CutShort` says
  exactly when, `ChapterSync.FirstExportStrands` that a first export always does, and
  `ChapterSync.StrandedStays` that no export or import leads out of it.
- A migration stopped between the completed manifest and the index never writes the index:
  `AssetMigration.IndexNeverWritten`. A file in the reference library named like one of its
  folders can strand a stopped migration: `AssetPlan.PlanResumes` says exactly when,
  `AssetStranded.StrandedPlan` gives such a library.

## Model

| member | source | states |
|---|---|---|
| ExpertReviewsProofs.OneVerdictPerChild | lg-cli/lg_cli/bounded_reviews.py:111-182 | over every interleaving of both workers, the joint check and interruption, all terminal events the protocol emits for one child carry one state; what a reopened Native checkpoint announces again is the subject of `NativeVerdicts.OneVerdictIff` |
| ExpertReviewsProofs.ToldForever | lg-cli/lg_cli/bounded_reviews.py:201-211 | events are never withdrawn, so a verdict holds on every longer run |
| ExpertReviewsProofs.FailsBeforePublication | lg-cli/lg_cli/bounded_reviews.py:161-172 | a stored completed result still becomes failed when the sources changed, and then completed was never published |
| ExpertReviewsProofs.PublishedIsTerminal | lg-cli/lg_cli/bounded_reviews.py:159-172 | what `execute` publishes is a verdict for every child of the call |
| ExpertReviewsProofs.ExpertBudget | lg-cli/lg_cli/bounded_reviews.py:52-105 | in one parent turn at most two experts are asked, each once, and no child starts a second model call in any turn |
| ExpertVerdicts.PreparedChildren | lg-cli/lg_cli/bounded_reviews.py:65-105 | a prepared call has one waiting child per expert, in order, under the ids drawn for them |
| ExpertVerdicts.Launches | lg-cli/lg_cli/bounded_reviews.py:150-156 | a launched call is live, with one task per child |
| ExpertVerdicts.WorkerAsks | lg-cli/lg_cli/bounded_reviews.py:111-131 | a worker in time and in its turn marks its child running, tells that, and asks its own expert once |
| ExpertVerdicts.WorkerAsksNobody | lg-cli/lg_cli/bounded_reviews.py:111-148 | in any other case nobody is asked, and a child fails only by the deadline |
| ExpertVerdicts.AnswerHeld | lg-cli/lg_cli/bounded_reviews.py:145-148 | an awaited answer becomes the verdict of its child as given, and nothing else changes |
| ExpertVerdicts.AnswerIgnored | lg-cli/lg_cli/bounded_reviews.py:145-148 | an answer for a child that is not live, not running or not of the current turn changes nothing |
| ExpertVerdicts.Publishes | lg-cli/lg_cli/bounded_reviews.py:159-182 | with the same sources in the same turn no child changes, otherwise every child fails; what is told is the state of each child, exactly |
| ExpertVerdicts.Settles | lg-cli/lg_cli/bounded_reviews.py:201-211 | an interruption keeps every verdict, cancels every other child, and tells them all |
| ExpertVerdicts.AnswerKept | lg-cli/lg_cli/bounded_reviews.py:145-182 | over all runs, a child that was answered with a report holds that very report as long as its record is kept, or failed for changed sources, the latter if and only if a joint check of its call failed |
| ExpertVerdicts.AnswerTold | lg-cli/lg_cli/bounded_reviews.py:145-211 | over all runs, its completion is ever announced if and only if the call is announced before a joint check fails or its record is dropped |
| ExpertVerdicts.PublishedIff | lg-cli/lg_cli/bounded_reviews.py:159-182 | when `execute` publishes such a call, the save had succeeded, nothing was revoked or interrupted, and the child is announced completed if and only if the sources were the same, else failed |
| ExpertVerdicts.Succeeds | lg-cli/lg_cli/bounded_reviews.py:52-182 | for every turn, expert and report there is a run that announces that report as completed |
| BoundedReviewsObject.BoundedReviews.Begin | lg-cli/lg_cli/bounded_reviews.py:52-63 | refused while anything is recorded or running or the turn is already bound, else the budget of the new turn |
| BoundedReviewsObject.BoundedReviews.Refuses | lg-cli/lg_cli/bounded_reviews.py:65-78 | exactly the calls `prepare` refuses: a repeated call, a used expert, more than two, another turn |
| BoundedReviewsObject.BoundedReviews.Prepare | lg-cli/lg_cli/bounded_reviews.py:65-105 | spends the budget and records waiting children, or changes nothing |
| BoundedReviewsObject.BoundedReviews.Launch | lg-cli/lg_cli/bounded_reviews.py:150-156 | a call is launched once, while all its children wait |
| BoundedReviewsObject.BoundedReviews.StartWork | lg-cli/lg_cli/bounded_reviews.py:111-127 | the worker up to its model call, with either of its saves failing |
| BoundedReviewsObject.BoundedReviews.FinishWork | lg-cli/lg_cli/bounded_reviews.py:127-148 | the worker after its model call: it writes a verdict only for a live, running child of the current turn |
| BoundedReviewsObject.BoundedReviews.Publish | lg-cli/lg_cli/bounded_reviews.py:159-182 | the joint check and what it publishes: no record changes when the sources and the turn are the same |
| BoundedReviewsObject.BoundedReviews.SettleInterrupted | lg-cli/lg_cli/bounded_reviews.py:201-211 | nothing stays live, every undecided child becomes cancelled, decided ones keep their verdict |
| BoundedReviewsObject.BoundedReviews.Finish | lg-cli/lg_cli/bounded_reviews.py:195-199 | a live call cannot be discarded |
| Checkpoint.ValidateCheckpoint | lg-cli/lg_cli/native_runtime.py:72-96 | the reader accepts a history exactly when it scans well and its unresolved calls are the pending ones, in order |
| Checkpoint.HistoryMeaning | lg-cli/lg_cli/native_runtime.py:77-96 | in an accepted history the pending calls are exactly the calls without a result, and every result follows its call |
| Checkpoint.CheckRecord | lg-cli/lg_cli/native_delegation.py:63-86 | one record is accepted exactly when its call is pending, named by one history item, and its children match the arguments |
| Checkpoint.Restore | lg-cli/lg_cli/native_delegation.py:58-96 | the records are accepted exactly when each is and all together stay within two experts without sharing one |
| NativeAtMostOnce.AtMostOnce | lg-cli/lg_cli/native_runtime.py:162-212 | over all runs, interrupts, crashes and reopenings each call is handed over at most once, and was in the saved history before |
| NativeRefusal.UnfinishedIsPending | lg-cli/lg_cli/native_runtime.py:162-213 | over all runs, an ordinary call that was handed over and has no saved result is pending in every checkpoint the reader accepts |
| NativeRefusal.NeverReplayed | lg-cli/lg_cli/native_runtime.py:109-115 | over all runs, when the process dies with such a call, no turn starts again and nothing is handed over again, however often the session is reopened |
| NativeAtMostOnce.RefusesForever | lg-cli/lg_cli/native_runtime.py:109-115 | a session whose file holds an unresolved ordinary call never starts a turn and never hands a call over again, however often it is reopened |
| NativeCheckpointSafe.SavedIsAccepted | lg-cli/lg_cli/native_runtime.py:72-107 | every checkpoint any run leaves behind, with steering, failures, interruption and failed saves, is accepted on reopening, unless a reply's message strays |
| NativeCheckpointSafe.BatchAcceptedIff | lg-cli/lg_cli/native_runtime.py:191-196 | the exact condition: a saved batch with expert calls is accepted if and only if no message of the reply carries the id of a prepared call |
| NativeStrayMessage.StrayRefused | lg-cli/lg_cli/native_delegation.py:63-68 | a run of three steps whose checkpoint is refused |
| NativeVerdicts.OneVerdictIff | lg-cli/lg_cli/native_delegation.py:43-56 | over all runs with crashes and reopenings, all terminal events announced for one child carry one state if and only if at every reopening the states that the saved records settle to agree with what was announced before |
| NativeVerdicts.OneVerdictWhenSaved | lg-cli/lg_cli/native_delegation.py:43-96 | so one child has one verdict on every run whose checkpoint writes all reach the file |
| NativeVerdicts.BudgetOverRuns | lg-cli/lg_cli/native_runtime.py:109-213 | over all runs with crashes and reopenings, two experts per turn, each asked once, and no child asked twice |
| NativeLostVerdict.TwoVerdicts | lg-cli/lg_cli/native_delegation.py:94-96 | a run of eight steps: the writes of a completed verdict are lost, and reopening announces the same child as cancelled |
| NativeHistory.SettlementResolves | lg-cli/lg_cli/native_delegation.py:43-56 | the results settlement appends keep the history accepted and resolve exactly the calls with a record |
| NativeBatches.BatchIff | lg-cli/lg_cli/native_runtime.py:175-198 | a batch is accepted if and only if its identities and tools are fine and its expert calls fit the turn together, stated call by call; then reply, pending calls and expert records are what it says, and saved before the first call is handed over |
| NativeBatches.OfferedIff | lg-cli/lg_cli/native_runtime.py:175-190 | the conditions on number, identities and tools of a batch, without the loop |
| NativeBatches.PreparedIff | lg-cli/lg_cli/native_runtime.py:191-193 | preparing the expert calls one after the other succeeds exactly when they fit together: each by itself, none sharing an expert or identity, within the budget and the policy |
| NativeBatches.PreparedRecords | lg-cli/lg_cli/bounded_reviews.py:99-105 | preparing adds one record for every expert call, with one waiting child per expert, and nothing else |
| NativeBatches.TurnStartsIff | lg-cli/lg_cli/native_runtime.py:109-122 | a turn starts exactly when no expert call is recorded, every worker has ended, and it is a new turn; then it has a budget of its own |
| NativeTranscript.TurnText | lg-cli/lg_cli/native_runtime.py:117-120 | a started turn adds one message with the author's text to the history, and saves it |
| NativeTranscript.SteeringText | lg-cli/lg_cli/native_runtime.py:160-166 | steering keeps the text of the reply, adds each steering text once, in order, and drops the calls |
| NativeTranscript.FinalReply | lg-cli/lg_cli/native_runtime.py:167-174 | a final reply adds exactly the messages of the output, in order, to history and file |
| NativeTranscript.NoFinalReply | lg-cli/lg_cli/native_runtime.py:167-171 | a reply without calls and without a usable text changes nothing and ends the turn |
| NativeTranscript.TextJoins | lg-cli/lg_cli/native_runtime.py:155-157 | the text of a reply is that of its messages, joined in order |
| NativeTranscript.ResultText | lg-cli/lg_cli/native_runtime.py:207-212 | a result enters the history under its call as given, leaves `pending` and the records, and is saved |
| NativeTranscript.NextCall | lg-cli/lg_cli/native_runtime.py:197-213 | the next call of the batch is handed over, or the model is asked again, for at most sixteen rounds |
| NativeTranscript.NoNextCall | lg-cli/lg_cli/native_runtime.py:197-212 | without a successful save nothing is handed over |
| NativeTranscript.VerdictWritten | lg-cli/lg_cli/bounded_reviews.py:145-148 | a verdict is in the checkpoint as soon as its write lands |
| NativeTranscript.CheckWritten | lg-cli/lg_cli/bounded_reviews.py:159-176 | the outcome of the joint check is in the checkpoint before it is announced |
| NativeTranscript.InterruptedText | lg-cli/lg_cli/native_delegation.py:43-56 | every unfinished expert call gets one result, in the order of `pending`, with its record as the interruption leaves it |
| NativeTranscript.ReopenedText | lg-cli/lg_cli/native_delegation.py:94-96 | a reopened session goes on with the history of the file, its unfinished expert calls answered in the same way |
| NativeTranscript.TextsConserved | lg-cli/lg_cli/native_runtime.py:109-218 | over every run of one process each text of the author is in the history once or still waits for a reply |
| NativeRuntimeObject.NativeRuntime.Save | lg-cli/lg_cli/native_runtime.py:98-107 | the file holds all three parts of the state or is as it was, and a failure breaks the session |
| NativeRuntimeObject.NativeRuntime.SettleInterrupted | lg-cli/lg_cli/native_delegation.py:43-56 | unregistered calls dropped, the others decided, saved, answered in the history, saved again |
| NativeRuntimeObject.NativeRuntime.StartTurn | lg-cli/lg_cli/native_runtime.py:109-122 | the start of `run`, which leaves the turn id set when it fails |
| NativeRuntimeObject.NativeRuntime.CheckCalls | lg-cli/lg_cli/native_runtime.py:175-190 | a batch is accepted exactly when ids are new, distinct and non-empty, tools known, and at most sixteen |
| NativeRuntimeObject.NativeRuntime.PrepareAll | lg-cli/lg_cli/native_runtime.py:191-193 | the expert calls of a reply are prepared in order up to the first refusal |
| NativeRuntimeObject.NativeRuntime.Steer | lg-cli/lg_cli/native_runtime.py:215-218 | a message waits for the next model reply; without a turn, or during a call, it is refused |
| NativeRuntimeObject.NativeRuntime.Steered | lg-cli/lg_cli/native_runtime.py:160-166 | steering messages replace the reply's calls and are saved before the next round |
| NativeRuntimeObject.NativeRuntime.Reply | lg-cli/lg_cli/native_runtime.py:151-198 | what one model reply leads to, on every path; what it adds to the history is said by `NativeTranscript.FinalReply`, `NativeTranscript.SteeringText` and `NativeBatches.BatchIff` |
| NativeRuntimeObject.NativeRuntime.Complete | lg-cli/lg_cli/native_runtime.py:197-212 | the result enters the history, leaves `pending`, and is saved before the next call |
| NativeRuntimeObject.NativeRuntime.Interrupt | lg-cli/lg_cli/native_runtime.py:220-225 | experts are settled before the task is cancelled; a failing settlement cancels nothing |
| NativeRuntimeObject.NativeRuntime.Unwind | lg-cli/lg_cli/native_runtime.py:123-129 | whatever happened, the turn id is given back |
| NativeRuntimeObject.NativeRuntime.Start | lg-cli/lg_cli/native_runtime.py:51-57 | a new process continues exactly from an accepted checkpoint, settled and announced again; otherwise there is no session |
| CodexReviewsProofs.WrittenIsAccepted | lg-cli/lg_cli/codex_reviews.py:41-115 | every file any run writes is accepted by the strict reader |
| CodexReviewsProofs.RestoreGivesNothingBack | lg-cli/lg_cli/codex_reviews.py:117-158 | a restore settles every entry, restores the spent budget, admits no call, and no second begin in that turn |
| CodexReviewsProofs.BudgetSurvives | lg-cli/lg_cli/codex_reviews.py:117-232 | two experts per turn, each asked once, and one verdict per child, over all crashes and restores |
| CodexContents.CallStartsIff | lg-cli/lg_cli/codex_reviews.py:170-196 | over all runs the workers of a call start if and only if its guards hold and its entry was saved, and then the file holds the entry with one waiting child per expert; a refused call changes nothing, a failed one revokes |
| CodexContents.AskedAfterSaved | lg-cli/lg_cli/codex_reviews.py:110-115 | an expert is asked only after the file says that its child is running, and exactly when that was saved, in time, in its turn |
| CodexContents.AnswerIsSaved | lg-cli/lg_cli/codex_reviews.py:110-115 | an awaited answer is in the file before anybody is told; any other leaves book and file alone |
| CodexContents.PublishedIsSaved | lg-cli/lg_cli/codex_reviews.py:110-115 | what is published of a call is what the file holds of its children |
| CodexContents.ReturnSettles | lg-cli/lg_cli/codex_reviews.py:196-214 | a normal return settles the entry and marks it interrupted if and only if it was, or the adapter is revoked or broken, or the thread, turn or policy moved on; when its save lands the file holds that with the final record |
| CodexContents.RevokeSettles | lg-cli/lg_cli/codex_reviews.py:216-232 | a revocation leaves every call in the file settled, open ones interrupted, with decided verdicts kept; a lost first write closes the adapter |
| CodexContents.RestoreKeeps | lg-cli/lg_cli/codex_reviews.py:117-148 | a restore keeps every settled entry as it was and settles the open ones in the same way |
| CodexContents.BeginWrites | lg-cli/lg_cli/codex_reviews.py:152-158 | a turn begins exactly under its four conditions, with an empty book in the file |
| CodexContents.SaveTakes | lg-cli/lg_cli/codex_reviews.py:110-115 | a save copies the records the protocol holds, its experts and calls, and nothing else |
| CodexContents.LostSaveCloses | lg-cli/lg_cli/codex_reviews.py:97-108 | a lost save breaks and revokes the adapter and stops every worker |
| CodexAdapter.CodexReviews.CheckState | lg-cli/lg_cli/codex_reviews.py:41-95 | the reader accepts exactly the states with shaped entries, disjoint experts whose union is `used`, and terminal children when settled |
| CodexAdapter.CodexReviews.Write | lg-cli/lg_cli/codex_reviews.py:97-108 | an unaccepted or failed write closes and revokes the adapter |
| CodexAdapter.CodexReviews.Save | lg-cli/lg_cli/codex_reviews.py:110-115 | copies the records into the entries and writes; a record without an entry, or a failing write, is reported |
| CodexAdapter.CodexReviews.Restore | lg-cli/lg_cli/codex_reviews.py:117-150 | the state restored from a file, with every unsettled entry settled |
| CodexAdapter.CodexReviews.Begin | lg-cli/lg_cli/codex_reviews.py:152-158 | a turn is bound once per host turn and thread, and written before it counts |
| CodexAdapter.CodexReviews.Revoke | lg-cli/lg_cli/codex_reviews.py:216-232 | revocation settles live entries and is written twice; when the first write fails, or a record has no entry, the adapter is closed |
| CodexAdapter.CodexReviews.Call | lg-cli/lg_cli/codex_reviews.py:170-195 | a call up to its first wait: refused, prepared and entered and saved before its workers start, or revoked when the digest, the save or the replay guard fails |
| CodexAdapter.CodexReviews.Return | lg-cli/lg_cli/codex_reviews.py:195-214 | the rest of a call: its entry is settled and saved, any failure revokes, and the record is dropped |
| StreamTranslation.TranslateStream | lg-cli/lg_cli/anthropic_bridge.py:250-513 | the generator's loop emits exactly what the step function says, whose finished output `StreamContents.Contents` gives |
| StreamTranslation.Finish | lg-cli/lg_cli/anthropic_bridge.py:451-510 | the end of the message: checks, the one repair, then the executable items |
| StreamMeaning.TranslationRefines | lg-cli/lg_cli/anthropic_bridge.py:250-513 | a finished translation of a well-formed message emits for every visible block, in start order and numbered from 0, one added and one done event of the item the block means, and deltas that add up to its text; what the item holds is said by `StreamContents.Contents` |
| StreamContents.Contents | lg-cli/lg_cli/anthropic_bridge.py:374-448 | every block of a translated message is emitted once as added and once as done, and the done item holds what the block says: a function call the dump of the object its deltas spell or it started with, a custom call the input string, structured output the dump of the matching object, a message its joined text, under the block's call id and the name, namespace and kind of its mapping entry |
| StreamMeaning.FinishedAtStop | lg-cli/lg_cli/anthropic_bridge.py:451-513 | every finished stream is such a message up to its stop event, whatever follows |
| StreamMeaning.RaisedLeavesNothing | lg-cli/lg_cli/anthropic_bridge.py:389-439 | a stream that is still open, or raised an error, has no executable item marked done |
| StreamAcceptance.TranslatedIff | lg-cli/lg_cli/anthropic_bridge.py:263-513 | a well-formed message is translated if and only if every event fits the blocks begun before it and the message as a whole is complete |
| StreamContents.TranslatedExactly | lg-cli/lg_cli/anthropic_bridge.py:263-513 | the same with every condition spelled out on the events: which deltas fit, which calls are usable, and the one broken call that may be mended |
| RequestTranslation.AddTool | lg-cli/lg_cli/anthropic_bridge.py:104-132 | a tool and the tools nested in it enter the mapping, each under its own wire name |
| RequestTranslation.ToolsInOrder | lg-cli/lg_cli/anthropic_bridge.py:104-134 | every tool of the tree is listed once, in the order of the request, with its innermost namespace |
| RequestTranslation.SupportedIff | lg-cli/lg_cli/anthropic_bridge.py:106-112 | a request is refused for its tools exactly when some path leads to another type of tool |
| RequestTranslation.WiredSize | lg-cli/lg_cli/anthropic_bridge.py:112-132 | the mapping holds every tool under the wire name of its position, and nothing else |
| RequestTranslation.NamesDistinct | lg-cli/lg_cli/anthropic_bridge.py:112-114 | different tools have different wire names |
| RequestTranslation.NeverStructured | lg-cli/lg_cli/anthropic_bridge.py:112-114 | no tool takes the wire name of the structured output |
| RequestTranslation.HistoryNameBack | lg-cli/lg_cli/anthropic_bridge.py:163-192 | a history call's name and namespace come back through the stream mapping, if and only if the namespace is not empty |
| RequestTranslation.HistoryKindBack | lg-cli/lg_cli/anthropic_bridge.py:163-192 | it comes back with its kind exactly when the first tool of that name has it |
| RequestTranslation.KindsConfused | lg-cli/lg_cli/anthropic_bridge.py:163-172 | two tools that differ only in kind: the second comes back as the first |
| RequestTranslation.Append | lg-cli/lg_cli/anthropic_bridge.py:136-142 | roles keep alternating and the flattened blocks grow by the new ones |
| RequestTranslation.MergedUniquely | lg-cli/lg_cli/anthropic_bridge.py:136-142 | the merged messages are the only alternating ones with this order of blocks |
| RequestTranslation.TranslateRequest | lg-cli/lg_cli/anthropic_bridge.py:94-247 | a request is translated if and only if its tools, instructions and entries can be and some entry says something; then its alternating messages hold, in the order of the entries, exactly what each contributes: texts under their own role, a labelled agent message, a tool use with the wire name of the first such tool, a tool result with its call id; the system text is that of the instructions and system entries |
| RequestTranslation.TranslatedContributes | lg-cli/lg_cli/anthropic_bridge.py:145-205 | what one history entry contributes to the messages and to the system text |
| RequestTranslation.SilentIff | lg-cli/lg_cli/anthropic_bridge.py:206-207 | nothing was said exactly when no entry speaks |
| RepairSearch.ArgumentScalars | lg-cli/lg_cli/anthropic_bridge.py:49-67 | the scalar sequence that a repair must keep |
| RepairSearch.ReachIsSmall | lg-cli/lg_cli/anthropic_bridge.py:692-736 | at most 57 strings are within two punctuation edits at the reported offsets |
| RepairSearch.Repair | lg-cli/lg_cli/anthropic_bridge.py:692-736 | for any parser with error offsets the search ends, tries only strings within reach and all of them before it answers, and answers exactly with the unique schema-valid value of the same scalars |
| RepairMeaning.ScalarsIff | lg-cli/lg_cli/anthropic_bridge.py:49-67 | the scalars of a text are those of the tokens it consists of, with only punctuation between them; there are none exactly when it is too long or does not consist of such tokens |
| RepairMeaning.ReachIff | lg-cli/lg_cli/anthropic_bridge.py:700-722 | the search looks at the text and at what one or two edits make of it, each one character of punctuation put in or taken out at the error then reported |
| RepairMeaning.AcceptsIff | lg-cli/lg_cli/anthropic_bridge.py:723-735 | a candidate counts exactly when it parses to an object that fits the schema and prints with the scalars of the broken text |
| StoryStore.GrowKeepsNumbers | lg-cli/lg_cli/project_store.py:1992-2019 | a version with the next number keeps numbers unique within its document |
| StoryStore.GrowOwns | lg-cli/lg_cli/project_store.py:1992-2019 | only the grown document gains a version and only its head moves |
| KnowledgeStore.Overlap | lg-cli/lg_cli/narrative_knowledge.py:236-253 | the scan reports clear exactly when no other confirmed record of the same observer and key shares a position |
| KnowledgeStore.Snapshot | lg-cli/lg_cli/narrative_knowledge.py:124-153 | the consistency checks of a read, with versions looked up by number |
| KnowledgeStore.TopicFree | lg-cli/lg_cli/narrative_knowledge.py:221-223 | whether every record reads and none has the topic |
| KnowledgeStore.KnowledgeBook.Propose | lg-cli/lg_cli/narrative_knowledge.py:185-233 | one transaction of `propose`: the grown story or the story as it was |
| KnowledgeStore.KnowledgeBook.Confirm | lg-cli/lg_cli/narrative_knowledge.py:286-294 | one transaction of `confirm`, with its preview, lookup and overlap check |
| KnowledgeStore.KnowledgeBook.Withdraw | lg-cli/lg_cli/narrative_knowledge.py:312-320 | one transaction of `withdraw` |
| KnowledgeProofs.ChecksNeverFire | lg-cli/lg_cli/narrative_knowledge.py:124-153 | in every reachable story the consistency checks of every record pass |
| KnowledgeProofs.NeverContradicts | lg-cli/lg_cli/narrative_knowledge.py:236-294 | in every reachable story two records that answer one question of one observer never apply at the same position |
| KnowledgeProofs.ConfirmedWasProposed | lg-cli/lg_cli/narrative_knowledge.py:255-294 | what is confirmed is the text of an earlier proposal version of the same record |
| KnowledgeProofs.ProposalKeepsConfirmation | lg-cli/lg_cli/narrative_knowledge.py:185-233 | a new proposal changes neither the confirmation nor its status |
| KnowledgeProofs.WithdrawsIff | lg-cli/lg_cli/narrative_knowledge.py:297-320 | a withdrawal succeeds exactly when the head is the expected one and something is confirmed |
| KnowledgeProofs.OneWriterWins | lg-cli/lg_cli/narrative_knowledge.py:84-87 | of several writers that hold the same expected head at most one succeeds |
| KnowledgeProofs.NewRecordOnce | lg-cli/lg_cli/narrative_knowledge.py:185-233 | a record made for a slug is never made again |
| KnowledgeWrites.ConfirmsWhatWasNamed | lg-cli/lg_cli/narrative_knowledge.py:255-294 | a committed confirmation is the proposal of the version with the number the author named, in one new version and nothing else |
| KnowledgeWrites.ConfirmsIff | lg-cli/lg_cli/narrative_knowledge.py:236-294 | in every reachable story a confirmation succeeds for the expected head if and only if the proposal exists, observer and sources stand, it is not the confirmation already, and no confirmed record answers the same question at a position it would hold at |
| KnowledgeWrites.ProposesWhatWasGiven | lg-cli/lg_cli/narrative_knowledge.py:224-233 | a committed proposal is recorded as given, with what was confirmed before |
| KnowledgeWrites.ProposesIff | lg-cli/lg_cli/narrative_knowledge.py:185-233 | in every reachable story a proposal succeeds if and only if it is fine in itself and its place is free or is the expected head of its own record |
| KnowledgeWrites.WithdrawsOnly | lg-cli/lg_cli/narrative_knowledge.py:312-320 | a committed withdrawal leaves no confirmation, and nothing else changes |
| NarrativeView.Project | lg-cli/lg_cli/narrative_view.py:11-99 | the loop's counts and lists are those of the rows, each row in one class, within the limit |
| NarrativeView.CountsPartition | lg-cli/lg_cli/narrative_view.py:49-99 | the counts partition the rows considered |
| NarrativeView.OneStatementPerKey | lg-cli/lg_cli/narrative_view.py:49-99 | in every reachable story no view shows two statements for one key |
| NarrativeView.NothingInvalid | lg-cli/lg_cli/narrative_view.py:49-99 | in every reachable story no row is invalid for its own observer |
| NarrativeView.ViewIsComplete | lg-cli/lg_cli/narrative_view.py:11-99 | a scan that saw every row shows a record exactly when its statement is due at the position |
| NarrativeContents.ViewTells | lg-cli/lg_cli/narrative_view.py:57-87 | in every reachable story each statement tells what its record confirms, for a record of this observer that holds at the position with sound sources; of a withheld record only its identity and how its sources stand; later starts come first |
| NarrativeContents.WithheldIsComplete | lg-cli/lg_cli/narrative_view.py:73-79 | a scan that saw every row lists a record as withheld exactly when it holds without sound sources |
| NarrativeContents.CountsTell | lg-cli/lg_cli/narrative_view.py:57-87 | such a scan counts exactly the records that hold, by their sources |
| NarrativeContents.SourcesStand | lg-cli/lg_cli/narrative_knowledge.py:113-121 | how declared sources stand together: the worst of them decides |
| DecisionStore.SourcesCurrent | lg-cli/lg_cli/creative_decisions.py:65-89 | sources are current exactly when every declared version still is the document's own active one |
| DecisionStore.DecisionBook.SaveOptions | lg-cli/lg_cli/creative_decisions.py:248-282 | one transaction of `save_options` |
| DecisionStore.DecisionBook.SelectOption | lg-cli/lg_cli/creative_decisions.py:315-323 | one transaction of `select_option`, with its preview |
| DecisionStore.DecisionBook.WithdrawSelection | lg-cli/lg_cli/creative_decisions.py:341-349 | one transaction of `withdraw` |
| DecisionsProofs.SelectedWasOffered | lg-cli/lg_cli/creative_decisions.py:285-323 | in every reachable story a selection is a choice of an earlier options version of the record, and every read passes its checks |
| DecisionsProofs.OptionsKeepSelection | lg-cli/lg_cli/creative_decisions.py:248-282 | new options leave the selection and its status alone |
| DecisionsProofs.OneWriterWins | lg-cli/lg_cli/creative_decisions.py:60-63 | of several writers that hold the same expected head at most one succeeds |
| DecisionWrites.SelectsWhatWasNamed | lg-cli/lg_cli/creative_decisions.py:285-323 | a committed selection is the first option with the named identity in the version with the named number, with that version's sources and request, in one new version and nothing else |
| DecisionWrites.SelectsIff | lg-cli/lg_cli/creative_decisions.py:285-323 | in every reachable story a selection succeeds for the expected head if and only if that version and option exist, its sources still stand, and it is not the selection already |
| DecisionWrites.WithdrawsIff | lg-cli/lg_cli/creative_decisions.py:326-349 | a withdrawal succeeds exactly when something is selected, and leaves no selection |
| DecisionWrites.SavesWhatWasGiven | lg-cli/lg_cli/creative_decisions.py:248-282 | committed options are recorded as given, with what was selected before |
| DecisionWrites.SavesIff | lg-cli/lg_cli/creative_decisions.py:196-282 | in every reachable story options are saved if and only if they are fine in themselves, every condition spelled out, and their place is free or is the expected head of their own record |
| Adoption.ReviewContext | lg-cli/lg_cli/creative_decisions.py:148-193 | the loop over decision rows with projected versions |
| AdoptionContents.ContextHolds | lg-cli/lg_cli/creative_decisions.py:174-193 | the context holds exactly the selected decisions about the whole work, the chapter or its part, in order, each with its selection and how its sources stand |
| AdoptionContents.ContextIff | lg-cli/lg_cli/creative_decisions.py:174-193 | it is refused exactly when a record cannot be read or a thousand would be shown |
| AdoptionContents.DetailSays | lg-cli/lg_cli/creative_decisions.py:65-83 | what is said of one source, with the projected version and state of its document if there is one |
| Adoption.CandidateSnapshot | lg-cli/lg_cli/book_analysis.py:122-136 | the snapshot with the candidate in its document's place |
| AdoptionContents.SnapshotHolds | lg-cli/lg_cli/book_analysis.py:104-120 | a snapshot holds chapter and scenes as they are stored, and is refused exactly beyond its limits |
| AdoptionContents.CandidateHolds | lg-cli/lg_cli/book_analysis.py:122-136 | a candidate's snapshot has the candidate in its document's place, every other document as it is stored, and the decisions with that document projected |
| AdoptionContents.AcceptsIff | lg-cli/lg_cli/project_store.py:662-689 | a version is accepted exactly under its five conditions, and then head, version and document are what it says and nothing else changes |
| Adoption.DetailIff | lg-cli/lg_cli/creative_decisions.py:65-83 | projecting a source predicts its status exactly when it is not the version declared as another document's |
| Adoption.AdoptionIff | lg-cli/lg_cli/book_analysis.py:104-136 | the simulated snapshot equals the real one if and only if no reviewed decision declares such a source |
| Adoption.SimulatedIsAdopted | lg-cli/lg_cli/book_analysis.py:104-136 | in every reachable story the snapshot of a candidate equals the snapshot after its acceptance, source statuses included |
| Evidence.SourceSpans | lg-cli/lg_cli/book_analysis.py:258-273 | the spans held are exactly the numbered quotes of every source, under their keys |
| Evidence.QuotesApart | lg-cli/lg_cli/book_analysis.py:258-273 | the quotes of a content are in order, do not overlap, and have 4 to 240 characters |
| EvidenceQuotes.QuotesIff | lg-cli/lg_cli/book_analysis.py:258-272 | a part of a content can be quoted if and only if it is a piece of 240 characters, or the shorter last one, of a trimmed sentence, and has at least four |
| EvidenceQuotes.EveryQuoteKnown | lg-cli/lg_cli/book_analysis.py:258-273 | every such part of every source has a key of that source and version, under its number, with exactly that text |
| EvidenceQuotes.OnlyQuotesKnown | lg-cli/lg_cli/book_analysis.py:258-273 | and every quote held is such a part |
| Evidence.KeysDistinct | lg-cli/lg_cli/book_analysis.py:258-273 | a key determines its prefix, document, version and number |
| Evidence.ResolveEvidence | lg-cli/lg_cli/book_analysis.py:282-296 | a report resolves exactly when all its keys are known, and then to their quotes |
| Evidence.ResolvedPasses | lg-cli/lg_cli/book_analysis.py:341-353 | every resolved quote passes the substring check of the report validation |
| ChapterFile.Print | lg-cli/lg_cli/chapter_sync.py:142-147 | the loop prints the specified text |
| ChapterLooks.FileLooks | lg-cli/lg_cli/chapter_sync.py:142-147 | the file letter by letter: the title, then each document between its two lines |
| ChapterFile.ParseIff | lg-cli/lg_cli/chapter_sync.py:150-158 | exactly which files are accepted with which contents: those that render them up to final newlines, no content holding a closing line after its first line |
| ChapterFile.RoundTripIff | lg-cli/lg_cli/chapter_sync.py:142-158 | printing and reading gives the contents back exactly when no content holds such a line |
| ChapterFile.AcceptedSurvives | lg-cli/lg_cli/chapter_sync.py:150-158 | whatever was accepted survives being printed and read again |
| ChapterFile.SilentMisread | lg-cli/lg_cli/chapter_sync.py:150-158 | a family of contents that are printed and read back as others, without an error |
| ChapterSync.ReplacedIsRecorded | lg-cli/lg_cli/chapter_sync.py:66-77 | a file replaced by an export reads as what recorded versions print, for the rest of every run |
| ChapterSync.CleanMeansInSync | lg-cli/lg_cli/chapter_sync.py:52-64 | after any run, a chapter reported clean has a file that reads as the database prints it |
| ChapterSync.ExportOutcome | lg-cli/lg_cli/chapter_sync.py:66-77 | an export that is not refused leaves the chapter clean exactly when it prints no carriage return |
| ChapterSync.CutShort | lg-cli/lg_cli/chapter_sync.py:66-77 | an export stopped before its baseline leaves a chapter whose export and import are both refused exactly when there was no baseline, or the new text differs from its and the database changed since or the text cannot be read |
| ChapterSync.FirstExportStrands | lg-cli/lg_cli/chapter_sync.py:66-77 | the first export of any chapter, stopped there, leaves such a chapter |
| ChapterSync.StrandedStays | lg-cli/lg_cli/chapter_sync.py:66-112 | no sequence of exports and imports changes such a chapter, while neither the editor nor the database acts |
| ChapterSync.ImportOutcome | lg-cli/lg_cli/chapter_sync.py:90-112 | an import that finds the heads it read stores the file's contents, with the titles, states and order the transaction found |
| ChapterSync.ImportedHeads | lg-cli/lg_cli/project_store.py:609-639 | a document gets a new version exactly when its content changed |
| ChapterSync.ImportStatus | lg-cli/lg_cli/chapter_sync.py:104-112 | a file saved during the import is reported as edited, a changed title or order as a changed database |
| ChapterSync.ChangedHeadStops | lg-cli/lg_cli/project_store.py:609-639 | a head changed between reading and transaction stops the import |
| ChapterSync.ExportReadsBack | lg-cli/lg_cli/chapter_sync.py:66-112 | an untouched exported file reads as the database's contents exactly when they are clean |
| ChapterSync.ExportThenImport | lg-cli/lg_cli/chapter_sync.py:66-112 | importing it then changes nothing |
| ChapterSyncStore.Chapter.Status | lg-cli/lg_cli/chapter_sync.py:52-64 | the six states of a chapter file |
| ChapterSyncStore.Chapter.Export | lg-cli/lg_cli/chapter_sync.py:66-77 | external edits are preserved, else file and baseline are written |
| ChapterSyncStore.Chapter.EditDocuments | lg-cli/lg_cli/project_store.py:609-639 | all changed contents get versions in one transaction, or nothing changes |
| ChapterSyncStore.Chapter.ImportFile | lg-cli/lg_cli/chapter_sync.py:90-112 | every outcome of an import, with other writers acting during it |
| GifCodec.Pack | scripts/preview_slime.py:44-60 | the packed bytes hold a clear code and a code per pixel, then the end code, three bits each |
| GifCodec.PackedDecodes | scripts/preview_slime.py:44-60 | the variable-length LZW decoder of GIF89a returns exactly the pixels, with codes never wider than three bits |
| GifCodec.BlocksRead | scripts/preview_slime.py:61-65 | the sub-blocks are read back as the data they frame |
| GifCodec.GifData | scripts/preview_slime.py:33-67 | a reader of the whole file finds the size and every frame with its delay and pixels, in order |
| AssetPlan.PlanSources | lg-cli/lg_cli/book_assets.py:98-133 | a plan moves every file below the four roots exactly once |
| AssetShelves.PlanShelves | lg-cli/lg_cli/book_assets.py:98-133 | every move of a plan takes the file at its source to the shelf for its root, name and content |
| AssetShelves.PlanRefusedIff | lg-cli/lg_cli/book_assets.py:98-109 | there is no plan exactly when one of the four folders, or something planned in it, is a symbolic link |
| AssetPlan.PlanReady | lg-cli/lg_cli/book_assets.py:136-151 | a plan passes the check exactly when no target exists and no two coincide |
| AssetShelves.SafeIff | lg-cli/lg_cli/book_assets.py:136-151 | a plan passes the check exactly when of each move one end exists, as the file the plan was made for, and no target comes twice |
| AssetPlan.OnlyShelfNames | lg-cli/lg_cli/book_assets.py:111-129 | a source of a plan stands above a target exactly when the library holds a file where the shelf of a target is to be |
| AssetPlan.PlanResumes | lg-cli/lg_cli/book_assets.py:98-159 | a checked plan that can be carried out can be stopped anywhere and resumed exactly when there is no such file |
| AssetStranded.StrandedPlan | lg-cli/lg_cli/book_assets.py:98-159 | a library of two files whose plan is ready and completes, and cannot be resumed from every stop |
| AssetPlan.Library.Check | lg-cli/lg_cli/book_assets.py:136-151 | the check loop accepts exactly the safe plans |
| AssetPlan.Library.Carry | lg-cli/lg_cli/book_assets.py:155-159 | the move loop reaches the specified files, or stops at the first move that fails |
| AssetPlan.Library.Organize | lg-cli/lg_cli/book_assets.py:82-173 | the whole call; without `apply`, or refused, it changes nothing |
| AssetMigration.CompletesIff | lg-cli/lg_cli/book_assets.py:155-159 | a checked plan is carried out to the end exactly when no target lies below another and only folders, or files moved away before, stand above one |
| AssetMigration.Completed | lg-cli/lg_cli/book_assets.py:155-159 | every planned content is at its target, every other asset untouched, nothing else new but folders |
| AssetMigration.NothingOverwritten | lg-cli/lg_cli/book_assets.py:155-159 | no move meets a file at its target and no content is ever missing |
| AssetMigration.RerunCompletes | lg-cli/lg_cli/book_assets.py:136-159 | a rerun after a stop at any point passes the check and ends with the files of an uninterrupted run |
| AssetMigration.CrashesDoNotMatter | lg-cli/lg_cli/book_assets.py:136-159 | the same after any number of stops |
| AssetMigration.ResumesIff | lg-cli/lg_cli/book_assets.py:136-159 | every stop can be resumed exactly when no source stands above a target |
| AssetMigration.RefusedChangesNothing | lg-cli/lg_cli/book_assets.py:136-151 | a call is refused exactly when it is not finished and fails the check, and then changes nothing |
| AssetMigration.ResumedIsUninterrupted | lg-cli/lg_cli/book_assets.py:91-173 | from the written plan on, the next call ends with the files and manifest of an uninterrupted one |
| AssetMigration.IndexNeverWritten | lg-cli/lg_cli/book_assets.py:95-173 | a stop between the completed manifest and the index is final |
| AssetShelves.IndexAdds | lg-cli/lg_cli/book_assets.py:155-173 | a migration that runs through adds to the moved files only the index, unless there was one, and its folder |
| EventFold.NeverLiveAgain | lg-cli/lg_cli/backend_events.py:58-87 | on any longer log every item is in its place and none that was over is live again |
| EventFold.FinishedIsOver | lg-cli/lg_cli/backend_events.py:84-87 | after a run finished none of its items is live |
| EventFold.StreamedText | lg-cli/lg_cli/backend_events.py:78-83 | the text of a streamed item is the concatenation of its deltas |
| EventLives.FoldedIsLived | lg-cli/lg_cli/backend_events.py:58-87 | the fold shows every item the log mentions, in the order of first mention, exactly as the events about that item alone leave it |
| EventFold.ActiveIff | lg-cli/lg_cli/backend_events.py:45-55 | the active runs are those whose last event was their start, each once |
| EventFold.Conservation | lg-cli/lg_cli/backend_events.py:88-105 | each prior item, each folded item and one item per message that is in neither are listed exactly once |
| EventFold.RunTogether | lg-cli/lg_cli/backend_events.py:88-98 | the items of a run whose message was listed stand together in log order |
| EventLives.LaidInOrder | lg-cli/lg_cli/backend_events.py:88-104 | message by message: the items of a run stand where its first message stands, and a message that is no item has one of its own |
| EventFold.Fold | lg-cli/lg_cli/backend_events.py:58-87 | the loop over the log |
| EventFold.ActiveRuns | lg-cli/lg_cli/backend_events.py:45-55 | the loop over the log |
| EventFold.SnapshotItems | lg-cli/lg_cli/backend_events.py:58-105 | the loops over items and messages |
| PageCache.AtMostFour | lg-cli/lg_cli/backend_history.py:65-75 | at most four snapshots are held after any history of calls |
| PageCache.EvictedLate | lg-cli/lg_cli/backend_history.py:65-91 | an unexpired snapshot is dropped only by a freeze, after three others were used since its last use |
| PageCache.ServedIsFrozen | lg-cli/lg_cli/backend_history.py:77-91 | a page served shows its piece of the one snapshot frozen under its key, whatever happened in between |
| PageCache.Reassembled | lg-cli/lg_cli/backend_history.py:84-91 | following the pages gives exactly the frozen data in as many pages as they fill |
| PageContents.ServesIff | lg-cli/lg_cli/backend_history.py:77-91 | after any calls a page is served if and only if its snapshot is held, unexpired, of this session and long enough, and then it is that page; an expired one is dropped, any other refusal changes nothing |
| PageContents.FreezeHolds | lg-cli/lg_cli/backend_history.py:65-75 | a freeze holds its snapshot for three minutes and serves its first page, if there is one |
| PageContents.PageHolds | lg-cli/lg_cli/backend_history.py:84-91 | a page holds its piece of the data, the number of pages, and which page follows |
| PageCache.SnapshotPages.Freeze | lg-cli/lg_cli/backend_history.py:65-75 | expired entries leave, the oldest make room, the first page is served |
| PageCache.SnapshotPages.ServePage | lg-cli/lg_cli/backend_history.py:77-91 | every outcome of a page request |
| Numerals.ReadNumber | lg-cli/lg_cli/intent_router.py:117-126 | the loop over the characters |
| Numerals.Horner | lg-cli/lg_cli/intent_router.py:121-126 | reading is evaluation in base ten thousand |
| Numerals.GroupMeans | lg-cli/lg_cli/intent_router.py:117-126 | any text of signs without a myriad sign means what its units are worth, each counted by the digit before it, and its last digit |
| Numerals.ReadableIff | lg-cli/lg_cli/intent_router.py:117-126 | a text is a number exactly when it is of digits only or of signs only |
| Numerals.DigitMeans | lg-cli/lg_cli/intent_router.py:119-119 | the value of every digit sign |
| Numerals.ReadsBack | lg-cli/lg_cli/intent_router.py:117-126 | every natural number is read back from its usual written forms |

## Left out

- AssetPlan.Library.Organize: says nothing about a manifest of another project or with another schema.
- EventFold.SnapshotItems: titles and the structured part of an item are one opaque text.
- Subprocesses, sockets, HTTP, MCP, locks and task scheduling; a cancelled task that never started does not run its body.
- Model output, JSON text, JSON schemas and the data classes of pydantic: values, and functions or predicates given as parameters.
- The byte sizes of saved expert results, which writer and reader measure differently; nothing is claimed about acceptance by size.
- The lengths of task ids, fingerprints and identities given by the policy, and argument digests; an announcement that raises.
- In the objects, the saves that `execute` makes through the Codex adapter: `CodexReviews` holds these steps on values.
- A `CodexReviews` without a runtime, and save failures that are no operating system errors.
- What `result` makes of an expert record for the model, beyond the record itself.
- In requests, the checks of tool choice, text format and effort, and tool descriptions and schemas; in streams, token usage, item and response identifiers, and the wording of errors.
- Upstream streams that reuse a block index or send events for a block after it stopped.
- An editor saving between the check and the write of a chapter export, which are one step; saves during an import are steps.
- Chapter paths, the invalid baseline file, `diff`, and more than a thousand scenes.
- Folders reached through symbolic links, and a partly made folder chain when a folder's creation itself fails.
- SQLite, search indexes, timestamps and hashing: transactions are serial and a digest is the content it was made from. That version numbers and slugs are unique is the contract of the store.
- The order of scene and decision rows is what the database answers.
- Unicode beyond the characters that matter: digits are ASCII, and folding of case is not used.
- Delays of GIF frames as rounded real numbers, the drawing of frames, and PNG output.
- Terminal interfaces, credentials, provider presets, exports to other formats, `backend.py`, `main.py`, `live_agent.py` and `codex_runtime.py`.
