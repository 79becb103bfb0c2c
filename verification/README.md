# OpenPinch, modelled and proved in Dafny

OpenPinch is a local agent runtime: a Rust engine that queues tool runs, keeps a "brain" of entities,
facts, relations and tasks, holds chat sessions and pairings, and routes prompts over model providers
behind caches; and a Go gateway whose event hub feeds desktop streams. This project models those state
machines and proves what they keep, over every input, every interleaving and every run.

`dafny verify dfyconfig.toml` checks the whole project.

## How it is organised

Each component has a specification on values (datatypes and functions), theorems about every run of it,
and, where the source updates state in place, a class or method proved to do what the specification says.

| component | specification | theorems | in place |
|---|---|---|---|
| work queue | `WorkQueue` | `WorkQueueLaws`, `WorkQueueOrder`, `WorkQueueOutcome`, `WorkQueueDrain`, `WorkQueueWrap` | `QueueManager` |
| fingerprints, ranking | `Text`, `Ranking` | `Text`, `TextRuns`, `Jaccard`, `Ranking` | |
| brain store | `Brain` | `BrainInvariant`, `BrainTables`, `BrainRuns`, `BrainDeletion`, `BrainIngest`, `BrainDrift`, `BrainScope`, `BrainSuggest`, `BrainOpenTasks`, `BrainRecall`, `BrainQuery`, `BrainRecords`, `BrainRequests` | `BrainManager`, stages in `BrainRecall` |
| sessions and pairings | `Sessions` | `SessionLaws`, `SessionCalls`, `FlagLaws`, `PairingLaws`, `PairingVerdicts` | `SessionStore` |
| providers, caches | `Providers`, `PrefixText`, `Orchestrator` | `Providers`, `PrefixText`, `OrchestratorLaws`, `AnswerLaws`, `StickyLaws` | `Providers`, `OrchestratorStore` |
| event hub, streams | `EventHub` | `EventHubLaws` | `EventHubStore` |
| handoff protocol | `Handoff` | `Handoff` | `Handoff.ValidateProtocol` |

`Folds` sums over sequences, `Options` is the usual optional value and `Clock` names the hour and the day. Each
class has an invariant `Valid()` that its constructor establishes and its methods keep, a few inner statements
only under the condition they name.

**Steps.** The queue is a machine of atomic sections: an enqueuer checks, stores, pushes, counts and
notifies in separate steps; the dispatcher waits, pops and takes a permit; each runner marks, executes,
records, uncounts and releases. The atomic counter wraps at 2^64. The hub is a machine whose steps are
sections under its mutex, sends to a client and receives from a channel; a publication offers its event to
all channels in one step, which is harmless because a receive from one channel commutes with an offer to
another and nothing else reads the queues. The stores take one remote call as one step.

**Laws in plain terms.** The specification functions name the program's own operations. For each operation there is
also a law that says what it does without naming them: by positions in a table, literal texts and numbers, the
steps of a run, or sets of tokens (`WorkQueueOutcome`, `TextRuns`, `BrainQuery`, `BrainOpenTasks`, `BrainRecords`,
`BrainRequests`, `SessionCalls`, `PairingVerdicts`, `AnswerLaws`).

**Parameters.** Hashing, JSON reading, the text heuristics (task, artifact, environment and due-date
extraction, priority words), the Unicode tables and everything providers, tools and the semantic cache tier
answer are given from outside, and so are the brain's settings, which switch it or one kind of ingestion off.
Hashes are assumed free of collisions only where a lemma says so (`CollisionFree`, `Faithful`). Scores are
reals. Time is an integer that grows with every write.

**Tables.** A SQL table is a sequence, or a map when only its key matters. Rows listed "by `updated_at`
descending" are kept in that order, with the 512-row and 256-row windows; rows written by one bulk
statement keep their relative order. Writes succeed. Generated ids are fresh numbers.

## What turned out not to hold

Where a natural property is false of the code, the code is kept, a concrete input shows the failure, and the
exact condition is proved.

- **An idle queue can refuse work.** A fast runner may subtract before its enqueuer adds, so the counter
  wraps below zero and reads as enormous. `WorkQueueLaws.RefusedExactlyWhen` gives the condition and
  `WorkQueueWrap.IdleQueueRefuses` a reachable state with nothing outstanding in which a call is refused.
- **Deleting can unindex a surviving row.** A deletion drops index entries by id in every namespace
  (`BrainDeletion.DeletionUnindexes`). The index stays complete exactly when no surviving row carries that id
  (`BrainRuns.DeleteKeepsIndexExactlyWhen`).
- **Deleting can leave an entry without a row.** Facts deleted with their entity keep their entries
  (`BrainDeletion.ForgottenContactLeavesEntry`). Every fact entry keeps its row exactly when those facts all
  share the entity's id (`BrainDeletion.EntriesKeepRowsExactlyWhen`).
- **An active session can carry the archived flag.** A message makes the status active but never clears the
  flag (`FlagLaws.ActiveYetFlagged`). Flag and status agree exactly as long as no call writes to an archived
  session (`FlagLaws.CallBreaksFlagExactlyWhen`, `FlagLaws.FlagsAgreeExactlyWhen`).
- **The pairing gate follows the stored session, not the message.** A direct message that resolves to a
  group session is not gated: `PairingLaws.DirectMessageGatedExactlyWhen`,
  `PairingLaws.GateFollowsStoredSession`.
- **A live answer can be lost after the exact row is written.** The prefix cut is at byte 128 and panics
  inside a character: `OrchestratorLaws.PanicsExactlyWhen`, `OrchestratorLaws.SizesAgreeExactlyWhen`,
  `OrchestratorLaws.StraddlingPromptPanics`.
- **A prefix answer can change.** Stored prefixes are `like` patterns, so a stored `_` or `%` matches other
  prompts (`StickyLaws.WildcardStealsAnswer`). A call changes another prompt's answer exactly when it stores a
  longer prefix that matches it, with another answer (`StickyLaws.AnswerChangesExactlyWhen`); over runs this
  decides when two calls for one prompt differ (`StickyLaws.AnswersDifferExactlyWhen`), and without wildcards
  they never do (`StickyLaws.EveryAnswerIsSticky`).
- **One stated theorem of the handoff description depends on its constants**
  (`Handoff.NoSelfLoopExactlyWhen`), **and the validator accepts transcripts the machine never makes**
  (`Handoff.AcceptedIsHandoffExactlyWhen`, `Handoff.UnrelatedHopsAccepted`).

## Model

| member | source | states |
|---|---|---|
| WorkQueueLaws.CounterLaw | core/crates/engine/src/lib.rs:4882-4971 | In every interleaving the machine counter is congruent modulo 2^64 to pending + held + unfinished runs less what is pushed but not yet counted; permits held plus free are constant |
| WorkQueueLaws.InflightBound | core/crates/engine/src/lib.rs:4910-4971 | At most max(max_inflight, 1) runs hold a permit at once |
| WorkQueueLaws.QueueBound | core/crates/engine/src/lib.rs:4863-4907 | With at most n active enqueue calls, outstanding tasks plus calls past the check stay below 8 max(max_inflight, 1) + n |
| WorkQueueLaws.RefusedExactlyWhen | core/crates/engine/src/lib.rs:4883-4886 | A call is refused if and only if the true count is at 8 max(max_inflight, 1) or more, or has gone negative |
| WorkQueueLaws.NoLostWakeup | core/crates/engine/src/lib.rs:4898-4920 | Whenever tasks are pending and the dispatcher is parked, a notify permit is stored or an enqueuer sits between push and notify |
| WorkQueueOrder.QueueOrder | core/crates/engine/src/lib.rs:4888-4897 | For each priority the push history is the pop history followed by the current deque |
| WorkQueueOrder.PopsUrgentFirst | core/crates/engine/src/lib.rs:4973-4981 | A pop takes the head of its own deque, every more urgent deque is empty, and the other deques stay |
| WorkQueueOrder.Conservation | core/crates/engine/src/lib.rs:4882-4981 | The bag of pushed tasks is the bag of runs, the held task and the pending tasks |
| WorkQueueOrder.ExactlyOnce | core/crates/engine/src/lib.rs:4910-4971 | With distinct task ids no task runs twice and every row tells its task's stage: queued, running, then completed after a success and failed after a failure |
| WorkQueueOutcome.OutcomeStored | core/crates/engine/src/lib.rs:4910-4968 | Once a run is recorded its task's row is completed if and only if its tool step succeeded, and failed if and only if it did not |
| WorkQueueOutcome.UnfinishedStored | core/crates/engine/src/lib.rs:4910-4926 | Until then the row says queued before the run is marked and running after it |
| WorkQueueOrder.RowsOnlyMoveForward | core/crates/engine/src/lib.rs:2132-2150 | A row appears as queued and moves only to running and then to completed or failed |
| WorkQueueDrain.StepLowers | core/crates/engine/src/lib.rs:4882-4971 | Every step but a new call lowers the remaining work |
| WorkQueueDrain.DrainTerminates | core/crates/engine/src/lib.rs:4882-4971 | Without new calls, an interleaving has at most as many steps as there is work |
| WorkQueueDrain.OnlyDrainedIsStuck | core/crates/engine/src/lib.rs:4882-4971 | A reachable state with no step left has empty deques, counter 0, all permits back and everyone finished |
| WorkQueueDrain.DrainedMeansDone | core/crates/engine/src/lib.rs:4910-4971 | When drained, the runs are exactly the accepted tasks, and each row is completed if its tool step succeeded and failed if it did not |
| WorkQueueWrap.IdleQueueRefuses | core/crates/engine/src/lib.rs:4883-4900 | A reachable state with nothing outstanding in which the next call is refused |
| QueueManager.QueueInner.constructor | core/crates/engine/src/lib.rs:4863-4880 | A new queue has no rows, empty deques, counter 0, max(max_inflight, 1) permits and the limit 8 times that |
| QueueManager.QueueInner.StoreQueueTask | core/crates/engine/src/lib.rs:2132-2141 | The task has a queued row, the table gains at most its id, and no other row changes |
| QueueManager.QueueInner.UpdateQueueStatus | core/crates/engine/src/lib.rs:2143-2150 | No row appears, vanishes or changes its task; exactly the status of the id named changes, if it has a row |
| QueueManager.QueueInner.PushBack | core/crates/engine/src/lib.rs:4889-4897 | Its own deque grows at the end and the others stay; it is popped next only if nothing as urgent waits |
| QueueManager.PushIs | core/crates/engine/src/lib.rs:4889-4897 | The same of every well-sorted pending state, which stays well sorted |
| QueueManager.PopIs | core/crates/engine/src/lib.rs:4973-4981 | A pop takes the head of the most urgent deque that is not empty and leaves the others; with nothing to take it changes nothing |
| QueueManager.QueueInner.NextQueuedTask | core/crates/engine/src/lib.rs:4973-4981 | The front of the most urgent non-empty deque is taken |
| QueueManager.QueueInner.AddDepth | core/crates/engine/src/lib.rs:4898 | The counter moves up by one modulo 2^64 and a subtraction undoes it |
| QueueManager.QueueInner.SubtractDepth | core/crates/engine/src/lib.rs:4967 | The counter moves down by one modulo 2^64, from zero to the largest word, and an addition undoes it |
| QueueManager.QueueInner.NotifyOne | core/crates/engine/src/lib.rs:4899 | One permit is stored, however many were |
| QueueManager.QueueInner.Enqueue | core/crates/engine/src/lib.rs:4882-4907 | An uninterrupted call: accepted exactly below the limit, with a queued row and a permit, and the whole new shared state |
| QueueManager.EnqueueIsSixSteps | core/crates/engine/src/lib.rs:4882-4907 | The six steps of an accepted call, uninterrupted, do what the method does |
| QueueManager.RefusalIsTwoSteps | core/crates/engine/src/lib.rs:4883-4886 | A refused call changes nothing but the list of calls |
| Text.FingerprintCanonical | core/crates/engine/src/lib.rs:5187-5196 | Two texts have equal fingerprints if and only if their token sets are equal |
| Text.FingerprintIdempotent | core/crates/engine/src/lib.rs:5187-5196 | Fingerprinting a fingerprint gives it back |
| Text.FingerprintSplits | core/crates/engine/src/lib.rs:5187-5203 | Splitting the joined string gives back the token list |
| Text.TokenListStrict | core/crates/engine/src/lib.rs:5188-5195 | The token list is strictly sorted and holds exactly the token set |
| TextRuns.TokensAreRuns | core/crates/engine/src/lib.rs:5187-5196 | A token is a longest run of letters and digits of the text, its ASCII letters lowered, and every such run is one |
| TextRuns.OrderedByFirstDifference | core/crates/engine/src/lib.rs:5193-5194 | Tokens are listed by their first difference, a prefix before its extensions |
| Jaccard.SimilarityIsJaccard | core/crates/engine/src/lib.rs:5198-5210 | On fingerprints the similarity is intersection over union of the token sets |
| Jaccard.Triangle | core/crates/engine/src/lib.rs:5198-5210 | One minus the index obeys the triangle inequality on non-empty sets |
| Jaccard.LikenessTriangle | core/crates/engine/src/lib.rs:5198-5210 | The same for the similarity of texts |
| Jaccard.LikenessOne | core/crates/engine/src/lib.rs:5198-5210 | Similarity is symmetric, between 0 and 1, and says when it is 1 |
| Jaccard.Drift | core/crates/engine/src/lib.rs:5198-5210 | A chain of n texts each at least 0.72 similar to the one before keeps its ends at least 1 - 0.28 n similar |
| Ranking.TopKIsTopK | core/crates/engine/src/lib.rs:2069-2076 | A stable descending sort cut to k: descending, ties in the given order, and nothing left out beats anything returned |
| Ranking.TopKUnique | core/crates/engine/src/lib.rs:2069-2076 | Only one list has these properties |
| Ranking.Ranked | core/crates/engine/src/lib.rs:2069-2076 | Every candidate left out scores no more than every one returned |
| BrainRuns.IndexCoverage | core/crates/engine/src/lib.rs:3693-3796 | Over all runs every entity, fact and task row has an index entry under its id with the projection of its current fields |
| BrainRuns.DeleteKeepsIndexExactlyWhen | core/crates/engine/src/lib.rs:3150-3199 | A deletion keeps the index complete if and only if no surviving row carries the deleted id |
| BrainDeletion.EntriesKeepRowsExactlyWhen | core/crates/engine/src/lib.rs:3150-3199 | If every fact entry named a row, a deletion keeps that if and only if the facts of the deleted entity all have its id (or it is not an entity) |
| BrainDeletion.DeletionUnindexes | core/crates/engine/src/lib.rs:3163-3199 | From the initial store, deleting the project entity's id as a task leaves that entity without its entry |
| BrainDeletion.ForgottenContactLeavesEntry | core/crates/engine/src/lib.rs:3150-3199 | From the initial store, ingesting a message and deleting its sender leaves the entry of a fact that is gone |
| BrainRuns.TaskFloors | core/crates/engine/src/lib.rs:3841-3906 | In every run tasks have salience at least 0.45 and confidence at least 0.72, blocked ones exactly 0.8 and 0.95, and ids are unique |
| BrainIngest.IngestIdempotentOnIds | core/crates/engine/src/lib.rs:3207-3354 | Ingesting a message twice leaves the same entity, fact and task ids as once, from every prior store |
| BrainIngest.FindSimilarMeaning | core/crates/engine/src/lib.rs:4149-4161 | The similar task is open to merging, at the threshold, and no other scores higher |
| BrainRecords.MergeTargetIs | core/crates/engine/src/lib.rs:3908-3925 | A task merges with the unarchived one among the newest 512, in its scope, that shares most tokens, at least 0.72 of them, the least recently updated among equals; without one its id is the hash of summary and scope |
| BrainScope.ScopeMeans | core/crates/engine/src/lib.rs:4365-4385 | A record is in scope if the query is blank or an empty object, or if both parse and the record has every pair of the query |
| BrainDrift.MergeIsClose | core/crates/engine/src/lib.rs:3908-3925 | A similarity merge overwrites the summary with one at least 0.72 similar |
| BrainDrift.MergeDrift | core/crates/engine/src/lib.rs:3908-3925 | After n similarity merges into one task, with any other writes in between that leave its summary alone, the first and last summaries are at least 1 - 0.28 n similar |
| BrainDrift.MergeDriftInEveryRun | core/crates/engine/src/lib.rs:2674-3950 | In every run: between two points at which only the similarity merges of remember, of ingestion and of replies change a task's summary, first and last are at least 1 - 0.28 n similar, n being the number of those merges |
| BrainSuggest.QueryRanked | core/crates/engine/src/lib.rs:2028-2077 | A memory query returns entries of its namespace, ranked by a stable top list of the candidates' scores |
| BrainQuery.QueryMostAlike | core/crates/engine/src/lib.rs:2028-2077 | A query returns max(limit, 1) of the newest 256 entries of its namespace, or all: in descending order of the tokens their text shares with the query (intersection over union), the newer first among equals; and every entry in the window left out comes after all returned |
| BrainSuggest.SuggestRanked | core/crates/engine/src/lib.rs:2907-2983 | Suggestions are a descending, stable top list of the eligible tasks |
| BrainOpenTasks.SuggestsTheBest | core/crates/engine/src/lib.rs:2907-2983 | The tasks suggested are unarchived, among the newest 512, open, in progress or blocked, and in scope; their scores and reasons are spelled out; best first, the newer first among equals; and every such task left out ranks below all max(limit, 1) suggested |
| BrainOpenTasks.ToolTaskIs | core/crates/engine/src/lib.rs:4163-4171 | A tool result is about the first unarchived open, ongoing or blocked task among the newest 512 that names the tool in summary or title, up to case, or shares at least 0.72 of the tokens; and about none if and only if there is none |
| BrainSuggest.UrgentClearsThreshold | core/crates/engine/src/lib.rs:3530-3545 | An eligible blocked, overdue or soon due task scores at least 0.55 and is left out of the inline list only when others fill it |
| BrainSuggest.UrgentInEveryRun | core/crates/engine/src/lib.rs:2907-3002 | The same in every reachable store |
| BrainRecall.RecallBoundedAndSound | core/crates/engine/src/lib.rs:2787-2905 | At most limit entities, none twice, each a hit in scope, the owner of a returned fact or an endpoint of a touching relation; at most limit facts and tasks, all hits in scope; and 2 limit relations that touch a selected id |
| BrainRecall.RecallInEveryRun | core/crates/engine/src/lib.rs:2787-2905 | The same, and one-hop completeness, of every recall in every reachable store |
| BrainQuery.RecallMostAlike | core/crates/engine/src/lib.rs:2787-2869 | In every run of well-behaved callers, returned facts and tasks come in descending order of likeness of their current text to the query, and no listed one in scope that is left out, with its entry among the newest 256, is more alike than one returned |
| BrainQuery.RecallEntitiesMostAlike | core/crates/engine/src/lib.rs:2825-2889 | The same for the first entities returned; all later ones own a returned fact or end a touching relation |
| BrainQuery.RecalledRelationsAre | core/crates/engine/src/lib.rs:2829-2896 | The ids selected are those of the matched entities, the owners of the facts, the tasks and all they link to; the relations returned are listed, touch one of them, and only 2 limit of them leave another out |
| BrainQuery.SummaryIs | core/crates/engine/src/lib.rs:4343-4363 | The summary counts entities, facts and tasks and passes over those not found |
| BrainRecall.RecallOneHopComplete | core/crates/engine/src/lib.rs:2837-2889 | If fewer than limit entities return, every listed owner of a returned fact and endpoint of a touching relation is among them |
| BrainRecall.HitsDistinct | core/crates/engine/src/lib.rs:4173-4196 | The hits of one namespace never name a key twice |
| BrainRecall.MatchEntities | core/crates/engine/src/lib.rs:2825-2835 | The first limit hits that name a listed entity in scope |
| BrainRecall.MatchFacts | core/crates/engine/src/lib.rs:2837-2854 | The same for facts, selecting owners and adding them while there is room |
| BrainRecall.MatchTasks | core/crates/engine/src/lib.rs:2856-2869 | The same for tasks, selecting them and their links |
| BrainRecall.ExpandRelations | core/crates/engine/src/lib.rs:2871-2888 | Adds both ends of every touching relation in order, while there is room and none twice |
| BrainManager.Manager.constructor | core/crates/engine/src/lib.rs:2642-2668 | A new brain holds the baseline context, and ids, index keys and relation triples are unique |
| BrainManager.Manager.UpsertProjection | core/crates/engine/src/lib.rs:4198-4215 | The key finds the text, every other key finds what it found, and the entry is the newest and only one of its key |
| BrainManager.Manager.UpsertEntity | core/crates/engine/src/lib.rs:3693-3750 | The row is the newest and only one of its id, unarchived; its projection is found under it; every other row and key is as it was |
| BrainManager.Manager.UpsertFact | core/crates/engine/src/lib.rs:3752-3796 | The same for a fact |
| BrainManager.Manager.UpsertRelation | core/crates/engine/src/lib.rs:3798-3839 | The relation is the newest, unarchived, and the only one of its kind and endpoints; every other relation is still there, and triples stay unique |
| BrainManager.Manager.UpsertTask | core/crates/engine/src/lib.rs:3841-3906 | The same for a task with its two projections; the invariant holds as long as the task meets the floors |
| BrainManager.Manager.RecordIngest | core/crates/engine/src/lib.rs:3677-3691 | The reference has this log row, newest; every other reference keeps its row |
| BrainManager.Manager.FindSimilarTask | core/crates/engine/src/lib.rs:4149-4161 | The loop finds the most similar mergeable task, the last of equals |
| BrainManager.Manager.UpsertOrMergeTask | core/crates/engine/src/lib.rs:3908-3925 | The row is written under the id of the most similar task, or under its hash, and is the only one of that id |
| BrainManager.Manager.IngestContact | core/crates/engine/src/lib.rs:3220-3266 | The sender's entity, two relations and the message as a fact |
| BrainManager.Manager.IngestArtifacts | core/crates/engine/src/lib.rs:3267-3290 | The loop writes each artifact and its relation and returns their ids in order |
| BrainManager.Manager.IngestEnvironments | core/crates/engine/src/lib.rs:3291-3314 | The same for environments |
| BrainManager.Manager.IngestTask | core/crates/engine/src/lib.rs:3315-3350 | The task is merged or written, open, and linked to the owner and the sender |
| BrainManager.Manager.IngestMessage | core/crates/engine/src/lib.rs:3207-3354 | If the brain and the setting are on, contact, artifacts, environments and task are written and logged with the ids linked; otherwise nothing is; a task found is afterwards the newest, unarchived and open |
| BrainRecords.IngestedTaskIs | core/crates/engine/src/lib.rs:3315-3350 | The newest task is then open and unarchived with the summary found, the priority read from the body, the due time that many after its writing, the scope of the message and links to the ids of sender, artifacts and environments in order; all other tasks stay |
| BrainRecords.IngestedTaskIsAsked | core/crates/engine/src/lib.rs:2907-2983 | It is among the tasks `suggest` ranks if and only if its scope is asked for and retention archives fewer than 512 other tasks before |
| BrainRecords.IngestedRecordsAre | core/crates/engine/src/lib.rs:3220-3346 | The sender is a person the owner knows, the message a fact about them; exactly the ids mentioned are added; each is linked to the sender; no link is lost |
| BrainRecords.TaskLinks | core/crates/engine/src/lib.rs:3329-3346 | The task is assigned to the owner and about the sender |
| BrainRecords.IngestedLogIs | core/crates/engine/src/lib.rs:3347-3353 | One log row, under the message's reference, with its fingerprint |
| BrainManager.Manager.IngestMentions | core/crates/engine/src/lib.rs:3220-3314 | Everything before the task, with the ids mentioned in order |
| BrainManager.Manager.IngestRows | core/crates/engine/src/lib.rs:3220-3346 | All rows of a message and their ids, that of its task last |
| BrainManager.Manager.IngestAssistantReply | core/crates/engine/src/lib.rs:3435-3478 | If the brain and the setting are on, a commitment in a reply becomes or updates a task in progress, assigned to the owner, and is logged |
| BrainRequests.RepliedTaskIs | core/crates/engine/src/lib.rs:3435-3478 | A commitment found is then the newest task, in progress, linked and assigned to the owner, due as the reply says; a reply without one changes nothing |
| BrainManager.Manager.FindRelatedToolTask | core/crates/engine/src/lib.rs:4163-4171 | The loop finds the first unarchived task that is open, in progress or blocked and names the tool or resembles its result, and none if and only if there is none |
| BrainManager.Manager.IngestToolResult | core/crates/engine/src/lib.rs:3356-3433 | If the brain and the setting are on and the tool succeeded: facts about it, the first related task done, and a log row |
| BrainRequests.ClosedTaskIs | core/crates/engine/src/lib.rs:3356-3433 | Exactly the task the result is about is then done and otherwise as it was; without one the tasks stay as they are |
| BrainRequests.ToolFactsAre | core/crates/engine/src/lib.rs:3356-3433 | The tool is then the newest entity, and that it succeeded the newest fact about the workspace |
| BrainRequests.ToolIgnoredExactlyWhen | core/crates/engine/src/lib.rs:3356-3359 | A result changes nothing if and only if it failed, or brain or setting are off |
| BrainManager.Manager.LinkRecord | core/crates/engine/src/lib.rs:3927-3950 | One relation per linked id |
| BrainManager.Manager.Remember | core/crates/engine/src/lib.rs:2674-2785 | Retention, then a task or an entity with its fact and links, logged; a rejected request leaves only the retention, and a brain switched off does nothing; the id of the record is returned |
| BrainManager.Manager.RememberTask | core/crates/engine/src/lib.rs:2697-2716 | The task of the request merged or written under the id returned |
| BrainRequests.RememberedTaskIs | core/crates/engine/src/lib.rs:2674-2729 | The task is then the newest, open, at least 0.45 salient, with the text, priority, due time, scope, links and reference of the request |
| BrainRequests.RememberedEntityIs | core/crates/engine/src/lib.rs:2731-2785 | The record is then the newest entity, with a fact about it and a link to each id named |
| BrainRequests.RefusedRequestIs | core/crates/engine/src/lib.rs:2731-2734 | A request of any other kind or subtype leaves only what retention does |
| BrainRequests.SwitchedOffIs | core/crates/engine/src/lib.rs:2671-3440 | A call that the settings do not let through changes nothing; memory entries of others and time come in all the same |
| BrainManager.Manager.UpdateTaskRecord | core/crates/engine/src/lib.rs:3042-3103 | Accepted if and only if the brain is on and the status is one of the five; otherwise nothing changes |
| BrainRequests.UpdatedTaskIs | core/crates/engine/src/lib.rs:3042-3103 | The task is then the newest of its id, with the fields of the request over those stored, and linked; with an unknown status nothing changes |
| BrainRequests.TitleIs | core/crates/engine/src/lib.rs:4313-4324 | A title is the first text that is not blank, without white space around it, cut to 80 characters |
| BrainManager.Manager.Forget | core/crates/engine/src/lib.rs:3105-3205 | Archives or deletes if and only if the brain is on, the mode is empty, archive or delete and the kind one of the eight; otherwise nothing changes |
| BrainTables.ForgetMeans | core/crates/engine/src/lib.rs:3105-3199 | Which table and rows each kind and mode touches, with the facts and relations of an entity and the relations of a deleted task; any other kind or mode changes nothing |
| BrainManager.Manager.ForgetArchive | core/crates/engine/src/lib.rs:3117-3149 | Exactly the named row, and with an entity its facts and relations, are archived, their bodies kept; no row is lost and nothing else changes |
| BrainManager.Manager.ApplyRetention | core/crates/engine/src/lib.rs:3646-3666 | Exactly the unarchived entities and facts under 0.35 salience and finished tasks under 0.5, written longer ago than the configured days, are archived, bodies kept; no row is lost, and relations, index and log stay |
| BrainManager.Manager.DeleteProjections | core/crates/engine/src/lib.rs:3190-3198 | The id finds nothing in the four namespaces and every other key finds what it found |
| BrainManager.Manager.ForgetDelete | core/crates/engine/src/lib.rs:3150-3199 | Exactly the rows of the deletion are gone, and the entries of the id; an index that was complete stays so if and only if no surviving row carries the id |
| BrainManager.Manager.Recall | core/crates/engine/src/lib.rs:2787-2905 | Retention, then exactly the joined result the recall lemmas are about, with its summary; nothing when the brain is off |
| BrainManager.Manager.Suggest | core/crates/engine/src/lib.rs:2907-3002 | Returns the best open tasks in scope after retention, and indexes each; nothing when the brain is off |
| BrainManager.Manager.IndexSuggestions | core/crates/engine/src/lib.rs:2985-2996 | One index entry per suggestion, in order |
| BrainManager.RankTasks | core/crates/engine/src/lib.rs:2907-2983 | The loop builds the ranked list of the open tasks in scope |
| SessionLaws.SessionConservation | core/crates/engine/src/lib.rs:2166-2415 | Over all runs each count is its number of message rows, no row lacks its session, keys are unique, and archived status implies the flag |
| SessionLaws.ResolveKeeps | core/crates/engine/src/lib.rs:2222-2292 | A resolved session is in the table under the key asked for and an insert never collides |
| SessionLaws.LatestOpenIs | core/crates/engine/src/lib.rs:2195-2206 | The outbound session is the unarchived one of the channel updated last, and none exactly when there is none |
| SessionCalls.InboundSessionIs | core/crates/engine/src/lib.rs:2166-2292 | A group message belongs to the channel's session and any other to its sender's; a new session has the type, marks and mention setting spelled out |
| SessionCalls.InboundRecords | core/crates/engine/src/lib.rs:216-371 | Every message is recorded once, first, as its sender's; a reply after it as ours; and the audit gains exactly the event of the outcome |
| SessionCalls.InboundMarks | core/crates/engine/src/lib.rs:832-882 | The pending mark of the message's session follows the gate's decision if the session is gated, and no other mark changes |
| SessionCalls.OutboundRecords | core/crates/engine/src/lib.rs:530-561 | An outbound message is recorded in the session named, the newest open one of the channel, or the direct one; an unknown id changes nothing |
| FlagLaws.CallBreaksFlagExactlyWhen | core/crates/engine/src/lib.rs:2307-2344 | A whole call (message, reply, pairing, prune) parts flag and status if and only if it writes to a stored session that is archived |
| FlagLaws.FlagsAgreeExactlyWhen | core/crates/engine/src/lib.rs:2307-2415 | Flag and status agree throughout a run if and only if no call of it writes to an archived session |
| FlagLaws.ActiveYetFlagged | core/crates/engine/src/lib.rs:2334-2341 | Message, archiving prune, message: active and still flagged |
| PairingLaws.PairingGate | core/crates/engine/src/lib.rs:832-882 | In every run a gated message from an unlisted sender reaches the model if and only if the last audited update of its pairing was an approval |
| PairingVerdicts.DeliveredExactlyWhen | core/crates/engine/src/lib.rs:216-371 | In every run, from the calls alone: a message waits for a pairing if and only if its session asks for one, its sender is not listed and the last update_pairing that named its pairing, if any, was not "approve" or "approved"; otherwise it is dropped if and only if it is an unaddressed group message; otherwise it is answered, or degrades |
| PairingVerdicts.ApprovedByVerdict | core/crates/engine/src/lib.rs:2501-2532 | A target is approved if and only if the last update naming its pairing was "approve" or "approved" |
| PairingLaws.GateDecides | core/crates/engine/src/lib.rs:216-371 | When a pairing is asked for, under which id, and when the model is reached |
| PairingLaws.ApprovalLasts | core/crates/engine/src/lib.rs:2443-2481 | No message, reply or prune undoes an approval |
| PairingLaws.PairingIdNeverChanges | core/crates/engine/src/lib.rs:2464-2480 | The pairing id of a target never changes |
| PairingLaws.DirectMessageGatedExactlyWhen | core/crates/engine/src/lib.rs:837-850 | A direct message is subject to the gate if and only if its stored session, if any, is direct |
| PairingLaws.GateFollowsStoredSession | core/crates/engine/src/lib.rs:837-850 | A direct message handled as a group message |
| SessionStore.StateStore.ResolveInternal | core/crates/engine/src/lib.rs:2222-2292 | The stored session of the key, or a new active one; it is in the table under that key, and no message is touched |
| SessionStore.StateStore.ResolveForInbound | core/crates/engine/src/lib.rs:2166-2186 | Groups are keyed by channel, direct sessions by sender |
| SessionStore.StateStore.ResolveForOutbound | core/crates/engine/src/lib.rs:2188-2220 | The latest open session of the channel, or a direct one |
| SessionStore.StateStore.RecordSessionMessage | core/crates/engine/src/lib.rs:2307-2344 | One message more for this session and none for any other; the session is active, no flag and no other status changes; counts stay true |
| SessionStore.StateStore.PruneSessions | core/crates/engine/src/lib.rs:2394-2415 | Archiving marks exactly the sessions not updated for the given hours, at least one, and keeps every message; deleting leaves exactly the others with exactly their messages |
| SessionStore.StateStore.EnsurePairing | core/crates/engine/src/lib.rs:2443-2481 | The target has a pending pairing of this session, under the id it had if it had one; every other target's pairing is as it was |
| SessionStore.StateStore.UpdatePairing | core/crates/engine/src/lib.rs:2501-2532 | The status is approved for "approve" and "approved", revoked for "revoke" and "revoked", and otherwise the action itself; it is the audit's last word on the id; an unknown id changes nothing |
| SessionStore.StateStore.SetSessionPendingPairing | core/crates/engine/src/lib.rs:2544-2551 | The session shows the mark and is otherwise as it was, and so is every other session |
| SessionStore.StateStore.EnsurePairingIfRequired | core/crates/engine/src/lib.rs:832-882 | A pairing is asked for if and only if the session is gated, the sender not listed and the target not approved |
| SessionStore.StateStore.HandleMessage | core/crates/engine/src/lib.rs:216-371 | The whole new store and the delivery state; counts, keys and approvals stay truthful |
| SessionStore.StateStore.Deliver | core/crates/engine/src/lib.rs:233-371 | What follows once the session is known |
| SessionStore.StateStore.RecordOutboundMessage | core/crates/engine/src/lib.rs:530-561 | One more message row at the end; an unknown session id changes nothing |
| Providers.RouteMeans | core/crates/engine/src/providers/mod.rs:102-124 | Routing returns the first registered, enabled, succeeding provider, or all errors, or that there is none |
| Providers.SpeculationPreserves | core/crates/engine/src/lib.rs:4802-4835 | With one outcome per provider, drafting returns the same provider and response or the same failure |
| Providers.SpeculationChangesExactlyWhen | core/crates/engine/src/lib.rs:4802-4835 | Drafting changes the answer if and only if the route fails and its drafter, asked separately, succeeds |
| Providers.EnabledIs | core/crates/engine/src/providers/mod.rs:77-84 | Enabled names are exactly the usable ones; if there are none, routing over the same names says so |
| Providers.EnabledInOrder | core/crates/engine/src/providers/mod.rs:77-84 | They are the names at rising positions of the configured order, and no position of a usable name is left out |
| Providers.ProviderRegistry.EnabledNames | core/crates/engine/src/providers/mod.rs:77-84 | Exactly the configured names whose provider exists and is enabled |
| Providers.ProviderRegistry.FromConfig | core/crates/engine/src/providers/mod.rs:31-75 | Exactly the configurations of a known kind get a provider; all are kept |
| Providers.ProviderRegistry.GenerateWithProvider | core/crates/engine/src/providers/mod.rs:90-100 | Unknown and disabled providers fail, others answer |
| Providers.ProviderRegistry.GenerateWithRouting | core/crates/engine/src/providers/mod.rs:102-124 | The loop with its error list does what routing means |
| Providers.ProviderRegistry.Live | core/crates/engine/src/lib.rs:4802-4835 | Draft and route joined as specified, with the tier |
| PrefixText.CutExactlyWhen | core/crates/engine/src/lib.rs:4780 | A prompt has a stored prefix if and only if it has at most 128 bytes or a character boundary at byte 128 |
| PrefixText.SliceIs | core/crates/engine/src/lib.rs:4780 | A byte slice is the leading characters of that many bytes, if there are any |
| PrefixText.WidthIsLeast | core/crates/engine/src/lib.rs:4780 | A character takes the fewest bytes of UTF-8 that can hold it |
| PrefixText.PrefixMatchesItsPrompts | core/crates/engine/src/lib.rs:1983-1994 | Whatever wildcards it holds, a stored prefix matches every prompt it begins |
| PrefixText.LiteralMatches | core/crates/engine/src/lib.rs:1983-1994 | A prefix without wildcards matches exactly the prompts that begin with it up to ASCII case |
| PrefixText.LikePercent | core/crates/engine/src/lib.rs:1983-1994 | A percent sign stands for any text |
| OrchestratorLaws.PrefixGetIs | core/crates/engine/src/lib.rs:1983-1994 | The longest matching prefix answers, and none exactly when none matches |
| AnswerLaws.AnswerIs | core/crates/engine/src/lib.rs:4709-4800 | The tiers in order: exact, the longest matching prefix, semantic, live; a cached answer changes nothing, a live one is stored, and panics if and only if prefixes are on and a character lies across byte 128 |
| AnswerLaws.LiveAnswerIs | core/crates/engine/src/lib.rs:4802-4835 | A live answer is that of the first available provider that answers, in the order of the caller, or of the configuration, backwards for work in the background; failing all, the drafter's, if drafting is on and it answered |
| AnswerLaws.RefusalIs | core/crates/engine/src/providers/mod.rs:102-124 | A failure says that no provider is enabled, or lists, in order, each available name that failed with what it said |
| OrchestratorLaws.LiveAddsOneRowEach | core/crates/engine/src/lib.rs:4709-4800 | Only a live answer writes, and then each table gains one new row and loses none |
| OrchestratorLaws.TableSizes | core/crates/engine/src/lib.rs:4774-4782 | The prefix table has one row per live answer and the exact table one more per panic |
| OrchestratorLaws.SizesAgreeExactlyWhen | core/crates/engine/src/lib.rs:4774-4782 | Both sizes equal the live answers if and only if no call that missed every tier and was answered by a provider has a character of its prompt across byte 128 |
| OrchestratorLaws.PanicsExactlyWhen | core/crates/engine/src/lib.rs:4780 | A call panics if and only if the tiers miss, a provider answers, prefixes are on and a character of the prompt lies across byte 128 |
| OrchestratorLaws.StraddlingPromptPanics | core/crates/engine/src/lib.rs:4774-4782 | A prompt that panics once and is then answered from the exact tier |
| OrchestratorLaws.LiveAnswersAreSticky | core/crates/engine/src/lib.rs:4709-4800 | Once a prompt is answered live, every later call for it returns that provider and response |
| StickyLaws.EveryAnswerIsSticky | core/crates/engine/src/lib.rs:4709-4800 | Without wildcards in what is stored, every answer but a semantic one is final |
| StickyLaws.WildcardStealsAnswer | core/crates/engine/src/lib.rs:1983-1994 | A run in which a prefix answer changes |
| StickyLaws.AnswerChangesExactlyWhen | core/crates/engine/src/lib.rs:4709-4800 | For a prompt answered by a prefix row, a call changes that row if and only if the tiers miss it, a provider answers and the prefix stored matches the prompt and is longer; and changes the answer if and only if the new one differs besides |
| StickyLaws.AnswersDifferExactlyWhen | core/crates/engine/src/lib.rs:4709-4800 | In every run two calls for one prompt answer differently if and only if the first came from a prefix and the longest matching row stored in between is longer and answers differently |
| StickyLaws.PrefixesGrow | core/crates/engine/src/lib.rs:4774-4782 | In every run the prefix table only grows, at its end, by what the live calls store |
| OrchestratorStore.Orchestrator.CachePrefixPut | core/crates/engine/src/lib.rs:1996-2004 | The prefix has exactly one row, with this answer; every other row stays; and every prompt beginning with it is answered by a row at least as long |
| OrchestratorLaws.PutIs | core/crates/engine/src/lib.rs:1996-2004 | The same of every table of distinct prefixes, with the size |
| OrchestratorLaws.PutServes | core/crates/engine/src/lib.rs:1983-2004 | What is put is served, unless a longer prefix matches |
| OrchestratorStore.Orchestrator.CacheExactPut | core/crates/engine/src/lib.rs:1973-1981 | Inserts or overwrites one row |
| OrchestratorStore.Orchestrator.GenerateWithRoute | core/crates/engine/src/lib.rs:4709-4800 | The tiers in order, the live route, the puts, and the reply |
| EventHubLaws.HistoryIsTail | gateway/internal/server/events.go:40-44 | History is always the last min(128, n) of the n published events |
| EventHubLaws.ChannelIsOrderedSubsequence | gateway/internal/server/events.go:45-62 | Each event after a subscription is received, waiting or lost, once; what the channel carries is in order |
| EventHubLaws.LostExactlyWhenFull | gateway/internal/server/events.go:45-50 | An event is lost if and only if it is published while the 32-slot queue is full |
| EventHubLaws.NoGapExactlyWhen | gateway/internal/server/server.go:825-845 | A stream sends the snapshot and then what it receives, without a gap if and only if nothing after the snapshot was lost |
| EventHubLaws.DoubledExactlyBetween | gateway/internal/server/server.go:825-845 | If nothing was lost, exactly the events published between Subscribe and History are delivered twice, all others from the snapshot on once |
| EventHubStore.Channel.Offer | gateway/internal/server/events.go:46-49 | With a free slot the event goes last; with all 32 taken it is dropped and the queue is as it was |
| EventHubStore.Channel.Receive | gateway/internal/server/server.go:839 | The oldest event is taken |
| EventHubStore.EventHub.constructor | gateway/internal/server/events.go:24-29 | An empty hub |
| EventHubStore.EventHub.OfferAll | gateway/internal/server/events.go:45-50 | The loop offers the event to every subscriber, once |
| EventHubStore.EventHub.Publish | gateway/internal/server/events.go:31-52 | History trimmed to 128 and the event offered to every channel |
| EventHubStore.EventHub.Subscribe | gateway/internal/server/events.go:54-62 | A fresh, empty channel under a new id |
| EventHubStore.EventHub.Unsubscribe | gateway/internal/server/events.go:64-71 | The subscriber is gone and its channel closed; an unknown id changes nothing |
| EventHubStore.EventHub.History | gateway/internal/server/events.go:73-79 | A copy of the history |
| EventHubStore.SendHistory | gateway/internal/server/server.go:825-833 | Subscribes, then sends the whole snapshot in order |
| EventHubStore.Follow | gateway/internal/server/server.go:835-844 | Sends what the channel holds, in order, until it would wait |
| Handoff.TypesAndTermination | docs/formal/handoff_v1.tla:26-35 | Two of the three stated theorems, for every behaviour and every choice of roles |
| Handoff.NoSelfLoopExactlyWhen | docs/formal/handoff_v1.tla:30-40 | The third holds if and only if neither hop joins a role to itself |
| Handoff.AcceptedExactlyWhen | core/crates/engine/src/lib.rs:5113-5170 | Nothing is found if and only if the request follows the four rules of the validator |
| Handoff.FoundExactlyWhen | core/crates/engine/src/lib.rs:5113-5170 | Each finding, word for word, is made if and only if its rule is broken |
| Handoff.ValidateProtocol | core/crates/engine/src/lib.rs:5113-5170 | Verdict, findings in order, and one transcript entry per message |
| Handoff.ReportAcceptedExactlyWhen | core/crates/engine/src/lib.rs:5113-5170 | A behaviour's report with encrypted bodies is accepted if and only if it is complete and no role meets itself; an incomplete one is always rejected |
| Handoff.AcceptedIsHandoffExactlyWhen | core/crates/engine/src/lib.rs:5113-5170 | An accepted handoff is a run of the machine if and only if it has two messages and the second is sent by the recipient of the first |
| Handoff.UnrelatedHopsAccepted | core/crates/engine/src/lib.rs:5160-5162 | Two hops that do not meet are accepted |

## Left out

- Files, SQL, JSON text, timestamps as strings, encryption and tokio: storage calls succeed, tools do not
  panic, and encrypting and decrypting is a round trip inside one process.
- SessionStore.StateStore.HandleMessage: leaves out the raw message log, titles, previews, reply modes and the
  feeding of the brain; the session model keeps the fields its properties speak of.
- SessionStore.StateStore.EnsurePairing: the source reads its row back while it still holds the lock it needs for
  that (core/crates/engine/src/lib.rs:2463, 2480, 2489); the table transition it intends is modelled.
- BrainManager.Manager.Remember: returns the id of the record, which with its digest is found in the store and the log.
- `created_at` and the notes of pairings are not kept; relation rows are keyed by kind and endpoints, so
  collisions of their hashed ids are excluded.
- BrainIngest.IngestIdempotentOnIds: is about ids; the second ingestion rewrites contents and times.
- BrainRuns.IndexCoverage: is about rows having entries; for the other direction, which deletions do not keep, see
  `BrainDeletion.EntriesKeepRowsExactlyWhen`.
- WorkQueueLaws.QueueBound: asks that max_pending plus the active calls stay below 2^64.
- OrchestratorLaws.PrefixGetIs: among matching prefixes of equal length the model takes the first stored,
  where SQL leaves the choice open; `StickyLaws` rests on that choice where two prefixes are equally long.
- EventHubStore.Follow: stops where the source would wait for the next event; the endless loop, with others
  publishing meanwhile, is the machine in `EventHub`.
- OrchestratorStore.Orchestrator.GenerateWithRoute: leaves out the semantic tier's own write after a live answer.
  That tier answers whatever it is given to answer; it stores a payload rather than the prompt, and never writes
  the other two tables.
- Overlapping calls of the orchestrator: between a lookup and its put another call may answer the same prompt.
- The order of log lines and audit records across components, except the pairing events the gate theorem uses.
- `list_sessions`, `get_session_detail`, `list_pairings`, `list_task_records` and the context pack: filters
  over the tables modelled here.
- Provider HTTP, sandboxes, skills, the capability matrix, the scheduler, configuration, CLI, gRPC
  conversion, Telegram polling, the operator and the user interfaces.
- `TailLogs` in follow mode (gateway/internal/server/server.go:794-814), whose window does not line up with
  what was already sent.
