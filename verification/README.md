# OpenSwarm: a verified model of its hard cores

OpenSwarm runs a team of coding agents behind one ACP connection, records what they do, replays it, and evaluates
the results under a budget. This project models the parts of it where correctness is a matter of interleavings,
whole runs or arithmetic over every input, and proves what those parts promise.

Check everything with `dafny verify dfyconfig.toml` (Dafny 4.11).

## How the model is laid out

* **The team event pipeline.** `LaneEvents` is the vocabulary. `NormalizedTranslate` and `LaneTranslator` turn
  members' lane events into session updates: one pure function per event (`Handle`, `Run`), and a `Translator` object
  whose methods are proved to move exactly as that function says. `RichView` is the client: `Applied` and `Render` as
  functions, and a `RichRenderer` object whose tools are heap objects shared by a lane and an id index and edited in place.
  `RenderedRuns` puts the two together. On top stand `NonInterference`, `ToolCalls`, `BoardFreshness`, `ChangingRosters`,
  `MemberStatus`, `TextPolicy`, `SpokenText`, `InterleavedLanes`, `LaneNames`, `CallWire` and `MetaErasure`.
* **Recording and replay.** `StableSort`, `TeamHistory` (recorder, reader, roster, prose, replay), `ProseMerge`,
  `ProseTurns`, `Reloading`, `ToolHalf`, `Replay` (tools) and `ReplayedStatus` (the board).
* **The evaluation scheduler.** `Stage2Screen` is a dispatcher and its threads as a transition system; `Stage2Budget` is
  the admission check with a spend scan that is not atomic; `TacPool` is a pool of workers on one queue.
* **The token store.** `TokenStore` is the lock-file protocol for any number of processes that may fail, crash or reclaim.
* **The judge.** `JsonScan` and `JsonPrint` relate the brace scanner to a grammar and to a printer, `JsonFence` is the code fence
  around an answer; `MastJudge` is the
  fourteen-mode report and its histogram.
* **One connection.** `TeamTurns` (prompts, runs, parked questions), `TurnCancels` (a cancel that races a question) and
  `TeamSessions` (loads and new sessions).
* **The rest.** `ParityReady` (dependency readiness), `LaneTrajectory` with `TrajectoryLaws` and `TrajectoryStories`
  (reassembly of one trajectory),
  `Sums` with `Frontier`, `TauSweep`, `RouterFrontier` and `Ensemble` (cascade, router and coverage arithmetic over exact
  reals), and `Goals` (the goal state machine and its record).

Runs of state machines are sequences of states whose neighbours are related by a step; streams are sequences that are taken
apart from the end (`Init`, `Last`), because the code folds them from the front. Presentation of tools (title, kind,
locations, diffs, JSON parsing) is a record of arbitrary functions, so every theorem holds for all of them.

## Results that are not simply "yes"

Some promises hold only under a condition. The code is modelled as it is, and the exact condition is proved.

* Members are kept apart in collapse mode exactly when the roster is *separated*: distinct member ids, and no agent id that
  spells another one followed by a colon (`NonInterferenceIffSeparated`). Agent ids without a colon are enough. In interleave
  mode every member must also be a lead or the only member, because of the labels (`InterleavedIffUnlabelled`).
* The board is deduplicated by a key that holds roles and statuses, and not members. On one roster it is injective
  (`KeyInjective`, `BoardIsFresh`). A set of rosters is safe on every stream exactly when no two different boards of theirs, at one
  moment and the same or a later one, share a key (`KeysTellBoardsIff`). When no role contains `:` or `|`, the last board sent shows the
  current roles and statuses, and is current in full exactly when its links are (`FreshUpToLinks`), and rosters are safe
  exactly when those with the same roles in order have the same members (`AlwaysFreshIff`); replacing
  a worker by another one breaks it (`CollidingRosters`, `ChangingRosterGoesStale`).
* Replay gives the same tool notifications as live. A member's *status* survives exactly when the recorded events leave
  it working, or what spoke last about it live comes back: a recorded event that no prose follows, or dropped words that woven
  prose makes good, which can happen for the lead only (`StatusSurvivesIff`). A worker that goes idle and then speaks shows that
  the rendered boards can differ (`StatusCanDiffer`).
* A piece of prose follows the previous turn end exactly when the two turn ends are a whole time unit apart (`ProseInItsTurn`, and
  for the live stream's turn ends `PieceInLiveTurns`).
* A screened task's verdict is the two-seed rule's exactly when skipping seed 2 is safe; a non-negative reward is
  enough (`VerdictIsRule`, `NonNegativeIsSafe`). The screen freezes the first eight that the rule takes exactly when the skip is safe
  for those eight (`ScreenIsRuleIff`).
* The spend stays within the cap, for every cap, prior spend and run in which a cell is admitted, exactly when no cell costs
  more than its reserve (`CapAlwaysHoldsIff`); the general bound is reached (`BoundIsReached`).
* However its jobs interleave, a pool summarises every one exactly when there is none; or there is a worker, no job throws, and,
  failing fast with more jobs than workers, none but the last job is bad (`AlwaysCompleteIff`). With one worker and a bad job
  first, the second one stays queued (`FailFastLeavesJob`).
* Reclaiming a lock that is in use can lose an update exactly when two providers share the file (`ReclaimIsHarmlessIff`),
  and tokens written to a file that held a JSON array are not read back (`TokensReadBack`).
* The scanner gives back every object printed after a text exactly when the text has no brace (`RoundTripsIff`). An object in a
  fenced block comes back exactly when its own text, strings included, has no fence (`FencedObject`).
* At prices and costs that are not negative, the mean-based pre-check never promises a dominance that is not
  there exactly when success and cost have no negative covariance, and never misses one exactly when they have no positive one (`NeverMisleadsIff`, `NeverMissesIff`); it is right at
  every price exactly when they are uncorrelated (`ExactIffUncorrelated`).
* More attempts never lower an ensemble's coverage, whatever passes and fails, exactly when the later ones report no checkpoint
  that is new for its task, or the earlier ones report none (`NeverLowersIff`).
* Something is always ready exactly when the graph is acyclic and names no unknown package (`NeverStuckIff`).
* A connection can come to hold two sessions exactly when one is created while another one's load is under way (`TwoSessionsIff`).
* A cancelled run can end up stashed, where it swallows the next prompt, exactly when its prompt was still racing a question
  at the cancel (`CancelCanStrandIff`, `NextPromptIsSwallowed`).
* A saved goal behaves the same exactly when its cost budget is moot (`SurvivesIff`).

Where the code and its comments disagree the code is followed:

* `legacy/src/acp/spine.ts:9-12` says that `worker_lifecycle_changed` is dropped from the spine; `legacy/src/swarm/wire-protocol.ts:201-213`
  records it, and so does the model.
* `legacy/src/acp/team-history.ts:15-17` says that replay lacks tool arguments; `legacy/src/acp/spine.ts:36-38` keeps the fragments, and
  replay rebuilds them, as `ReplayRefinesLive` says.
* The comment on text buffers in `legacy/eval/harness/swarm-coordinator-adapter.ts:199` mentions a flush when the text's owner
  changes; the code has none, and `AgentSays` says where the cuts are.

## Model

| member | source | states |
|---|---|---|
| NormalizedTranslate.EmitNormalizedEvent | legacy/src/acp/normalized-translate.ts:68-163 | one engine event moves the open calls and sends updates exactly as `OpenAfter` and `Updates` say, for any prefixes, suppression and meta |
| NormalizedTranslate.ToolInputAccumulator.Append | legacy/src/core/tool-input.ts:56-63 | a fragment extends its call's text, and opens a nameless call when there was no start |
| LaneTranslator.Translator.ApplyStatus | legacy/src/acp/lane-translator.ts:161-166 | sets one member's status and reports whether it changed |
| LaneTranslator.Translator.EmitPlan | legacy/src/acp/lane-translator.ts:168-185 | sends the roster's projection unless its key equals the last one sent |
| LaneTranslator.Translator.OnLaneEvent | legacy/src/acp/lane-translator.ts:187-256 | the mutable translator refines the pure step function on every event, state and output |
| RichView.RichRenderer.MutateTool | legacy/src/acp/rich-view.ts:158-165 | editing the shared tool object through the id index changes that one tool in the lane that lists it, and nothing else |
| RichView.RichRenderer.Apply | legacy/src/acp/rich-view.ts:118-202 | the renderer with aliased, mutable tools shows exactly the pure fold of the updates |
| RichView.DiffsFromUpdate | legacy/src/acp/rich-view.ts:86-105 | the k-th diff is that of the k-th content entry that names a file, with its path, its old text as given, and its new text or an empty one; there are no others, and nothing is given when no entry names a file |
| RichView.RichTool.Update | legacy/src/acp/rich-view.ts:160-165 | only the fields that an update carries are overwritten; an update without diffs keeps the old ones |
| NonInterference.MemberLaneIsItsOwn | legacy/src/acp/lane-translator.ts:187-256 | after any interleaving, a member's rendered lane is the one that its own events alone give (collapse mode, or a lead in either mode) |
| NonInterference.NonInterferenceIffSeparated | legacy/src/acp/lane-translator.ts:225-237 | in collapse mode a roster keeps all its members apart, on all streams, if and only if it is separated |
| NonInterference.NoColonSeparates | legacy/src/acp/lane-translator.ts:228-228 | distinct member ids and agent ids without a colon make a roster separated |
| NonInterference.SharedLaneInterferes | legacy/src/acp/rich-view.ts:211-222 | two agents with one member id do interfere |
| NonInterference.PrefixInterferes | legacy/src/acp/lane-translator.ts:228-228 | an agent id that spells another one and a colon lets one member complete the other's tool |
| ToolCalls.CallShownAlone | legacy/src/acp/normalized-translate.ts:92-150 | in either mode, a call is buffered and shown as its own events alone say, whatever else the stream carries |
| ToolCalls.FinishedCall | legacy/src/acp/normalized-translate.ts:110-150 | a finished call shows the role, the title of its whole input, its outcome, and for the edit tools the old and new texts that the input gives; the text result wipes no diff |
| CallWire.CallSentAlone | legacy/src/acp/normalized-translate.ts:92-150 | the notifications about a call are those that its own events alone send, in either mode |
| CallWire.FinishedCallSent | legacy/src/acp/normalized-translate.ts:92-150 | about a finished call exactly three notifications are sent, every field given by its events: pending, its whole input with locations and diffs, and its outcome with the text of the result |
| BoardFreshness.KeyInjective | legacy/src/acp/lane-translator.ts:181-181 | the joined key determines every status for fixed roles, even roles that contain the separators |
| BoardFreshness.EqualKeysEqualPlans | legacy/src/acp/lane-translator.ts:171-182 | on one roster, equal keys mean equal plans, so deduplication drops nothing new |
| BoardFreshness.StatusIsLastSignal | legacy/src/acp/lane-translator.ts:243-254 | after any run a member's status is its latest signal |
| BoardFreshness.BoardIsFresh | legacy/src/acp/lane-translator.ts:168-185 | on a fixed non-empty roster no plan repeats its predecessor, and after every event the last plan sent is the current projection, from the first trigger on |
| BoardFreshness.RenderedBoard | legacy/src/acp/rich-view.ts:179-197 | the rendered board is the last plan sent |
| BoardFreshness.ClientBoard | legacy/src/acp/lane-translator.ts:171-180 | end to end, each board entry shows its member's role, id and latest signal |
| MemberStatus.EntryByName | legacy/src/acp/lane-translator.ts:76-134 | after any run that called for the board, an entry reads completed exactly when the last event about the member is its own idle, drain or crash, an exit that names it, or a change to one of four final states, or there was none and the roster has it idle, finished or failed; in_progress and pending likewise |
| MemberStatus.NoBoardBefore | legacy/src/acp/lane-translator.ts:38-51 | without any of the events that call for the board there is none |
| ChangingRosters.KeyIsShow | legacy/src/acp/lane-translator.ts:181-181 | when no role contains a separator, keys are equal if and only if the roles and statuses are, in order |
| ChangingRosters.LastPlanHasKey | legacy/src/acp/lane-translator.ts:168-185 | on any sequence of rosters no plan repeats its predecessor, and after every look at the board the last plan sent has the current key |
| ChangingRosters.FreshUpToLinks | legacy/src/acp/lane-translator.ts:168-185 | with separator-free roles that last plan shows the current roles and statuses, and is the current board in full if and only if it links to the current members |
| ChangingRosters.KeysTellBoardsIff | legacy/src/acp/lane-translator.ts:168-185 | rosters with any roles keep the board current on every stream over them if and only if no two different boards of theirs, under statuses of one moment and the same or a later one, share a key |
| ChangingRosters.AlwaysFreshIff | legacy/src/acp/lane-translator.ts:168-185 | with separator-free roles that holds if and only if equal roles in order mean equal members in order |
| ChangingRosters.CollidingRosters | legacy/src/acp/lane-translator.ts:181-181 | two rosters with plain roles, one worker replaced by another, have different boards with one key |
| ChangingRosters.ChangingRosterGoesStale | legacy/src/acp/lane-translator.ts:181-182 | so there are rosters with plain roles over which the board does not stay current |
| TextPolicy.TextFollowsScript | legacy/src/acp/lane-translator.ts:203-241 | with a full roster the chunks sent are exactly the policy's script, texts, labels and attribution included |
| TextPolicy.CollapseIsLeadDeltas | legacy/src/acp/lane-translator.ts:232-232 | collapse: the script is the leads' deltas, in order |
| TextPolicy.InterleaveKeepsEveryDelta | legacy/src/acp/lane-translator.ts:206-232 | interleave: without labels the script is everyone's deltas in wire order |
| TextPolicy.LabelsMarkRuns | legacy/src/acp/lane-translator.ts:206-223 | interleave: each label stands before its own member's words, and exactly at the start of a non-lead run |
| TextPolicy.SpeakerIsLastCut | legacy/src/acp/lane-translator.ts:223-241 | a run is open exactly when its speaker's last delta is the last delta or message stop in the stream |
| TextPolicy.LaneText | legacy/src/acp/rich-view.ts:122-124 | a rendered lane's text is the text of its chunks in stream order |
| SpokenText.TextIsUttered | legacy/src/acp/lane-translator.ts:187-241 | under any rosters, known or not, the text sent is each delta of who leads, or in interleave mode of anyone, attributed as the roster of the moment says, with the label at the start of a run of a known non-lead |
| SpokenText.FirstVoiceNarrates | legacy/src/acp/lane-translator.ts:189-195 | before there is a roster, in collapse mode exactly the agent heard first narrates, unattributed |
| LaneNames.LanesAreNamed | legacy/src/acp/rich-view.ts:211-222 | every lane shown is a member's: under its id, named by its role |
| LaneNames.LanesKeepTheirPlace | legacy/src/acp/rich-view.ts:204-218 | each lane is listed once, and stays behind the lanes that were there before it |
| LaneNames.BoardByField | legacy/src/acp/rich-view.ts:179-197 | a board entry is its plan entry field by field, with an empty text, pending, or no link for what is missing |
| LaneNames.ToolByField | legacy/src/acp/rich-view.ts:126-175 | a tool shown for the first time is its update field by field, pending for a call and in_progress for an update that leaves its status out |
| TextPolicy.InterleaveInterferes | legacy/src/acp/lane-translator.ts:206-222 | in interleave mode any other member can change a non-lead's lane |
| InterleavedLanes.LoneSpeaker | legacy/src/acp/lane-translator.ts:203-241 | when only one member speaks, dropping the events that are not about it changes no lane, in either mode |
| InterleavedLanes.InterleavedIffUnlabelled | legacy/src/acp/lane-translator.ts:203-241 | in interleave mode a roster keeps all its members apart, on all streams, if and only if it is separated and every member is a lead or the only one |
| MetaErasure.ErasureKeepsContent | legacy/src/acp/rich-view.ts:107-223 | without `_meta` there is at most one lane; it has all the text in stream order and every tool of the rich view once, in creation order, with the same fields; the board loses only its links |
| StableSort.SortOrdered | legacy/src/acp/spine.ts:101-104 | the sort orders by timestamp, then position, and keeps the same items |
| StableSort.OrderedIsUnique | legacy/src/acp/team-history.ts:99-102 | any arrangement of the same items that is so ordered is this one, so every correct sort gives it |
| StableSort.SortKeep | legacy/src/acp/team-history.ts:99-102 | sorting commutes with dropping items |
| TeamHistory.SpineRecorder.Notify | legacy/src/acp/spine.ts:149-154 | while recording, every event but a text delta or a heartbeat joins file and queue, at the end |
| TeamHistory.SpineRecorder.Stop | legacy/src/acp/spine.ts:158-165 | after stop the file holds every event that was notified, other than text deltas and heartbeats, in order |
| TeamHistory.ReadSpine | legacy/src/acp/spine.ts:73-105 | reads the event lines, skipping the others, in timestamp order; throws exactly when a line holds just `null` |
| TeamHistory.RosterFromSpine | legacy/src/acp/team-history.ts:31-51 | the loop builds the roster that the spawns make |
| TeamHistory.RosterIsSpawned | legacy/src/acp/team-history.ts:35-40 | an agent is on that roster exactly when the spine spawns it |
| TeamHistory.FirstSpawnWins | legacy/src/acp/team-history.ts:39-43 | with the role of its first spawn |
| TeamHistory.ListedAsSpawned | legacy/src/acp/team-history.ts:31-51 | the roster lists its members in the order in which they were first spawned |
| TeamHistory.FindLeadAgentId | legacy/src/acp/team-history.ts:54-61 | the first member whose role is lead, and none only when there is none |
| TeamHistory.ReplayTeamSpine | legacy/src/acp/team-history.ts:109-123 | sends what a fresh translator sends for the events under the spine's own roster |
| ProseMerge.MergeIsSortedPermutation | legacy/src/acp/team-history.ts:99-102 | the merge is in timestamp order and is a permutation of spine and prose |
| ProseMerge.BothOrdersKept | legacy/src/acp/team-history.ts:76-103 | neither the spine's order nor the prose's changes |
| ProseMerge.ProsePlace | legacy/src/acp/team-history.ts:87-97 | a piece of prose follows exactly the spine events that lie a time unit or more before its anchor |
| ProseMerge.ProseInItsTurn | legacy/src/acp/team-history.ts:82-97 | piece i precedes turn end i, and follows turn end i-1 exactly when they are a time unit apart; extra prose precedes the last turn end |
| ProseTurns.PieceInLiveTurns | legacy/src/acp/team-history.ts:76-103 | after a load the i-th piece is the i-th text of the stream and stands before the live stream's i-th turn end of the lead; after the one before exactly when they are a time unit apart; extra pieces before the last, and without turn ends before everything else |
| Reloading.MergeKeeps | legacy/src/acp/team-history.ts:76-103 | weaving prose in neither moves nor loses events of any other kind |
| Reloading.ReloadedRoster | legacy/src/acp/team-history.ts:31-51 | the replay's roster is the one that the live spawns make |
| ToolHalf.RunTools | legacy/src/acp/normalized-translate.ts:92-150 | tool notifications depend on tool events and roles alone, in either text mode |
| Replay.ReplayRefinesLive | legacy/src/acp/team-history.ts:76-123 | a stream recorded, read back, merged with prose and replayed gives the same tool notifications as live, up to `_meta`, for the same roles |
| Replay.ReplayShowsTheSameTools | legacy/src/acp/rich-view.ts:118-177 | after a load the client shows every tool call as it stood |
| ReplayedStatus.LatestOfMerge | legacy/src/acp/team-history.ts:76-103 | the merge's last word about a member is the spine's, except for a lead whose last prose falls after all the spine's: then it is at work |
| ReplayedStatus.StatusSurvivesIff | legacy/src/acp/spine.ts:36-38 | any member, lead included, has its live status after a load if and only if the recorded events leave it working, or its last signal was recorded exactly when no prose of its own comes last |
| ReplayedStatus.StatusCanDiffer | legacy/src/swarm/wire-protocol.ts:201-213 | a spawned worker that goes idle and then speaks: the rendered board shows it working when live, done after a load |
| Stage2Screen.FourRunEightQualify | eval/pilot/stage2.py:232-247 | over every interleaving at most four tasks run and at most eight qualify, the running ones counted in |
| Stage2Screen.FourDoRun | eval/pilot/stage2.py:232-247 | with four candidates some run has four at once |
| Stage2Screen.VerdictsByReward | eval/pilot/stage2.py:192-224 | over every interleaving each verdict that the budget did not cause is what the reference check and the two rewards say |
| Stage2Screen.SeedTwoOnlyIfNeeded | eval/pilot/stage2.py:203-208 | seed 2 runs only after a passing reference and a first reward of at most 0.90, or none |
| Stage2Screen.PassedOverIffDecided | eval/pilot/stage2.py:232-235 | a candidate is passed over exactly when it qualified, was too easy, or its reference failed |
| Stage2Screen.ScreenIsDetermined | eval/pilot/stage2.py:165-253 | a run that is not cut and in which every started task got a final verdict freezes the first eight candidates, in order, that the verdicts take, whatever the interleaving |
| Stage2Screen.ScreenIsRuleIff | eval/pilot/stage2.py:165-253 | those are the first eight that the two-seed rule takes if and only if skipping seed 2 is safe for each of these |
| Stage2Screen.ScreenIsSequential | eval/pilot/stage2.py:165-253 | so they are when the skip is safe for every candidate |
| Stage2Budget.Spend | eval/pilot/stage2.py:65-66 | the loop adds up the recorded cells |
| Stage2Budget.Budget.Admit | eval/pilot/stage2.py:74-79 | admits exactly when spend and the reserves, with the new one, fit the cap |
| Stage2Budget.SpendIsBounded | eval/pilot/stage2.py:69-83 | with a scan that is not atomic, recorded spend passes the cap by at most what the admitted cells cost above their reserve |
| Stage2Budget.CapHolds | eval/pilot/stage2.py:74-79 | cells within their reserve keep the spend within the cap |
| Stage2Budget.BoundIsReached | eval/pilot/stage2.py:209-215 | one expensive cell spends its whole excess above the cap |
| Stage2Budget.CapAlwaysHoldsIff | eval/pilot/stage2.py:69-83 | the cap holds for every cap, prior spend and run that admits a cell if and only if no cell costs more than the reserve |
| TacPool.PartitionCachedJobs | legacy/eval/experiments/tac-pool.ts:239-264 | the loop splits the plan, in order, into the jobs without a result and the results of the others |
| TacPool.PartitionKeepsAll | legacy/eval/experiments/tac-pool.ts:239-264 | every planned job is on one side, as often as it is planned |
| TacPool.JobsAreConserved | legacy/eval/experiments/tac-pool.ts:266-284 | over every interleaving of the workers, throws included, each job is queued, in hand or summarised as often as it was planned in all |
| TacPool.PlanIsConserved | legacy/eval/experiments/tac-pool.ts:239-284 | queued, in hand, summarised and cached jobs make up the whole plan at every moment |
| TacPool.EachJobOnce | legacy/eval/experiments/tac-pool.ts:239-284 | in a plan of distinct jobs each is in exactly one of these places, once |
| TacPool.AllSummarisedIff | legacy/eval/experiments/tac-pool.ts:274-284 | a pool that is done has summarised every job if and only if none is queued and no worker threw |
| TacPool.AlwaysCompleteIff | legacy/eval/experiments/tac-pool.ts:266-284 | every run of the pool to its end summarises every job if and only if there is no job, or there is a worker, no job throws, and, failing fast with more jobs than workers, none but the last job is bad |
| TacPool.FailFastLeavesJob | legacy/eval/experiments/tac-pool.ts:275-280 | one worker, failing fast, a bad job and another: the other one stays queued |
| TokenStore.LockedRuns | legacy/src/auth/openai-codex-token-store.ts:45-153 | without reclaims, over every interleaving, failure and crash: one process inside at most, and the file is the fold of the completed operations |
| TokenStore.FoldAt | legacy/src/auth/openai-codex-token-store.ts:134-153 | in the fold each entry is as its last operation left it, and untouched entries stay |
| TokenStore.TokensReadBack | legacy/src/auth/openai-codex-token-store.ts:92-142 | the last tokens written are read back if and only if the file did not hold an array |
| TokenStore.NeverTorn | legacy/src/auth/openai-codex-token-store.ts:108-132 | in all runs, reclaims included, a reader finds the original file or a whole map |
| TokenStore.CanComplete | legacy/src/auth/openai-codex-token-store.ts:45-153 | from any state of any run, a waiting operation can complete once the lock is free: the file is updated by it and the lock is free again |
| TokenStore.FailureLeavesFile | legacy/src/auth/openai-codex-token-store.ts:70-132 | wherever an operation fails inside the lock it can leave with file and finished operations unchanged and the lock free; its temporary file stays |
| TokenStore.ReclaimLosesUpdate | legacy/src/auth/openai-codex-token-store.ts:54-61 | reclaiming a lock in use loses another provider's update |
| TokenStore.ReclaimIsHarmlessIff | legacy/src/auth/openai-codex-token-store.ts:45-153 | no run with reclaims loses an operation if and only if all operations are on one provider |
| JsonFence.ExtractJsonObject | legacy/eval/mast/judge.ts:161-186 | gives the parse of what the scanner finds in the first fenced block's content, or in the whole answer without one; else which of the three errors it is |
| JsonFence.ParsedIff | legacy/eval/mast/judge.ts:161-186 | for any answer and parser a value is given if and only if it is the parser's for the balanced object at the first brace of that text |
| JsonFence.ErrorsSayWhy | legacy/eval/mast/judge.ts:161-186 | each error says what is wrong: no brace, no balanced object at the first one, or one that does not parse |
| JsonFence.BodyIsFirstReading | legacy/eval/mast/judge.ts:162-163 | for any answer the text scanned is the content of the pattern's first match in the order of a backtracking matcher (leftmost, tag and white space as long as they can be, content as short as it can be), or the whole answer when nothing matches |
| JsonFence.TagIsWord | legacy/eval/mast/judge.ts:162-162 | the tag of the pattern is the word json in any case |
| JsonFence.SpaceByCode | legacy/eval/mast/judge.ts:162-162 | its white space is that of ECMAScript, by code points |
| JsonFence.FencedObject | legacy/eval/mast/judge.ts:161-186 | an object printed in the first fenced block comes back if and only if its text holds no fence; else nothing is found |
| JsonFence.FencedAnswer | legacy/eval/mast/judge.ts:161-186 | so a parser that reads it back gives its value, or the object counts as unterminated |
| JsonFence.UnfencedObject | legacy/eval/mast/judge.ts:161-186 | in an answer that the pattern does not match, an object printed after text without a brace comes back exactly |
| JsonScan.ScanBody | legacy/eval/mast/judge.ts:164-185 | the loop returns the shortest slice from the first brace whose depth comes back to zero outside strings, and fails only when there is none |
| JsonScan.ClosesAtEndIffGroup | legacy/eval/mast/judge.ts:167-184 | closing at the end and not before is the same as being one balanced object of the grammar |
| JsonScan.ExtractsTheObject | legacy/eval/mast/judge.ts:161-186 | for any body, a slice is found if and only if it is the balanced object that starts at the first brace |
| JsonPrint.ExtractUndoesPrinting | legacy/eval/mast/judge.ts:161-186 | an object printed in any sound style, after text without a brace and before any text, is given back exactly |
| JsonPrint.EarlierBraceWins | legacy/eval/mast/judge.ts:165-166 | after any text with a brace, whatever is found starts at that brace, before the object |
| JsonPrint.RoundTripsIff | legacy/eval/mast/judge.ts:161-186 | for a given leading text and sound style, every object comes back, whatever follows, if and only if the text has no brace |
| JsonPrint.StandardRoundTripsIff | legacy/eval/mast/judge.ts:172-178 | which holds for standard escaping, compact or indented |
| MastJudge.ParseReport | legacy/eval/mast/judge.ts:81-100 | any answer gives all fourteen modes in order, each judged from the elements under "modes" |
| MastJudge.ReportSays | legacy/eval/mast/judge.ts:81-100 | a mode's verdict repeats the last element that names its code: present only for a plain true, with its evidence if that is a text; without one it is absent |
| MastJudge.ModesByCode | legacy/eval/mast/taxonomy.ts:31-50 | the modes are five, six and three of the three categories, by their codes |
| MastJudge.AggregateMast | legacy/eval/mast/judge.ts:121-139 | counts per code and per category are the occurrences, and the shares add up to one when there are any |
| MastJudge.TalliesAgree | legacy/eval/mast/judge.ts:121-128 | over reports from any answers, codes and categories count the same occurrences |
| TeamTurns.OneOutstanding | legacy/src/acp/team-agent.ts:185-284 | for a client that waits, one run at most is outstanding, and a prompt starts a run only when none is |
| TeamTurns.ExactlyOnce | legacy/src/acp/team-agent.ts:233-272 | each run is returned by exactly one prompt, or dropped, or is the one stashed, and not two of these |
| TeamTurns.OutlivesOnlyByParking | legacy/src/acp/team-agent.ts:247-259 | an unfinished run that no prompt serves was parked or dropped |
| TeamTurns.OnlyCancelDrops | legacy/src/acp/team-agent.ts:310-323 | without a cancel no run is dropped |
| TeamTurns.RepliesAreFaithful | legacy/src/acp/team-agent.ts:365-385 | every returned stop reason is that of its own finished run |
| TeamTurns.ReasonsByOutcome | legacy/src/acp/team-agent.ts:365-385 | over every run the reason told is end_turn, cancelled, refusal or none exactly as the run's outcome has it: failed or cancelled members, the steered status, a rejection, a throw |
| TeamTurns.ParkedTellsAll | legacy/src/acp/team-permission.ts:114-174 | while a question is parked every prompt that races a run has been told |
| TeamTurns.LeadStands | legacy/src/acp/team-agent.ts:208-231 | a lead stands only from a team that finished, with no cancel and no killed or rejected steered run since |
| TeamTurns.SteersWhoStands | legacy/src/acp/team-agent.ts:208-224 | a run steers a lead exactly when one stood when it started |
| TeamTurns.OverlappingPrompts | legacy/src/acp/team-agent.ts:236-243 | a client that does not wait can have two runs at once |
| TurnCancels.NextPromptIsSwallowed | legacy/src/acp/team-agent.ts:242-248 | once a cancelled run is stashed, the next prompt starts no run and waits for that one |
| TurnCancels.CancelCanStrandIff | legacy/src/acp/team-agent.ts:247-323 | after a cancel the run can come to be stashed if and only if its prompt was still racing it against a question |
| TeamSessions.NoClashOneSession | legacy/src/acp/team-agent.ts:101-165 | without a creation during another session's load a connection holds one session at most, failed loads included |
| TeamSessions.TwoSessionsIff | legacy/src/acp/team-agent.ts:101-165 | loads under way at some moment need only finish for two sessions to be registered, if and only if one was created during another one's load |
| TeamSessions.OverlappingLoad | legacy/src/acp/team-agent.ts:141-158 | a load that a new session overtakes leaves both registered |
| ParityReady.Unblocks | legacy/scripts/parity-ready.ts:25-38 | on any graph the worklist ends and counts exactly the transitive dependents |
| ParityReady.StrictlyDecreases | legacy/scripts/parity-ready.ts:24-38 | in an acyclic graph the count strictly falls along each dependency |
| ParityReady.WaitsOnReady | legacy/scripts/parity-ready.ts:44-53 | every incomplete package waits through a chain of incomplete ones on a ready one |
| ParityReady.EveryPackageOnce | legacy/scripts/parity-ready.ts:44-53 | a package is complete, ready or blocked, and one of these only |
| ParityReady.NeverStuckIff | legacy/scripts/parity-ready.ts:44-53 | whatever is complete, something is ready while anything is not, if and only if the graph is acyclic and its dependencies are packages |
| LaneTrajectory.ReadLaneTrajectory | legacy/eval/harness/swarm-coordinator-adapter.ts:189-282 | the reader with its buffers and index computes the trajectory function |
| TrajectoryLaws.TsIsIndex | legacy/eval/harness/swarm-coordinator-adapter.ts:200-211 | every event's timestamp is its position |
| TrajectoryLaws.AgentSays | legacy/eval/harness/swarm-coordinator-adapter.ts:202-281 | each agent's messages are its text cut exactly at its tool starts, message stops and the end, white-space pieces left out, direct messages in place |
| TrajectoryLaws.SaysPieces | legacy/eval/harness/swarm-coordinator-adapter.ts:213-233 | an agent that sends no direct message says exactly its cut pieces that are not blank |
| TrajectoryLaws.PiecesJoin | legacy/eval/harness/swarm-coordinator-adapter.ts:224-233 | cutting loses no text |
| TrajectoryLaws.ResultsLandOnTheirTool | legacy/eval/harness/swarm-coordinator-adapter.ts:229-250 | every tool start keeps its own event, which carries the results for its id while it is the latest start of that id |
| TrajectoryLaws.UniqueIdGetsAll | legacy/eval/harness/swarm-coordinator-adapter.ts:238-250 | with ids used once, a tool gets every result for its id |
| TrajectoryStories.AgentStory | legacy/eval/harness/swarm-coordinator-adapter.ts:200-281 | an agent's events are its own story in its own order: its text before each tool and turn, those by name and cost, its direct messages with their addressees, and the text left at the end |
| TrajectoryStories.MarksInOrder | legacy/eval/harness/swarm-coordinator-adapter.ts:200-281 | the tools, turns and addressed messages of all agents stand in the order of their lines |
| TrajectoryStories.LeftoversCloseIt | legacy/eval/harness/swarm-coordinator-adapter.ts:275-281 | leftover texts close the trajectory in the order in which they began |
| Frontier.ReconstructPair | legacy/eval/analysis/offline-frontier.ts:98-157 | the loop computes the means, the structure and both axes of the pair |
| Frontier.StructureCovers | legacy/eval/analysis/offline-frontier.ts:128-133 | every instance is in exactly one cell of the structure |
| Frontier.StructureByCell | legacy/eval/analysis/offline-frontier.ts:128-133 | each cell counts the instances that each model passes, or not, at least half of the time |
| Frontier.FreshByTokens | legacy/eval/analysis/offline-frontier.ts:118-145 | the fresh axis is made of fresh tokens; the oracle pays the strong model on the escalated fraction |
| Frontier.TotalByTokens | legacy/eval/analysis/offline-frontier.ts:118-145 | the total axis is made of total tokens likewise |
| Frontier.OracleIsBest | legacy/eval/analysis/offline-frontier.ts:118-145 | the oracle is at least as good as either model, so dominance is exactly a lower cost |
| Frontier.DominanceIsSavings | legacy/eval/analysis/offline-frontier.ts:126-145 | dominance means that the cheap model costs less than it saves, instance by instance |
| Frontier.Chebyshev | legacy/eval/analysis/offline-frontier.ts:137-145 | Chebyshev's sum inequality for success and cost, both ways |
| Frontier.NeverMisleadsIff | legacy/eval/analysis/offline-frontier.ts:137-146 | for costs that are not negative: at no price of the cheap model, zero or more, does the pre-check promise a dominance that is not there, if and only if the covariance of success and cost is not negative |
| Frontier.NeverMissesIff | legacy/eval/analysis/offline-frontier.ts:137-146 | likewise, at no such price does it miss one, if and only if the covariance is not positive |
| Frontier.PreCheckVersusOracle | legacy/eval/analysis/offline-frontier.ts:137-146 | the pre-check implies dominance when the two are similarly ordered, and is implied by it when oppositely ordered |
| Frontier.ExactIffUncorrelated | legacy/eval/analysis/offline-frontier.ts:144-145 | likewise, the pre-check is right at every such price if and only if the two are uncorrelated |
| Frontier.PreCheckCanMislead | legacy/eval/analysis/humaneval-frontier.ts:137-140 | without an order the pre-check can pass where the cascade only costs more |
| TauSweep.SweepOne | legacy/eval/analysis/humaneval-frontier.ts:148-157 | the loop computes one point of the sweep |
| TauSweep.PointByTask | legacy/eval/analysis/humaneval-frontier.ts:148-157 | a point, task by task: the cheap answer stands when its signal reaches the threshold, and else is escalated |
| TauSweep.SweepIsMonotone | legacy/eval/analysis/humaneval-frontier.ts:147-157 | a stricter threshold never lowers quality, cost or escalations |
| TauSweep.SweepIsBounded | legacy/eval/analysis/humaneval-frontier.ts:132-157 | every point lies between the cheap model and the oracle |
| TauSweep.SweepMeetsOracle | legacy/eval/analysis/humaneval-frontier.ts:150-154 | a point reaches the oracle's quality if and only if it accepts nothing that escalating could improve |
| TauSweep.Auc | legacy/eval/analysis/humaneval-frontier.ts:64-71 | the loops compute the share of positive and negative pairs in order, ties as halves |
| TauSweep.AucCountsPairs | legacy/eval/analysis/humaneval-frontier.ts:64-71 | the score is the share of pairs with the positive above the negative, ties as halves |
| TauSweep.ScoresByLabel | legacy/eval/analysis/humaneval-frontier.ts:64-71 | the two sides are the scores of the two labels |
| TauSweep.AucFlips | legacy/eval/analysis/humaneval-frontier.ts:64-71 | the score and the score with labels flipped add up to one |
| RouterFrontier.AnalyzeRouter | legacy/eval/analysis/router-frontier.ts:73-95 | the loop counts unique solves, solved by one and solved by any, and gives the routed cost and kappa |
| RouterFrontier.CheapestIsLeast | legacy/eval/analysis/router-frontier.ts:82-90 | the cost routed for a task is that of one of the models routed to, which are its solvers or, without one, all; none of them is cheaper |
| RouterFrontier.RoutedAtLeastCost | legacy/eval/analysis/router-frontier.ts:82-90 | a task is routed at the least cost among its solvers, or among all when it has none |
| RouterFrontier.KappaIsShare | legacy/eval/analysis/router-frontier.ts:91-95 | kappa is between zero and one; when some task is solved it is one exactly when no solved task has a second solver |
| RouterFrontier.UniqueIsOracleLoss | legacy/eval/analysis/router-frontier.ts:78-86 | a member's unique solves are what the oracle loses without it |
| RouterFrontier.UniqueSolvesAddUp | legacy/eval/analysis/router-frontier.ts:78-84 | unique solves add up to the tasks solved by one |
| RouterFrontier.DiversityGain | legacy/eval/analysis/router-frontier.ts:91-98 | the gain is never negative, and zero exactly when one member covers all |
| Ensemble.EnsembleAtK | legacy/eval/experiments/fixit.ts:332-353 | the loops compute the coverage of the union of the first k attempts over all tasks, and the number of checkpoints |
| Ensemble.NeverLowersIff | legacy/eval/experiments/fixit.ts:332-353 | for given checkpoints, going from j attempts to k never lowers coverage over all outcomes if and only if attempts j to k report nothing new for their task, or the first j report nothing |
| Ensemble.MoreAttemptsCoverMore | legacy/eval/experiments/fixit.ts:332-353 | under that condition coverage does not fall |
| Ensemble.EnsembleBeatsEachAttempt | legacy/eval/experiments/fixit.ts:332-353 | over all tasks, the ensemble covers at least what one included attempt picked for each task covers, when the picked attempts report all that the included ones do |
| Ensemble.CoverageCanDrop | legacy/eval/experiments/fixit.ts:344-349 | whenever the condition fails there is an outcome on the same checkpoints for which more attempts cover less |
| Ensemble.SharedIsEnough | legacy/eval/experiments/fixit.ts:308-350 | attempts that share their checkpoints meet both conditions |
| Goals.Goal.EnforceBudget | legacy/experimental/core/goal.ts:211-220 | holds an active goal by the limit that was passed, tokens first, and refuses any other |
| Goals.EnforcedByUse | legacy/experimental/core/goal.ts:185-220 | enforcing in terms of use and budgets, over every goal |
| Goals.LimitsAreEarned | legacy/experimental/core/goal.ts:185-220 | over every sequence of operations a goal is limited only by a budget that it has used up |
| Goals.UseAddsUp | legacy/experimental/core/goal.ts:171-183 | over every sequence tokens, turns and costs add up, once each |
| Goals.ChecksByUse | legacy/experimental/core/goal.ts:171-209 | a check names the limit that was passed, tokens first, with the turn counted |
| Goals.BlockKeepsReason | legacy/experimental/core/goal.ts:160-165 | blocking an active goal keeps a reason that is not empty as a checkpoint |
| Goals.EveryStatusIsNear | legacy/experimental/core/goal.ts:25-36 | from any status but completion every other is one move away, or two by way of being active |
| Goals.NotDirectly | legacy/experimental/core/goal.ts:25-36 | and no held goal is held otherwise directly |
| Goals.ClockTaken | legacy/experimental/core/goal.ts:140-183 | the clock is taken by what moves or uses a goal and by nothing else |
| Goals.CheckpointTaken | legacy/experimental/core/goal.ts:226-235 | a checkpoint holds the turns and tokens so far |
| Goals.SavedByField | legacy/experimental/core/goal.ts:241-257 | what is saved, field by field: no cost, and checkpoints when there are some |
| Goals.CompleteIsFinal | legacy/experimental/core/goal.ts:25-36 | completion is absorbing under every sequence of operations |
| Goals.CheckpointsRise | legacy/experimental/core/goal.ts:226-235 | checkpoints rise in turns and tokens and never run ahead of the goal |
| Goals.SurvivesIff | legacy/experimental/core/goal.ts:241-277 | a saved goal answers the same to every later sequence of operations if and only if its cost budget is moot |

## Left out

- Foreign processes (Docker, E2B, EC2, ssh, runners), HTTP and OAuth, option plumbing and report printing: no property to prove here.
- The order of reports: the session list in `legacy/scripts/parity-ready.ts` and the sorted summaries of `legacy/eval/experiments/tac-pool.ts:286-288`; and how the latter plans jobs and runs one.
- `eval/pilot/reviewer-bench.py`: the scheduler of `stage2.py` without its lock.
- The single-agent half of `legacy/src/acp/normalized-translate.ts` (todo lists as plans, `setStop`): the team path switches both off.
- Presentation functions (title, kind, locations, diffs) and JSON parsing: arbitrary functions. JSON text written to disk and read back is taken to be the same value.
- The roster is looked up once per event; the code looks it up again for the board, later on the same promise chain.
- One translator serves a whole live stream; `legacy/src/acp/team-agent.ts:196-202` makes one per prompt.
- The promise chain of the translator is sequential handling in order; a send that rejects (its event is skipped) is not modelled.
- Only the meta fields that the client reads (member id, name, role) are modelled, and only the payload fields that the pipeline reads.
- RichView.RichTool.Update: the shared tool holds its fields as one record value; identity and aliasing of the tool object are modelled, those of lanes are not.
- Files that end in a half line, malformed lines and other junk are one kind of line for the reader; file-system errors of the recorder are not modelled.
- Replay.ReplayRefinesLive: asks for timestamps that never go back, events that travel under their own type (`legacy/src/swarm/events.ts:187-208` makes them so), and roles that agree with the spawns.
- Stage2Screen.ScreenIsSequential: starts from a fresh state, with distinct candidates; resumed records and the re-reading of rewards (`eval/pilot/stage2.py:170-188`) are not modelled. The reference check and rewards are fixed answers of the outside world, and rounding is exact.
- Stage2Budget.SpendIsBounded: one driver, no cell still running from before it, and costs that are not negative. A record appears whole.
- TokenStore.LockedRuns: the time-out that leads to a reclaim, sleeps, file modes and directories are not modelled, and process ids are distinct. Operations carry a provider key, so the code's own are those on `openai-codex`.
- JsonFence.ExtractJsonObject: the JSON parser is an arbitrary function that may fail.
- TeamTurns.OneOutstanding: starts and ends of turns, not what a run does; `swarm/steer` and the draining of translators are left out. Permission questions with options are not parked and are left out.
- LaneTrajectory.ReadLaneTrajectory: lines are parsed already, with the code's defaults for missing fields; white space is any set of characters.
- Frontier.ReconstructPair: the join of the two models' instances is done already, and floats are exact reals. The same for `TauSweep`, `RouterFrontier` and `Ensemble`, where the mean over no task (not a number in the code) is excluded.
- RouterFrontier.AnalyzeRouter: a swarm names each model once in the theorems about marginals.
- Ensemble.EnsembleAtK: results are grouped by task and ordered by seed already, and there is some task (the code gives no answer without one).
- Goals: identifiers and clock readings are given; the registry of goals is left out.
