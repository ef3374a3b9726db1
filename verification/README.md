# The conversation engine of the Rust agent, in Dafny

This project models the part of the agent that owns one mutable sequence, `Agent.messages`: how the
history is appended to, popped, repaired and viewed; the journal written from it; and the gates that
decide whether a run may end. Beside it stand the streaming plan parser with its dispatcher, the
staleness manifest, and the store that scripts share.

A message is a datatype with a role, its flattened text, the ids of its calls, the id it answers, and
an optional compaction record. What the model, the judge, the checker, the user, the clock and the file
system do is an input: an event, a write that succeeds or fails, a function from attempts to replies.
Where the source loops over variables or updates fields in place there is a method or a class whose
contract ties it to a function on values; the properties are lemmas about those functions, over every
history, every run and every interleaving.

| module | what it holds |
|---|---|
| `Transcript`, `Repair` | messages, tool-call pairing, closing the calls of a history |
| `Compaction`, `Requests` | head and tail of a compaction, the user's requests |
| `Shrink`, `ShrinkExact`, `ShrinkSites` | fitting a request into a budget, said without its loops, and the places where that happens |
| `ContextView`, `ViewHistory`, `ViewPairing` | the compacted view, the requests it carries, and when it is paired |
| `ViewLimits`, `MovedHead`, `Runs` | families of runs whose compactions lose a pairing or a request |
| `Conversation`, `RunEnds` | the run loop as a state machine over the history; what is said in a run, and how it ends |
| `Journal`, `AgentState` | journal and export cursors; the agent's fields and the methods that change them |
| `Gates`, `LoopGuard`, `Fallback` | closure gates, loop guard, fallback chain |
| `Resume`, `ResumedFrame`, `ResumedView`, `ResumedLimits` | resuming a session: task copies, and what dropping them does to a compacted view |
| `PlanParser`, `PlanStream`, `PlanSettled`, `HedgedParents` | ORDER blocks, read whole or streaming; the race of parent streams |
| `PlanPaths`, `PlanText` | the paths a header may name, and what a written plan orders |
| `Staleness`, `ScriptStore` | the coverage manifest; the committed store of scripts |
| `Sessions`, `Seqs`, `Numbers`, `StringOrder` | small sessions for the failing families, and shared facts |

## What the code does not do

These follow the code as it is. Each has a concrete failing input and the exact condition, or the exact
account of what happens instead.

- **Compaction over an open call.** A submit marker leaves its call unanswered and its exit is popped, so
  a manual compaction while the run holds finds the call open. Three things go wrong
  (`ViewLimits`, each a family of lawful runs from a fresh start):
  - the query that `compact` itself sends (agent.rs:2117-2131) carries the open call
    (`HeldSummaryQueryIsOpen`); that query is paired if and only if the view was and no call is open
    (`Conversation.EverySummaryQueryIff`);
  - `compact` counts the tail (agent.rs:2160) before `add_messages` (agent.rs:2181) puts in results, so the
    counted tail begins later than the cut and can open on a result whose call is gone
    (`HeldCompactionOrphansResult`); the view is paired if and only if it does not
    (`ViewPairing.CompactionPairsIff`);
  - a user request at the front of the tail is then in no list and in no tail, even with a stable head and
    a paired view (`HeldCompactionLosesRequest`); what is lost is exactly what was asked between the cut and
    the counted tail (`ViewHistory.CompactionAccounts`).
- **A head that moves between compactions**, as it may when a model switch or a recalibration changes its
  budget (agent.rs:2108), can lose the old summary's list of requests, in a run from a fresh start. A head
  that has grown starts after the old summary (`MovedHead.GrownHeadLosesRequests`); one that has shrunk lets
  the tail reach back to it, and then the list and the old tail are both gone
  (`MovedHead.ShrunkHeadLosesRequests`). The list is passed on if and only if the head has not grown and the
  cut lies behind the old summary, or what is left out is empty (`ViewHistory.CompactionPassesListOnIff`).
- **`shrink` can unpair a request**, by leaving a lone tool result or by protecting a call without its
  results. `Shrink.ShrinkPairing` gives the condition for every protected part. The retry after an overflow
  counts the user-role summary as the task when the head left the task out, and then protects the call
  behind it: `ShrinkSites.RetryPairing` says exactly when the retried query is unpaired, and
  `ShrinkSites.RetryBreaksTurn` gives a family of sessions where it is.
- **A torn note swallows a message.** Notes and streamed deltas go into the journal without regard to
  failed writes; the next save glues its first line to what a torn one left. Saves agree with the history
  if and only if none since the last rebuild did that (`Journal.EverySaveAgreesIff`,
  `Journal.TornNoteSwallows`).
- **Resuming drops exits first** (agent.rs:951), so a copy of the task that only an exit answered is
  collapsed, although the comment at agent.rs:392-394 says it stays (`Resume.ResumeKeepsAnsweredIff`).
- **Resuming can shift what a summary counted.** A dropped copy that lies in the recorded head or in the
  counted tail moves the boundary by one message: the head takes in a call without its result
  (`ResumedLimits.HeadCopyLeavesOpenCall`), or the tail a result without its call
  (`ResumedLimits.TailCopyOrphansResult`). Head and tail survive if and only if neither holds an unanswered
  copy (`ResumedFrame.ResumeKeepsFrameIff`); then the first query is paired if the seams of the latest summary
  held before (`ResumedView.ResumedQueryIsPaired`). Whatever happened to them,
  it is paired if and only if the seams of the latest summary hold (`ResumedView.ResumedQueryPairedIff`).
- **Fast closure takes a command for the checker.** A command closes a run when any part of it names the
  checker and the whole looks like a pass, so a failing checker masked by a later part closes it
  (`Gates.MaskedCheckerCloses`). The pass is the checker's own, whatever the parts show, if and only if the
  way they are joined forces the checker, and, for a checker that must print PASS, the command is nothing but
  the checker joined by `&&` (`Gates.PassIsOwnIff`). Arguments and redirections of a part lie outside this:
  `./run_tests.sh > /dev/null` counts as the checker.
- **Fast closure accepts an uncaptured checker**: with no hash captured and none computable now, both
  read as "", while the submission gate fails closed (`Gates.UncapturedCheckerCloses`). A success that
  survives rests on a named hash if and only if a hash was captured (`Gates.SurvivorsVouchedIff`).
- **An order sent on an unterminated marker line is not final.** Its path is, its text is not
  (`PlanSettled.UnsettledBlockChanges`, `PlanSettled.SettledOrdersAreFinal`).
- **A file that one contract check skips** is new to the next, and what changed meanwhile is not recorded
  (`Staleness.SkippedFileChangesUnseen`, exactly: `Staleness.ChangesAreJumps`).

## Model

| member | source | states |
|---|---|---|
| `Transcript.AnsweredMeans` | agent-rs/src/agent.rs:321-354 | the one-pass pending scan accepts a history if and only if every assistant call has a result that nothing but results precedes |
| `Transcript.ClosersAnswer` | agent-rs/src/agent.rs:307-319 | the synthetic results of whatever is pending close a history, and answer only calls that are open |
| `Repair.RepairToolCallHistory` | agent-rs/src/agent.rs:321-354 | the loop with its pending set, non-objects skipped, computes the repaired history |
| `Repair.RepairAnswersEveryCall` | agent-rs/src/agent.rs:321-354 | after repair every call of any history is answered |
| `Repair.RepairOnlyAddsClosers` | agent-rs/src/agent.rs:321-354 | repair keeps every message in order and adds nothing but synthetic results |
| `Repair.RepairUnchangedIffAnswered` | agent-rs/src/agent.rs:321-354 | repair changes a history exactly when a call of it is unanswered, and is idempotent |
| `Repair.AppendUserCloses` | agent-rs/src/agent.rs:356-367 | a user message added after a closable history leaves every call answered |
| `Repair.AppendUserClosesOnlyIfClosable` | agent-rs/src/agent.rs:356-367 | the converse: where only part of the results arrived, the append leaves a call unanswered |
| `Compaction.ComputeHeadLength` | agent-rs/src/compaction.rs:145-154 | the loop finds the system messages at the front and the task behind them if it is short enough |
| `Compaction.ComputeTailStart` | agent-rs/src/compaction.rs:157-174 | the three loops, with the running total, compute the tail start |
| `Compaction.TailIsLongestFit` | agent-rs/src/compaction.rs:157-174 | the tail is the longest suffix past `lower` that fits and opens on no result; with no such suffix it is the last group |
| `Compaction.TailOpensOnNoResult` | agent-rs/src/compaction.rs:156-174 | in a grounded history whose protected part ends on a system or user message the tail never begins on a tool result |
| `Shrink.ComputeShrunk` | agent-rs/src/compaction.rs:191-208 | the elision passes with their early return and the dropping loops compute the shrunk request |
| `Shrink.ElideTrims` | agent-rs/src/compaction.rs:176-188 | eliding, once or again, changes nothing but the middle of a text and keeps 200 characters at each end |
| `Shrink.ShrinkKeepsSuffix` | agent-rs/src/compaction.rs:190-208 | head verbatim, then a contiguous suffix with only middles of texts cut; within budget or at most two messages past the head; no leading result unless it is all that is left; a request that fits is untouched |
| `ShrinkExact.ElideCuts` | agent-rs/src/compaction.rs:176-188 | a plain text longer than the cap comes out as its first and its last half of it, around a note that names how many characters are missing; anything else comes out as it was |
| `ShrinkExact.TextsGoFirst` | agent-rs/src/compaction.rs:190-201 | while the whole does not fit after the elision, every text past the protected part is down to 400 characters or to 200 at each end of a note |
| `ShrinkExact.ShrinkIs` | agent-rs/src/compaction.rs:190-208 | exactly one request meets this: texts cut at 8000, then 2000, then 400, each pass oldest first and only while the whole does not fit; then the oldest turns gone, no more than needed, and only once every text is cut down |
| `Shrink.ShrinkPairing` | agent-rs/src/compaction.rs:190-208 | for every protected part: a paired request is paired after shrinking if and only if nothing is dropped, or no call is open at the end of that part, or all that is left is the one result still owed to it |
| `Shrink.ClosedHeadPairing` | agent-rs/src/compaction.rs:190-208 | with nothing open in the protected part, it is unpaired exactly when the last turn has two results or more past that part and does not fit |
| `ShrinkSites.SummaryRequestPairing` | agent-rs/src/agent.rs:2118-2147 | wherever a compaction may fire over a mirrored view: the query for a summary, shrunk, is paired exactly when no call is open and the last turn does not end as a lone result; shrunk once more it is so again, and never over an open call |
| `ShrinkSites.ViewIsSmall` | agent-rs/src/agent.rs:2103-2184 | after a clean cut the view is no larger than head, summary, and what was to be kept or the last turn |
| `ShrinkSites.RetryPairing` | agent-rs/src/agent.rs:1719-1726 | the retried query is paired exactly when nothing is dropped, or no call was taken into the protected part and no lone result is left, or the lone result is all that call is owed |
| `ShrinkSites.RetryBreaksTurn` | agent-rs/src/agent.rs:1713-1727 | sessions with a task too long for the head whose retried query carries a call without its result |
| `Shrink.ShrinkCanOrphan` | agent-rs/src/compaction.rs:202-207 | a request that shrinks to a lone result |
| `Requests.ComputeUserRequests` | agent-rs/src/compaction.rs:210-226 | the loop collects the requests in order, a summary passing on its own list |
| `Requests.MessageAsks` | agent-rs/src/compaction.rs:210-226 | a summary adds its own list, a new task or an interruption of the user its text without the opening of the note, any other message nothing |
| `Requests.CapRequests` | agent-rs/src/compaction.rs:228-244 | clipping and the walk from the latest request compute the capped list |
| `Requests.ClipKeeps` | agent-rs/src/compaction.rs:228-230 | a request of up to 3000 characters is kept whole, of a longer one its first 3000 and a mark |
| `Requests.ShortListPasses` | agent-rs/src/compaction.rs:228-244 | requests that are short enough, alone and together, all pass as they are |
| `Requests.CapKeepsFirstAndRecent` | agent-rs/src/compaction.rs:228-244 | the cap keeps the first request and the longest recent run within the limit |
| `Requests.CapOfCap` | agent-rs/src/compaction.rs:228-244 | cap(cap(a) + b) = cap(a + b) |
| `ContextView.CompactsIff` | agent-rs/src/agent.rs:2103-2116 | a compaction appends a summary exactly when the request overflowed, or what lies past the protected part of the view does not fit and another turn begins in it |
| `ContextView.ViewAfterCompaction` | agent-rs/src/agent.rs:2103-2184 | after any number of compactions, the view is head, new summary and the old view from the cut on, if and only if the cut is clean |
| `ContextView.StableHeadCutsCleanly` | agent-rs/src/agent.rs:2103-2163 | the recorded head being the head now and no call being open make the cut clean |
| `ViewHistory.ViewExtends` | agent-rs/src/agent.rs:2024-2035 | ordinary appends only extend the view at its end |
| `ViewPairing.ViewPairedIff` | agent-rs/src/agent.rs:2024-2035 | the view of a paired history is paired if and only if the recorded head leaves no call open and the counted tail does not open on a result |
| `ViewPairing.CompactionPairsIff` | agent-rs/src/agent.rs:2103-2184 | after any compaction, over an open call or not, the view is paired if and only if the tail that is counted does not open on a result |
| `ViewPairing.CleanCutPairs` | agent-rs/src/agent.rs:2103-2184 | a clean cut of a paired view meets that condition |
| `ViewHistory.RequestsOfCut` | agent-rs/src/agent.rs:2157-2158 | for every head and every cut, what a compaction collects past an earlier summary: behind it the old list, unless the head has grown; at it or before only the head up to the cut |
| `ViewHistory.ListPassedOnIff` | agent-rs/src/agent.rs:2157-2158 | for every head and every cut: the old list is passed on in its place if and only if the head has not grown and the cut lies behind the old summary, or what is left out is empty |
| `ViewHistory.CompactionPassesListOnIff` | agent-rs/src/agent.rs:2103-2158 | the same of the cut every compaction makes, whatever its budgets |
| `ViewHistory.CompactionAccounts` | agent-rs/src/agent.rs:2157-2181 | where the old list survives (the head not grown, nothing asked in what it gave up, the cut behind the old summary) everything asked is in three parts, listed, skipped and in the tail; the view tells the first and the last up to the cap, and carries all when nothing is skipped |
| `ViewHistory.CompactionLosesNothingIff` | agent-rs/src/agent.rs:2157-2181 | the list and the tail are everything asked if and only if nothing was asked between the cut and the counted tail |
| `ViewHistory.NoOpenCallSkipsNothing` | agent-rs/src/agent.rs:2159-2181 | without an open call nothing is skipped |
| `ViewHistory.ViewTellsEveryRequest` | agent-rs/src/agent.rs:2157-2181 | the summary's list and the requests in the tail are together, up to the cap, everything asked |
| `Conversation.StepKeeps` | agent-rs/src/agent.rs:1443-1578 | every event of a run keeps the history answered; the view is paired or not as the latest compaction decides, and stays complete if a compaction passes the old list on and skips nothing |
| `Conversation.EveryQueryIsAnswered` | agent-rs/src/agent.rs:1016-1112 | in every run from any answered start, whenever the loop is about to query the model every call of the history has its result before the next message that is not one |
| `Conversation.EveryViewIsPairedIff` | agent-rs/src/agent.rs:2103-2184 | in every run from a sound start the view of the loop's query is paired if and only if the latest compaction paired well |
| `Conversation.EverySummaryQueryIff` | agent-rs/src/agent.rs:2117-2131 | in every run, wherever a compaction may fire, the query it sends is paired if and only if the latest compaction paired well and no call is open |
| `Conversation.EveryViewTells` | agent-rs/src/agent.rs:2157-2181 | in every run whose compactions pass the old list on and skip nothing that was asked, every query's view tells every request up to the cap |
| `Conversation.FreshRunStarts` | agent-rs/src/agent.rs:996-1012 | system prompt and task are a sound and telling start |
| `Conversation.RejectedFastStarts` | agent-rs/src/agent.rs:1027-1034 | so are system prompt and task in front of a rejected fast answer and the rejection |
| `Conversation.ResumedRunStarts` | agent-rs/src/agent.rs:982-993 | any repaired history with the task appended is an answered start |
| `RunEnds.EverythingSaidStays` | agent-rs/src/agent.rs:1064-1113 | in every run the history only grows, and but for synthetic results and summaries it is exactly what was said, in order and each message once, across popped exits, rejections, compactions and follow-ups |
| `RunEnds.GateHasExitIff` | agent-rs/src/agent.rs:1045-1074 | a step leaves an exit at the gate if and only if it was cut by a limit, proposed one, or failed with one, and then that one |
| `RunEnds.GateJudges` | agent-rs/src/agent.rs:1075-1112 | at the gate a rejection takes the exit back and the loop goes on, a failure replaces it and holds, and without an exit the loop goes on |
| `RunEnds.VerdictIsEvent` | agent-rs/src/agent.rs:507-551 | what the agent does with a gate's verdict, on its log and on its history, is the run's event for it: the exit stays, the note goes back, or the failure takes its place |
| `RunEnds.HeldExitReturns` | agent-rs/src/agent.rs:1097-1111 | the exit that passed its gate is taken off, what arrives during the hold goes behind the history, and a released run ends on that same exit |
| `RunEnds.HeldRunGoesOn` | agent-rs/src/agent.rs:1097-1101 | a follow-up instead takes the run on without it |
| `RunEnds.EveryRunEndsAtAnExit` | agent-rs/src/agent.rs:1097-1114 | every run that ends without being interrupted has its exit as its last message |
| `RunEnds.InterruptedRunEnds` | agent-rs/src/agent.rs:1046-1055 | an interrupted run ends with the history it has, and nothing follows |
| `RunEnds.RejectedFastLog` | agent-rs/src/agent.rs:1020-1034 | a rejected fast answer leaves system prompt, task, answer and rejection, in this order, to be journaled anew |
| `ViewLimits.HeldSummaryQueryIsOpen` | agent-rs/src/agent.rs:2117-2131 | runs that hold behind a submit marker: the query for a summary leaves the call unanswered |
| `ViewLimits.HeldCompactionOrphansResult` | agent-rs/src/agent.rs:2159-2181 | lawful runs from a fresh start whose next query carries a result without its call |
| `ViewLimits.HeldCompactionLosesRequest` | agent-rs/src/agent.rs:2157-2181 | lawful runs whose head is stable and whose view is paired, with a request in no list and no tail |
| `MovedHead.GrownHeadLosesRequests` | agent-rs/src/agent.rs:2108-2158 | a lawful run from a fresh start whose head grows: the first summary carries the added request, the second none |
| `MovedHead.ShrunkHeadLosesRequests` | agent-rs/src/agent.rs:2103-2181 | a lawful run from a fresh start whose head shrinks: the second summary lists nothing, and the view is the prompt, that summary and the last turn |
| `AgentState.Summarize` | agent-rs/src/agent.rs:2103-2178 | cutting and summarizing step by step yields the summary message of the cut, or nothing when there is too little |
| `AgentState.JournalLines` | agent-rs/src/agent.rs:2274-2286 | the lines of one save: everything when the journal starts over, else what lies past the cursor |
| `AgentState.ExportIsDue` | agent-rs/src/agent.rs:2248-2266 | a full export is made by force, at an exit, after a minute, or once 20 messages and a tenth of all are new, and the cursor moves only when it succeeds |
| `AgentState.Agent.AddMessages` | agent-rs/src/agent.rs:356-367 | results for the last message's open calls, then the messages; journal agreement kept |
| `AgentState.Agent.PopExit` | agent-rs/src/agent.rs:1097-1099 | the exit comes off and the cursor follows; journal agreement kept |
| `AgentState.Agent.PushBack` | agent-rs/src/agent.rs:1109-1109 | the exit goes back; journal agreement kept |
| `AgentState.Agent.InsertFront` | agent-rs/src/agent.rs:1027-1034 | system and task go in front and the journal is to be rebuilt |
| `AgentState.Agent.JournalNote` | agent-rs/src/agent.rs:2302-2311 | a note goes into the file whole or torn; what is lost stays counted |
| `AgentState.Agent.AppendJournal` | agent-rs/src/agent.rs:2274-2297 | after a successful write a reader finds the history, exits aside, exactly when nothing is lost; a failed one resets the cursor |
| `AgentState.Agent.Save` | agent-rs/src/agent.rs:2248-2272 | the same for every save, and the export cursor moves exactly when an export is due and succeeds |
| `AgentState.Agent.Compact` | agent-rs/src/agent.rs:2103-2184 | the history becomes the compacted one, with log and export cursor as the saves around it leave them, or all stays when there is too little |
| `AgentState.Agent.CheckTaskVerifier` | agent-rs/src/agent.rs:527-556 | pop, judge by the checker, and push back, reject or fail: counters and history follow the gate's verdict |
| `AgentState.Agent.RejectTask` | agent-rs/src/agent.rs:507-525 | a rejection counts, and at the cap becomes a failure |
| `AgentState.Agent.OnRejection` | agent-rs/src/agent.rs:1267-1298 | a rejection goes back to the model unless repeated or at the cap |
| `AgentState.Agent.CheckGoalClosure` | agent-rs/src/agent.rs:1120-1316 | a workspace with its own verifier keeps the exit; otherwise the judge's loop ends as the gate's verdict says, with one save per outage |
| `AgentState.JudgeRunMeans` | agent-rs/src/agent.rs:1259-1316 | the loop's log, export cursor and gate in terms of the verdict and the number of outages |
| `Journal.SaveTracks` | agent-rs/src/agent.rs:2274-2297 | up to the cursor the file holds the history but for the messages lost, through successful and failed saves |
| `Journal.EverySaveAgreesIff` | agent-rs/src/agent.rs:2248-2311 | through any appends, pops, pushes, front insertions, whole and torn notes and failed writes: a successful save leaves a reader the history, exits aside, if and only if no save since the last rebuild swallowed a message |
| `Journal.EverySaveAgrees` | agent-rs/src/agent.rs:2248-2297 | without torn notes every successful save does |
| `Journal.TornNoteSwallows` | agent-rs/src/agent.rs:2302-2311 | a run whose second message never reaches a reader |
| `Journal.ExportKeepsAmortized` | agent-rs/src/agent.rs:2248-2266 | each save keeps the cost within eleven per exported message and the tail below max(20, len/10) |
| `Journal.ExportCostIsLinear` | agent-rs/src/agent.rs:2248-2266 | along any append-only run the exports serialize at most 11 times the final length |
| `Gates.TaskGateIffProven` | agent-rs/src/agent.rs:527-556 | before a fast closure, a success passes the checker's gate if and only if the captured hash is non-empty and current and the checker passed, or the run was being stopped |
| `Gates.ProposalSurvivesIff` | agent-rs/src/agent.rs:1075-1093 | a proposed success survives both gates exactly when the checker's gate is lifted or it is proven, and the judge, if asked, accepts, is stopped or is overruled after fewer than three outages |
| `Gates.SurvivorsAreProven` | agent-rs/src/agent.rs:1075-1093 | in every run with a captured checker a surviving success was proven at that moment, or an earlier passing look had closed the run |
| `Gates.SentBackBound` | agent-rs/src/agent.rs:1259-1313 | both gates together send a success back at most (c1 - 1) + (c2 - 1) times in a run |
| `Gates.UnprovenUntilCap` | agent-rs/src/agent.rs:507-524 | successes that are not proven are sent back until the cap and fail from there on: the bound is reached |
| `Gates.RejectionMeans` | agent-rs/src/agent.rs:1270-1298 | a rejecting judge is overruled exactly when half of all words of this complaint and the last stand in both, or at the cap; else the work goes back |
| `Gates.RejectedUntilCap` | agent-rs/src/agent.rs:1270-1298 | answers rejected with ever new complaints go back until the cap and are then accepted |
| `Gates.JudgeFailsIff` | agent-rs/src/agent.rs:1230-1310 | judging fails exactly when outages reach three in a row, earlier ones counted in |
| `Gates.JudgeAsksAgain` | agent-rs/src/agent.rs:1230-1310 | fewer outages only delay the reply that decides |
| `Gates.NoHashNeverSubmits` | agent-rs/src/agent.rs:527-556 | without a captured hash the submission gate never accepts |
| `Gates.ClosingMeans` | agent-rs/src/agent.rs:560-608 | at the look that closed a run the checker had its captured hash, and a command with the checker among its parts, or else an eager run of it, ended with 0, showed no failure line, and printed PASS if it is verify.sh |
| `Gates.LookClosesIff` | agent-rs/src/agent.rs:560-608 | a look closes the run exactly when it may, the checker has its captured hash, and the command names the checker and its output is a pass, or else an eager run of it is; and it changes nothing else |
| `Gates.UncapturedCheckerCloses` | agent-rs/src/agent.rs:560-608 | without a captured hash any passing look that cannot compute one closes the run, and every success after it passes the checker's gate |
| `Gates.SurvivorsVouchedIff` | agent-rs/src/agent.rs:527-608 | a surviving success is proven, or was closed by a passing look under a named hash, if and only if a hash was captured |
| `Gates.PassIsOwnIff` | agent-rs/src/agent.rs:572-581 | for every command built with sequences, pipes, and-lists and or-lists: each way it can look like a pass shows the checker's own pass if and only if its shape forces the checker, or, for a checker that must print PASS, is an `&&` chain of the checker |
| `Gates.MaskedCheckerCloses` | agent-rs/src/agent.rs:572-608 | a checker that fails in front of a part that succeeds closes the run with its hash intact |
| `Gates.SurvivorsOwnedIff` | agent-rs/src/agent.rs:527-608 | where every command that names the checker forces it in that sense, a surviving success rests on the checker's own pass if and only if a hash was captured |
| `LoopGuard.Guard.Admit` | agent-rs/src/agent.rs:1474-1497 | whether a step's actions run, and the streak after it |
| `LoopGuard.StreakCounts` | agent-rs/src/agent.rs:1474-1497 | the streak counts every executed repetition |
| `LoopGuard.ThirteenNeverRun` | agent-rs/src/agent.rs:1474-1497 | of thirteen action steps in a row with one signature one is not executed, judge on or off and across its reset |
| `LoopGuard.TwelveRun` | agent-rs/src/agent.rs:1474-1497 | wherever the signature changes the next twelve of a kind are executed, and the thirteenth is not |
| `LoopGuard.StreakEnds` | agent-rs/src/agent.rs:1474-1497 | another signature or none runs at once and starts a new streak; after a cut that the judge answers for the streak is over |
| `Fallback.Chain.NextFallbackModel` | agent-rs/src/agent.rs:668-676 | the next model of the chain that was neither tried nor is current, and what then counts as tried |
| `Fallback.NextModelIs` | agent-rs/src/agent.rs:668-676 | the next model is the first untried one behind the first place of the current model, or of the whole chain when that does not name it |
| `Fallback.Chain.TakeOver` | agent-rs/src/agent.rs:1681-1711 | the failure loop tries models of the chain, none of them tried before and each once, so it ends: with the first that answers or overflows, or when all the rest was tried; the current model is then the last one that could be built |
| `Fallback.NeverTwice` | agent-rs/src/agent.rs:668-676 | over a whole run no model is handed out twice, and at most as many as the chain names |
| `Resume.DropPendingTaskCopies` | agent-rs/src/agent.rs:403-425 | collecting indices and removing them from the last to the first is the filter, and counts what it dropped |
| `Resume.CollapseIsComplete` | agent-rs/src/agent.rs:403-425 | no unanswered copy is left, and a second collapse changes nothing |
| `Resume.CopiesAre` | agent-rs/src/agent.rs:403-425 | exactly the bare task, the note that adds it and the rendered template, spaces around them aside, in a user message, are copies of it |
| `Resume.AnswersAre` | agent-rs/src/agent.rs:370-391 | exactly an exit, or an assistant message whose submission is not blank, answers what came before it |
| `Resume.ExactlyOneCopy` | agent-rs/src/agent.rs:950-993 | whatever was stored, after filter, collapse, repair and the added task there is exactly one unanswered copy in any encoding |
| `Resume.ResumeKeepsAnsweredIff` | agent-rs/src/agent.rs:950-963 | a resumed run keeps every answered copy if and only if none was answered by an exit alone |
| `Resume.SubmitMarkerTurnLosesTask` | agent-rs/src/agent.rs:950-963 | a turn closed by a submit marker whose task the resumed run drops |
| `ResumedFrame.ResumeKeepsFrameIff` | agent-rs/src/agent.rs:950-963 | filter and collapse leave the head and the tail that the latest summary counted as they were if and only if no unanswered copy of the task lies in either |
| `ResumedView.ResumedViewIs` | agent-rs/src/agent.rs:2024-2035 | then the session shows what it showed, the dropped copies after the summary aside |
| `ResumedView.ResumedQueryPairedIff` | agent-rs/src/agent.rs:950-993 | filter, collapse, repair and the added task together: the first query is paired if and only if the seams of the latest summary hold once the copies are dropped |
| `ResumedView.ResumedQueryIsPaired` | agent-rs/src/agent.rs:950-993 | they do when they held and the frame holds no unanswered copy |
| `ResumedView.ResumedRunIsSound` | agent-rs/src/agent.rs:950-993 | with no unanswered copy up to the latest summary a resumed run is sound if and only if the seams held, and telling if every request was carried |
| `ResumedView.StoppedMeets` | agent-rs/src/agent.rs:1097-1112 | a sound run stopped in any phase stores a history that meets what resuming asks for |
| `ResumedView.StoppedQueryIsPaired` | agent-rs/src/agent.rs:950-993 | stopped and resumed, the first query is paired when no unanswered copy lies in the frame |
| `ResumedView.StoppedRunIsSound` | agent-rs/src/agent.rs:950-993 | stopped and resumed with no unanswered copy up to the latest summary, the new run is sound, and telling if the old one was |
| `ResumedView.ResumedFromJournal` | agent-rs/src/subagents.rs:2265-2280 | a session read back from the journal after a successful save starts exactly as one resumed from the history, if nothing was swallowed |
| `ResumedLimits.HeadCopyLeavesOpenCall` | agent-rs/src/agent.rs:950-993 | sessions compacted with the task in the head: the resumed query carries a call without its result |
| `ResumedLimits.TailCopyOrphansResult` | agent-rs/src/agent.rs:950-993 | sessions compacted with the task first in the tail: the resumed query carries a result without its call |
| `PlanParser.ComputeOrders` | agent-rs/src/clones.rs:67-95 | the two loops compute the orders of the finished blocks |
| `PlanPaths.SaneIsAcceptable` | agent-rs/src/clones.rs:69-91 | the parser's two tests let pass exactly the paths made of non-empty segments, none of them "..", with a suffix |
| `PlanPaths.PieceOrders` | agent-rs/src/clones.rs:84-91 | a header piece that writes a path, behind "./", in quotes and spaces or not, orders the first tracked file that ends in it, or else the path itself, exactly when that is acceptable |
| `PlanText.MarkerIs` | agent-rs/src/clones.rs:68-75 | the lines that close a block are the three markers alone on their line |
| `PlanText.WrittenBlockOrders` | agent-rs/src/clones.rs:67-95 | round trip: a written block orders the acceptable files its header lists, in order, each with the trimmed body and the plan up to the marker, streaming or done |
| `PlanText.OnePathOrders` | agent-rs/src/clones.rs:67-95 | an acceptable path that no tracked file extends gives one order for itself, however it is spelled |
| `PlanText.UnclosedBlockOrders` | agent-rs/src/clones.rs:76-82 | a block without a marker orders its files when the plan is done and nothing before |
| `PlanText.BlockBeforeOpen` | agent-rs/src/clones.rs:76-79 | a block without a marker before the next OPEN ends there |
| `PlanText.EveryStartIsABlock` | agent-rs/src/clones.rs:71-82 | in a finished plan every OPEN whose header line has ended opens a block, in order |
| `PlanText.OrdersExactly` | agent-rs/src/clones.rs:67-95 | any plan orders exactly the files its finished blocks name, each once, as the first block that names it says, and all of them acceptable |
| `PlanStream.PlanSender.Sink` | agent-rs/src/clones.rs:104-120 | one streamed piece sends the orders from the cursor on |
| `PlanStream.SentOnceFinished` | agent-rs/src/clones.rs:104-120 | every order that was finished after some piece has been sent, in its place, and nothing else has |
| `PlanStream.PrefixOrdersPrefix` | agent-rs/src/clones.rs:67-95 | a prefix of a text orders a prefix of its paths, each once, whatever a partial line looks like |
| `PlanStream.StreamAgreesWithBatch` | agent-rs/src/clones.rs:104-120 | for text cut into any pieces the paths sent are a duplicate-free prefix of the finished plan's |
| `PlanSettled.SettledBlock` | agent-rs/src/clones.rs:67-95 | a block that ends at an OPEN or on a finished line is the same, word for word, in the finished plan |
| `PlanSettled.UnsettledBlockChanges` | agent-rs/src/clones.rs:67-95 | any other finished block is changed by one more letter |
| `PlanSettled.SettledOrdersAreFinal` | agent-rs/src/clones.rs:67-95 | a text that does not stop on a marker line yields orders that are a prefix of the finished plan's, path, body and plan |
| `HedgedParents.Dispatch` | agent-rs/src/clones.rs:168-232 | the event loop over any schedule is the run of the transition function |
| `HedgedParents.TakeOrder` | agent-rs/src/clones.rs:186-193 | the first order elects the owner and nobody is elected twice; a path is out afterwards exactly when it was before or the owner ordered it; no path twice, no clone of another stream |
| `HedgedParents.TakeDone` | agent-rs/src/clones.rs:194-231 | leftovers go out; the loop stops, goes on, or starts a twin |
| `HedgedParents.DoneMeans` | agent-rs/src/clones.rs:194-231 | whose leftovers go out, each once; when the loop stops; and when a twin starts |
| `HedgedParents.TwinStartsIff` | agent-rs/src/clones.rs:168-231 | another stream starts exactly when a wait times out or a stream ends with nothing to order and fewer than two are live, while nobody owns the plan and a stream is left |
| `HedgedParents.EveryInterleaving` | agent-rs/src/clones.rs:148-232 | in every interleaving: at most three streams, all clones from one plan, no path twice, a bounded number of events, and while it runs a live stream has still to send; it ends with nothing out only when all three streams have ended and none had anything to order |
| `HedgedParents.EveryOrderedFileOnce` | agent-rs/src/clones.rs:104-232 | parser and dispatcher together: the clones are, in order and each once, the files of one finished plan, or exactly what one that broke off had streamed, which are the first files of every plan it could have become; none are out only when all three ended without an order |
| `Staleness.ReadClaims` | agent-rs/src/context_store.rs:714-727 | every claim is read as it is now or reported, within 256 files and 4 MB; and claims that together keep these limits are reported only when they cannot be read |
| `Staleness.ReadIndex` | agent-rs/src/context_store.rs:747-768 | every indexed file is covered or reported, and all that was read fits a delivery; files for which there is room are reported only when they cannot be read |
| `Staleness.ContextStore.ContractCheck` | agent-rs/src/context_store.rs:714-792 | what a check reads and the manifest it leaves |
| `Staleness.ContextStore.DeliveryStaleness` | agent-rs/src/context_store.rs:161-210 | delivery is allowed if and only if there is no manifest, or it is within budget, unchanged on disk and has nothing unresolved |
| `Staleness.StalenessIsSticky` | agent-rs/src/context_store.rs:770-792 | while findings and contracts stay the same the recorded changes never shrink and delivery stays refused |
| `Staleness.RefreshRestores` | agent-rs/src/context_store.rs:770-792 | once findings or contracts were refreshed, a check that reads everything as it was last recorded makes the coverage deliverable again |
| `Staleness.DeliveredIffUnchanged` | agent-rs/src/context_store.rs:161-210 | what a check stored may be delivered exactly when it is complete, unchanged, and every file reads as it did then |
| `Staleness.ChangesAreJumps` | agent-rs/src/context_store.rs:770-792 | the recorded changes are exactly the differences from one check to the next |
| `Staleness.SkippedFileChangesUnseen` | agent-rs/src/context_store.rs:774-776 | a change across a check that skipped the file is not recorded |
| `ScriptStore.Scripts.Outcome` | agent-rs/src/codejs.rs:114-198 | calls work on a copy that replaces the store only on success in time |
| `ScriptStore.SetFitsIffBounded` | agent-rs/src/codejs.rs:129-134 | a value is taken if and only if the store with it, its old value replaced, is within every limit; and it reads back |
| `ScriptStore.CallMeans` | agent-rs/src/codejs.rs:114-135 | as scripts read it: a deletion takes its key away, a value within the limits is there afterwards, every other key reads as before, and any other call changes nothing |
| `ScriptStore.LastSetIsRead` | agent-rs/src/codejs.rs:114-198 | the last value an execution sets is what the next one reads if it succeeded in time, and otherwise nothing has changed |
| `ScriptStore.CommittedStoreIsBounded` | agent-rs/src/codejs.rs:114-135 | over any executions: at most 64 keys, 16 KB a value, 128 KB in total |
| `ScriptStore.FailuresLeaveNoTrace` | agent-rs/src/codejs.rs:191-198 | dropping every failed, stopped or late execution from a run changes nothing |

## Left out

- Model clients, HTTP, the judges and their prompts, shell execution and hashing: their answers are inputs.
- The texts of summaries, `fallback_summary`, `render_compaction`, and the floating-point tokens-per-character calibration: a compaction takes its budgets in characters and its summary text as parameters.
- `<think>` stripping: plan text is taken as already visible, and the finished text as the text that was streamed.
- The `\w` class of the path pattern is a parameter (`PlanPaths.WordClass` says what is asked of it: no space, quote, comma, slash, dot or dash), and the failure and PASS line patterns of the checker's output are booleans.
- `content_text` and `text_of` are one `text` field; a list of parts is told from a string only where `elide` does.
- `actions_signature` itself, the fuzzy strategy guard and the repeat warnings: a signature is an input string.
- The orchestrator's shell filter, task-intent classifier and the filter on judge gaps: text heuristics.
- ExportCostIsLinear: exports forced by an exit, by time or by the caller, and failed exports, are not in the bound; `Agent.Save` models when the cursor moves.
- Replacing the system messages of a forked worker on resume (agent.rs:977-982) is not modelled.
- Compact: requires the recorded head to be one; where a resumed session has lost it, `Conversation` lets a compaction append any user message.
- ResumeKeepsFrameIff: requires that the summary's own text is not one of the task's encodings.
- ResumedQueryPairedIff: requires that the recorded head still lies before the latest summary; where dropped copies leave it behind, the source lists that summary twice and the model has no view.
- PassIsOwnIff: arguments and redirections of a part are not modelled, so a checker run with `--help` or into `/dev/null` counts as the checker; a `&` joins like `;`, one at the end like another part that succeeds, and a pipeline has the exit code of its last part.
- Dispatch: threads, slots and the clones' own work are not modelled; a stream is the list of events it sends.
- ContractCheck: only the snapshot part; the contract and invariant text checks, the manifest's JSON form, its size limit and key collisions are folded into `readable`, and UTF-8 and path containment into what the tree can read.
- Outcome: the QuickJS runtime, host calls, images and output; the order of the map's entries.
- One run per agent: counters start at zero and are not carried to a second run.
- `computer_use.rs`, `graph_embed.rs`, `dispatch.rs`, `history.ts`, `scroll.ts` and the tables of models and providers: they would only add easy members.
