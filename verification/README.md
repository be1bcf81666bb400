# Termiclaw: a verified model

Termiclaw drives a shell inside a container: it observes a terminal, asks the
`claude` CLI what to do, types the keystrokes it is told to, and records every
step. A pure function `decide` maps a state and an event to a new state and
commands; `apply` performs one command and reports one event; a queue feeds
each into the other; a turn loop and a background summarizer surround them. A
tree search (MCTS) runs many such agents concurrently.

This project models that logic in Dafny and proves properties of whole runs
and of all interleavings. Check it with `dafny verify dfyconfig.toml`. The
original program is not executed.

## How the model is laid out

| modules | source | content |
|---|---|---|
| `RunState`, `Decide` | `state.py`, `commands.py`, `events.py`, `decide.py`, `agent_core.py` | the frozen state and the transition function, handler by handler |
| `Shell`, `Planner`, `SummarizeWorker` | `shell.py`, `planner.py`, `summarize_worker.py` | what one command does to the outside, the retry loop, the one-slot worker |
| `Machine` | `agent.py` | the turn loop and the queue as one step function with a history |
| `Agent` | `agent.py`, `shell.py` | the same loops as imperative code over mutable ports, proved to walk `Machine` |
| `DecideHistory`, `DecideContext` | `decide.py`, `state.py` | `decide` folded over any event history |
| `RunQueue`, `RunTermination`, `RunChains`, `RunJournal`, `RunSessions`, `RunSessionIds`, `RunKnownSessions`, `RunCompletion`, `RunFinality`, `RunRefinement`, `RunReplies`, `RunLedger`, `RunUsage`, `RunKeystrokes`, `RunTerminal` | | theorems about every run |
| `RunStarvation`, `RunWitnesses` | | where a guarantee stops: exact conditions, and concrete runs |
| `MctsShape`, `MctsTree`, `Mcts` | `mcts.py` | the search tree, and the lock sections as methods over shared nodes |
| `MctsPlayouts`, `MctsTheorems` | `mcts.py` | all interleavings of the lock sections, and what they keep |
| `Text`, `Container`, `TerminalHistory` | `container.py` | keystroke chunking over UTF-8 lengths (section 3 of RFC 3629), terminal diffing |
| `Stall` | `stall.py` | the stall detector over whole histories |
| `Json`, `Atif` | `trajectory.py`, `atif.py` | the trajectory writer, the exporter's reader, their round trip |

A run is `At(Start(s), config, world, n)`: the machine after n steps, where
`world` is an infinite stream of replies. A reply may be anything: any capture,
any planner output, any ack, the summarizer finishing at any turn, any number
of background CLI attempts between two attempts of the main thread. A
statement for every world and every n is a statement about every moment of
every run. `Fresh(s)` says that s is a state as `agent.run` builds it.
`Agent.RunTurns` ties the running loop to it: what it returns, and what it
leaves in the ports, is the end of such a run.

A schedule of the tree search is any sequence of select, record, backpropagate
and abort actions by any playouts; `MctsPlayouts.After` is the system after it.

## Where the code and its documents differ

The repository's own design text describes the agent loop in its section 4.
The model follows the code where they differ.

- The text says new commands are prepended to the queue; `agent.py:253` appends them.
- The text says there is one planner call per cycle. A first claim of
  completion queries again, and a response with k commands leads to k queries.
- The text says a parse failure becomes the next prompt; `decide.py:271-283`
  logs an error step and queues nothing.
- The text says stall detection runs every iteration and can send `C-c`.
  `decide` never calls it, so the stall theorems are about `detect_stall` itself.
- The text reads as if `max_turns` bounded a run. It bounds the ticks; one
  drive is bounded only by the planner's commands (`RunWitnesses.DriveUnbounded`).

## What turned out false, and exactly when it holds

- "At most the first CLI attempt of a run opens a session" holds in every world
  exactly when the summarization threshold is positive, or the run has no turns
  or no attempts per query (`RunSessions.SessionGuaranteeIff`).
- "Every session a run resumes exists" (it is the parent's, was created by an
  earlier attempt, or was reported by an earlier output) fails for forks: after
  a first answer without a session id, or a failed first query, the run resumes
  an id nothing ever opened. It holds in every world exactly under
  `RunKnownSessions.SessionsExist`: no turns; or the parent's id is the run's
  own; or, with a positive threshold, an unforked run with a retry budget, or a
  run without one that fails before any refresh (`RunKnownSessions.KnownIff`).
- "`max_turns` ends a run" fails against a planner that keeps typing. A run
  returns exactly when the keystroke commands of its planner are bounded
  (`RunTermination.RunEndsIff`).
- "A terminal status is final" fails both ways (`RunWitnesses`). A failed run
  stays failed, and a succeeded one succeeded, in every world exactly under a
  condition on the queue it still has (`RunFinality.FailedFinalIff`,
  `RunFinality.SucceededFinalIff`).
- "A succeeded run ends with its completing step" fails when two chains are
  live; it holds exactly when some decide call took the run from active to
  succeeded (`RunCompletion.CompletingStepIsLast`).
- "Every turn makes progress" fails for good exactly when a step is logged and
  either the refresh interval is one, or the token tally is at the artifact
  threshold with the summarizer idle or a threshold no reset gets below
  (`RunStarvation.StarvedIff`).
- "An observation shows what is new" fails after an empty capture and when the
  scrollback outgrows the stored tail; `TerminalHistory.ShownTruthfulIff` gives
  the exact condition, `TerminalHistory.LongHistoryShows` what is shown instead.
- "The rows add up to what the queries printed" fails by exactly the outputs that
  were first claims of completion, came after the end, or had a body that does
  not validate; it holds exactly if all of those were free
  (`RunUsage.UsageBalance`, `RunUsage.RowsAddUpIff`). Every successful run has
  such an output (`RunUsage.SuccessLosesAClaim`), one that claims and confirms at
  equal cost files half (`RunUsage.HalfIsLost`), and one whose bodies never
  validate files nothing (`RunUsage.GarbledRunFilesNothing`).

## Assumptions

- Run ids are fresh (the source draws them from uuid4).
- The JSON codec writes an entry as one line and reads it back; this is asked
  of the entries at hand only.
- The exploration term of `ucb1` is an arbitrary function of the two visit
  counts; rewards and durations are reals.
- Ports return values; an exception that nothing catches is out of scope,
  except a refused `submit`, which is shown never to happen.
- Prompts and the text of the timeout notice are kept as their parts, and a
  summarization job as the steps its text is rendered from. Screen hashes are
  opaque non-empty digests.
- Token counts, thresholds and counters are unbounded integers, as in Python.
- A run starts active, as `agent.run` builds it; `Machine.Step` ends an
  inactive start at once.

## Model

| member | source | states |
|---|---|---|
| Agent.RunTurns | termiclaw/agent.py:183-211 | For a planner whose keystroke commands are bounded (exactly when the loop returns at all) the turn loop ends, and its result and the ports are the end of a finished machine run; never active; the number of steps is linear in the turn budget and the bound; nothing escaped, and the step counter is the length of the trajectory and of the rows |
| Agent.Drive | termiclaw/agent.py:214-254 | For responses whose keystroke commands are bounded within the drive (exactly when it returns at all) the queue loop follows the machine iteration by iteration until the queue is empty, and terminates by a weighted measure of the queue |
| Agent.Ports.Perform | termiclaw/shell.py:51-98 | One command updates trajectory, rows, attempts and worker exactly as specified and reports the specified event |
| Agent.Ports.TurnEvent | termiclaw/agent.py:193-206 | A turn's first event: a delivered summarization outcome, else a tick whose readiness is read after the poll |
| Agent.Ports.MakeAttempts | termiclaw/agent.py:353-360 | Main-thread attempts with a busy summarizer's resuming attempts interleaved |
| Shell.InterleaveExact | termiclaw/agent.py:353-360 | The main thread's attempts in order, the given number of the summarizer's before each and after the last, and nothing else |
| RunTermination.IterationDescends | termiclaw/agent.py:237-254 | Each iteration lowers SendKeys > Observe > Query > Refresh > Log weights plus the completion bit by one, up to five units per keystroke command of a response |
| RunTermination.PotentialBound | termiclaw/agent.py:192-254 | At step n of an unfinished run, n is at most 2 + 10 * max_turns + 5 * (keystroke commands so far), and at most max_turns turns were opened |
| RunTermination.RunTerminates | termiclaw/agent.py:183-254 | In every world, a planner that sends at most K keystroke commands in total ends the run within 2 + 10 * max_turns + 5 * K steps, in a terminal status |
| RunTermination.RunEndsIff | termiclaw/agent.py:183-254 | In any world a run returns if and only if the total of keystroke commands in its responses is bounded |
| RunTermination.DriveEndsIff | termiclaw/agent.py:232-254 | A drive empties its queue if and only if the keystroke commands within it are bounded |
| RunTermination.FinishedIsTerminal | termiclaw/agent.py:208-211 | A returned run is not active and has nothing queued |
| RunWitnesses.DriveUnbounded | termiclaw/decide.py:286-291 | max_turns does not bound a drive: against a planner that always types one command the first drive is still going after any n steps |
| RunQueue.QueueExact | termiclaw/agent.py:232-254 | Applied commands followed by pending ones are exactly those emitted by turn openings and by re-decides that began active, in order, once each |
| RunQueue.TerminalStays | termiclaw/decide.py:73-104 | "Not active" is absorbing in every world |
| RunQueue.TerminalDrains | termiclaw/agent.py:237-254 | From a terminal status the loop applies exactly what is queued, in order, and returns after exactly that many steps |
| RunKeystrokes.KeystrokesExact | termiclaw/decide.py:198-217 | SendKeys applied and queued are the commands of the working responses made while active, in order, once each, with the wait clamped to the budget and zero meaning the whole budget |
| RunLedger.LedgerExact | termiclaw/decide.py:198-339 | Rows written and log commands queued report exactly the reportable events (agent, error, checkpoint and refresh steps), in order, once each, with their ids, every field of their contents, and usage |
| RunLedger.AgentStepsExact | termiclaw/decide.py:201-233 | Each response filed or queued is recorded, in full, with the latest capture not used up before it and the tokens since the last checkpoint, read off the history |
| RunUsage.UsageBalance | termiclaw/shell.py:169-176 | In a finished run the rows file (tokens, cost, duration) what came with the reported responses, and together with the first claims, the late responses and the outputs whose body does not validate that is everything its queries printed |
| RunUsage.RowsAddUpIff | termiclaw/shell.py:87-98 | The rows add up to what the queries printed if and only if nothing was lost; for usage that is never negative, if and only if every lost output was free |
| RunUsage.LossesSplit | termiclaw/decide.py:234-283 | What is missing from the rows is the sum of the first claims, the late responses and the unreadable outputs |
| RunUsage.SuccessLosesAClaim | termiclaw/decide.py:234-248 | Every run that has succeeded, or has a claim pending, contains a response that was filed nowhere |
| RunUsage.HalfIsLost | termiclaw/shell.py:87-98 | For any usage, a run that claims and confirms at that usage prints it twice, files it once and loses it once |
| RunUsage.GarbledRunFilesNothing | termiclaw/shell.py:171-176 | For any usage, a run whose outputs report it but never validate ends, has made a query, and files nothing of what its queries printed |
| RunChains.ChainsConserved | termiclaw/agent.py:237-254 | While active, live chains in the queue = seeded by turn openings + (commands - 1) per non-completing response - planner failures |
| RunJournal.NeverInterrupts | termiclaw/decide.py:73-104 | No run queues or applies a forced interrupt, whatever it observes |
| RunReplies.EventsExact | termiclaw/shell.py:101-212 | At every moment of every run every event is the one its reply calls for: keystrokes acked as answered, a checkpoint with its summary and its answers, a tick with the session's state, a query with the first output printed or the error of its last attempt |
| RunJournal.StepIndicesExact | termiclaw/shell.py:87-98 | Rows are numbered 0, 1, 2, ... in trajectory order and the step counter is the trajectory's length, at every moment of every run, terminal steps included |
| RunJournal.SubmitNeverRaises | termiclaw/shell.py:82-84 | Submissions minus delivered outcomes is 1 exactly while a job is in flight and else 0, and no submission is refused, whenever jobs finish |
| RunJournal.OneSessionOpened | termiclaw/planner.py:333-344 | With a positive threshold at most the first CLI attempt of a whole run creates or forks a session, counting retries, refreshes and the summarizer however they interleave |
| RunSessions.ZeroThresholdOpensTwice | termiclaw/decide.py:121-127 | With a threshold of zero or less a concrete run opens two sessions |
| RunSessions.SessionGuaranteeIff | termiclaw/decide.py:158-171 | At most the first attempt opens a session, in every world, if and only if the summarization threshold is positive, or the run has no turns or no attempts per query |
| RunSessionIds.AttemptsExact | termiclaw/planner.py:296-344 | With a positive threshold, the session of every attempt of every run: the first creates the run's session or forks the parent's, retries of the first query resume the run's or (in a fork) the parent's, all others resume the session the state names now |
| RunSessionIds.NamesItselfIff | termiclaw/planner.py:333-344 | With a positive threshold, every attempt after the first names the id the run started with or the one it has now (opened or not), in every world, if and only if the run is not forked, makes at most one attempt per query, or has its parent's id |
| RunKnownSessions.KnownIff | termiclaw/planner.py:296-344 | In every world every attempt resumes a session that is the parent's, was created by an earlier attempt, or was reported by an earlier output, if and only if the run has no turns, or has its parent's id, or (threshold positive) is unforked with a retry budget, or has none and fails before any refresh |
| RunKnownSessions.ForkResumesNothing | termiclaw/decide.py:184-192 | A forked run whose first answer names no session resumes, in its first drive, a session nothing ever opened |
| RunKnownSessions.RefreshResumesNothing | termiclaw/shell.py:186-195 | Without a retry budget a refresh resumes a session no query created |
| RunKnownSessions.SummarizerTooEarly | termiclaw/agent.py:353-360 | With a threshold of zero or less the summarizer resumes the run's session before it is created |
| RunSessionIds.ForkRetried | termiclaw/planner.py:339-344 | A forked run whose first attempt times out resumes its parent's session |
| RunCompletion.CompletingStepIsLast | termiclaw/decide.py:228-233 | A returned run's trajectory ends with its only completing step if some decide call took the run from active to succeeded, and otherwise has none |
| RunCompletion.NarrowRunsEndCleanly | termiclaw/agent.py:237-254 | If no response has two commands and nothing is submitted, a terminal status is final and a succeeded run ends with its only completing step |
| RunWitnesses.SucceededWithoutCompletingStep | termiclaw/decide.py:228-233 | A run that fails at step 11, is succeeded at step 13, returns succeeded, and has no completing step |
| RunWitnesses.FailedAfterCompletingStep | termiclaw/agent.py:237-254 | A run that succeeds at step 13 by a confirmed completion, fails at step 14 by keystrokes queued before, returns failed, and ends with its completing step |
| RunFinality.FailedFinalIff | termiclaw/decide.py:228-233 | From any machine that has failed, the status stays failed in every world if and only if it has returned, can make no attempts, or has fewer queries queued than two claims need, counting a pending one |
| RunFinality.SucceededFinalIff | termiclaw/agent.py:237-254 | From any machine that has succeeded, the status stays succeeded in every world if and only if it has returned, or no keystrokes, interrupt or refresh are queued and too few queries for a third failure in a row |
| RunRefinement.AlwaysRefined | termiclaw/agent.py:239-243 | A run's state is decide folded over its events (but for the turn budget running out), and the steps logged in them are the trajectory |
| RunRefinement.EntriesFold | termiclaw/agent.py:232-243 | Every decide call of a run is made from the fold of the events before it, with the id and the time drawn for it |
| RunRefinement.StateRefinesRun | termiclaw/state.py:87-115 | Recent steps are the last min(20, k) of the k trajectory steps since the last checkpoint; the tally counts the responses since then; the failure counter is the current streak, below 3 while active |
| RunRefinement.SuccessTakesTwoClaims | termiclaw/decide.py:220-248 | A succeeded run contains a completing response whose preceding response was completing too |
| RunRefinement.RunStatusExact | termiclaw/agent.py:237-254 | At every moment of every run the status is that of the last event that set one, but for a run that used up its turns |
| RunStarvation.StarvedIff | termiclaw/agent_core.py:30-38 | Between turns with three turns to go, every world applies only refreshes and log steps from here on if and only if a step is logged and the interval is one, or the tally is at the artifact threshold with the summarizer idle or the threshold not positive |
| RunStarvation.RefreshStarvesRun | termiclaw/decide.py:118-120 | Under that condition nothing else is ever applied again and the run cannot succeed, however many turns are left |
| RunStarvation.StarvationReachable | termiclaw/agent_core.py:34-37 | Such runs exist for every budget: with an interval of one after any first response, and else after one that costs the artifact threshold |
| DecideHistory.StatusExact | termiclaw/decide.py:73-348 | Over any event history the status is the one set by the last of: a dead session, broken keystrokes, a failed checkpoint or refresh, a third planner failure in a row, a confirmed completion |
| DecideHistory.DoubleFinish | termiclaw/decide.py:220-248 | Over any event history a decide call makes the run succeeded exactly when its event is a completing response and the previous response was completing |
| DecideHistory.PendingCompletion | termiclaw/decide.py:189-203 | The completion flag is the latest response's claim, across failures, observations and checkpoints |
| DecideHistory.FailureCounter | termiclaw/decide.py:271-283 | The failure counter is the trailing run of failures among planner outcomes, below 3 while active |
| DecideHistory.CountersRefineLog | termiclaw/state.py:87-115 | Step counter, ring buffer and token tally equal plain readings of the history since the last checkpoint |
| DecideHistory.SessionIdChangesOnce | termiclaw/decide.py:184-192 | The session id is the start's until the first planner outcome and never changes after any outcome |
| DecideHistory.SessionIdExact | termiclaw/decide.py:184-192 | The session id is the one the first planner outcome names, if that is a response that names one, and else the start's |
| DecideHistory.TimeoutFlag | termiclaw/decide.py:286-291 | The timeout flag holds exactly when the latest ack or observation is an ack that timed out |
| DecideHistory.StashExact | termiclaw/decide.py:147-156 | Over any event history the stashed observation is the latest capture no working or confirming response has used up, first claims skipped, under the timeout banner exactly when the last keystrokes before it timed out unseen; "" if there is none |
| DecideContext.PromptExact | termiclaw/decide.py:130-172 | Over any history, the query after an observation asks with the run's instruction, the captured text under an exact banner condition, the latest checkpoint, and creates or forks the session exactly while no planner outcome is known |
| DecideContext.TickExact | termiclaw/decide.py:107-127 | Over any history, a tick's commands as a function of the steps logged and the tokens since the last checkpoint, the submitted job holding the last min(20, k) of those steps |
| DecideContext.ResponseExact | termiclaw/decide.py:175-248 | What a response leads to over any history: a first claim to exactly one query with the confirmation prompt; a confirmed one to its step; any other to its keystrokes in order, each with its clamped wait, and its step; the step in full |
| DecideContext.OthersExact | termiclaw/decide.py:271-339 | What every other event leads to, with the steps in full |
| DecideContext.ContextKept | termiclaw/decide.py:300-315 | Summary and answers are those of the latest checkpoint; instruction and fork are the start's until a planner outcome |
| Planner.Query | termiclaw/planner.py:316-390 | The retry loop: attempts up to the first that prints, within the budget, and the last error otherwise |
| Planner.OutcomeExact | termiclaw/planner.py:333-390 | Read off the attempts: the first output printed within the budget, after which no attempt is made; else the error of the last attempt, when the budget is used up |
| Planner.OnlyFirstAttemptOpens | termiclaw/planner.py:296-344 | An attempt asks for a new session exactly if it is the query's first and a first call or a fork |
| SummarizeWorker.SummarizationWorker.Submit | termiclaw/summarize_worker.py:64-70 | Accepted exactly when idle; nothing changes on refusal |
| SummarizeWorker.SummarizationWorker.Poll | termiclaw/summarize_worker.py:72-90 | A finished job's outcome is delivered once and frees the slot |
| Container.FindMaxChunkSize | termiclaw/container.py:258-270 | The binary search finds the longest prefix that fits in the byte budget |
| Text.EncodingReadsBack | termiclaw/container.py:265-265 | The byte count of a character is the length of its UTF-8 encoding (section 3 of RFC 3629), and a decoder reads the character back whatever follows |
| Text.LengthIsEncoded | termiclaw/container.py:244-244 | The byte count of a text is the length of its encoding |
| Text.SpacesExact | termiclaw/container.py:369-369 | Which characters are white space |
| Container.SplitKeys | termiclaw/container.py:242-255 | The loop computes the specified cuts |
| Container.SplitLossless | termiclaw/container.py:242-255 | The chunks concatenate to the input |
| Container.SplitPiecesFit | termiclaw/container.py:242-255 | Each chunk fits or is one character; with 4 bytes or more every chunk fits |
| Container.CutsAreMaximal | termiclaw/container.py:249-254 | Each cut is the longest fitting prefix of what is left, or one character when none fits |
| Container.SplitOptimal | termiclaw/container.py:242-255 | No other way of cutting non-empty keys into sendable pieces uses fewer of them, for every byte budget |
| TerminalHistory.StoredBefore | termiclaw/decide.py:139-147 | Before every observation the stored buffer is the exact tail of the previous capture (the whole of it for a tail of zero, nothing before the first) |
| TerminalHistory.ShownExact | termiclaw/container.py:366-376 | For any captures and tail, the text of an observation: the screen if nothing is kept of the previous capture; a reset if what is kept is no prefix; what follows it if that shows anything; else the screen |
| TerminalHistory.ShownTruthfulIff | termiclaw/container.py:366-376 | On a growing scrollback any observation, the first included, shows what is new exactly if: after an empty capture, only white space is new; else the previous capture fitted in the tail, or its last characters repeat its first and only white space follows those |
| TerminalHistory.LongHistoryShows | termiclaw/container.py:366-376 | What a growing scrollback longer than the tail is reported as: a reset unless its last `tail` characters repeat its first; then everything past those, old or new, as new output, or the screen if that is white space |
| TerminalHistory.LongHistoriesMislead | termiclaw/container.py:366-376 | One input reported as a reset, and one where old text is reported as new |
| TerminalHistory.ReadBackIsDelta | termiclaw/container.py:366-372 | With nothing cut off, the text of an observation alone gives the new output, but for output that is only white space |
| TerminalHistory.ReportsRebuildHistory | termiclaw/container.py:354-376 | While captures fit in the tail, the first one and the texts that follow rebuild the scrollback up to white space, and exactly if and only if no new output was white space only |
| RunTerminal.ObservationsExact | termiclaw/decide.py:130-147 | At every moment of every run the stored buffer is what its captures so far leave, and its observation texts are what those captures report |
| RunTerminal.TextsExact | termiclaw/container.py:366-376 | Each observation text of a run, for any captures, in the same four cases over the captures and the tail |
| RunTerminal.RunReportsTerminal | termiclaw/shell.py:101-107 | A run's observation texts alone rebuild its terminal in the same sense, while the scrollback grows and fits |
| Stall.StreaksAreRuns | termiclaw/stall.py:113-128 | Each streak is the trailing run of equal digests minus one, over any history |
| Stall.SignalExact | termiclaw/stall.py:130-139 | The interrupt fires exactly when the last N + 1 keystroke or observation digests are equal, with the nudges exactly below it |
| Atif.TrajectoryFile.AppendStep | termiclaw/trajectory.py:61-67 | The file is the text of the steps written so far, plus this one |
| Atif.ParseToolCalls | termiclaw/atif.py:173-192 | The loop reads every object of the list, in order, and skips the rest |
| Atif.LoadTrajectory | termiclaw/atif.py:132-150 | The loop reads the steps of the well-formed lines, in order |
| Atif.StepKept | termiclaw/atif.py:153-216 | A written entry is read back as the step in normal form |
| Atif.NormalMetrics | termiclaw/atif.py:204-228 | The five metrics of the normal form, in the values written: an integer is itself, a float is cut towards zero (itself for the cost), a text or nothing is 0 |
| Atif.RoundTrip | termiclaw/atif.py:132-150 | Exporting any written list of steps gives back the same steps in the same order, each in normal form |
| Atif.TornWriteSkipped | termiclaw/atif.py:139-146 | A torn last write loses that step only |
| Atif.MalformedLineSkipped | termiclaw/atif.py:139-149 | A malformed line costs nothing of what surrounds it |
| Atif.PaddedLineKept | termiclaw/atif.py:139-141 | White space around an entry does not matter, and a blank line is no entry |
| Json.FirstBreak | termiclaw/atif.py:138-138 | A line ends at its first break, of one character or "\r\n", and the rest is split alike |
| Json.StripExact | termiclaw/atif.py:139-139 | All white space is taken off both ends, and nothing else |
| Mcts.MctsSearch.Select | termiclaw/mcts.py:245-256 | Returns a childless node at the end of a descent that always takes the first child of greatest UCB1 score; terminates |
| Mcts.MctsSearch.ScoreChildren | termiclaw/mcts.py:250-254 | The UCB1 scores of a node's children, in order |
| Mcts.MaxIndex | termiclaw/mcts.py:251-254 | Python's max: the first of the greatest |
| Mcts.MctsSearch.RecordNewNode | termiclaw/mcts.py:281-296 | Inserts a fresh leaf under the parent and changes nothing else |
| Mcts.Node.AddReward | termiclaw/mcts.py:304-308 | One node's counters take in one reward; a reward must exceed the best to replace it |
| Mcts.MctsSearch.Backprop | termiclaw/mcts.py:298-312 | Credits exactly the nodes above the leaf and the leaf; terminates |
| Mcts.MctsSearch.BestChild | termiclaw/mcts.py:317-325 | The first child of highest mean reward, None exactly for a childless node |
| Mcts.MctsSearch.RunPlayout | termiclaw/mcts.py:227-243 | One undisturbed playout: nothing changes if the simulation fails; else a leaf under the end of a complete UCB1 descent, then credit |
| Mcts.MctsSearch.TakeTurn | termiclaw/mcts.py:227-243 | The turn of a playout appends exactly the action it prescribes, when possible, and else changes nothing: a selection at the end of a complete UCB1 descent, a record with that turn's run, reward and round-robin prompt, a credit or an abort |
| Mcts.MctsSearch.Run | termiclaw/mcts.py:145-175 | For any number of workers and any order of their lock sections the search is the schedule its turns prescribe one by one, a schedule of the concurrent system; the root's counters are those of the completed playouts, begun = held + aborted + completed; it takes at most three lock sections a playout, and once drained only the failed playouts are missing at the root; the result is the root's best child or the root |
| Mcts.PlayedUnique | termiclaw/mcts.py:158-160 | The order of the turns determines the search |
| Mcts.DescentUnique | termiclaw/mcts.py:245-256 | Selection is determined by the tree |
| Mcts.UnvisitedFirst | termiclaw/mcts.py:87-93 | A descent goes on to the first unvisited child if there is one |
| Mcts.VisitedBest | termiclaw/mcts.py:87-93 | Where every child is visited a descent goes on to the first child of greatest mean reward plus exploration term, the mean being what times the visits gives the total |
| Mcts.BestMeanExact | termiclaw/mcts.py:81-84 | The best child against any other, cross-multiplied: rewards times the other's visits, the first of equals, an unvisited child counting as mean zero |
| MctsPlayouts.AlwaysSound | termiclaw/mcts.py:227-312 | At every lock release of every schedule the tree is rooted and well-founded, the counters are right, every node belongs to one playout, and no node is crowded |
| MctsTheorems.CountersExact | termiclaw/mcts.py:298-312 | visits and total_reward are the count and reward sum of the backpropagated playouts of the subtree; best_reward is their maximum with 0, attained first by the named run |
| MctsTheorems.NodesAndRewardsOriginate | termiclaw/mcts.py:281-296 | Every node but the root was recorded by an action of the schedule, with its prompt variant, under the leaf its playout had selected; every reward credited is the one its action brought |
| MctsTheorems.VisitsConserved | termiclaw/mcts.py:302-312 | visits = own (0 or 1) + sum over children, and root visits = completed playouts, in every interleaving |
| MctsTheorems.PlayoutsAccounted | termiclaw/mcts.py:158-160 | started = in flight + aborted + completed, within the number of playouts and workers |
| MctsTheorems.FanOutBounded | termiclaw/mcts.py:245-256 | Children plus playouts simulating from a node never exceed the workers |
| MctsTheorems.SearchIsBounded | termiclaw/mcts.py:158-160 | No schedule of lock sections that could all happen is longer than three per playout |
| MctsTheorems.SearchGoesOn | termiclaw/mcts.py:158-160 | While a playout has not begun or is in flight, some worker can take a turn other than failing |
| MctsTheorems.DrainedIff | termiclaw/mcts.py:158-172 | No turn can be taken if and only if every playout has begun and none is in flight; then root visits + failed playouts = playouts |
| MctsTheorems.SearchCanFinish | termiclaw/mcts.py:158-160 | From anywhere the search can be finished without another failure |
| MctsTheorems.SingleWorkerChain | termiclaw/mcts.py:158-159 | With one worker the tree is a single chain |
| MctsTheorems.VisitsAreSubtreeSizes | termiclaw/mcts.py:281-312 | With nothing in flight a node's visits are the size of its subtree |

## Left out

- Agent.RunTurns: requires a bound on the planner's keystroke commands, because the source's loop returns exactly then (`RunTermination.RunEndsIff`); runs that never return are covered moment by moment by the theorems about `At`.
- Agent.Drive: requires such a bound within the drive, for the same reason (`RunTermination.DriveEndsIff`).
- RunStarvation.StarvedIff: asks for three more turns in the budget; with fewer, a run may end before the observation it could still have made.
- Docker, tmux, `claude -p` and SQLite effects: they are the replies of a world.
- Exceptions that escape the loop (a dead session during an observation, an artifact refresh raising anything but its own error) and Ctrl-C: runs without them are modelled.
- Provisioning, teardown, run metadata and the final artifact snapshot: plumbing around the loop.
- Floating-point rounding in `ucb1`, mean rewards and waits: reals.
- `_persist_node`, the search rows, and the list of nodes `_backprop` hands to them: counters are read there outside the lock.
- `_simulate`, `_score_run` and prompt composition of the search: a playout's run id and reward are any.
- The thread pool itself: `Run` takes the order of the lock sections as an input.
- The `stall` counters inside the run state, nudges and `ForceInterrupt`: the loop never reads or emits them; the command itself is modelled.
- `tmux_session`, `container_id`, `started_at` of the state: passed to ports only.
- The usage of refresh and summarizer calls, and of attempts that exit with an error: nothing files it, and the usage theorems count the outputs of queries.
- The argv of a CLI attempt beyond its session arguments, prompts and their wording, parsing of planner output.
- `send_keys` and `send_and_wait_idle` around the chunking: special keys, marker echo and polling; their answer is an ack or a failure.
- Lone surrogates in keystrokes, which Python cannot encode.
- CLI attempts of a summarizer that outlives the run.
- JSON text syntax, and floats that JSON cannot carry (nan, infinities).
- `truncate_output`, `tail_bytes`, `read_trajectory_text`, run listing, the CLI, logging, tagging and task files: nothing the loop depends on.
