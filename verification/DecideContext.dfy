/** What `decide` asks for, as a function of the history alone: the planner's
    prompt after an observation, and the commands of a loop tick. */
module DecideContext {
  import opened Prelude
  import opened RunState
  import opened Decide
  import opened DecideHistory

  /** The latest checkpoint's summary and answers, if there is one. */
  function Checkpoint(inputs: seq<Input>): Option<(string, string)> {
    var c := LastCheckpoint(inputs);
    if c == 0 then None else Some((inputs[c - 1].event.summary, inputs[c - 1].event.qaContext))
  }

  function First<A, B>(pair: Option<(A, B)>): Option<A> {
    if pair.Some? then Some(pair.value.0) else None
  }

  function Second<A, B>(pair: Option<(A, B)>): Option<B> {
    if pair.Some? then Some(pair.value.1) else None
  }

  /** How one decide call moves the fields a prompt is built from. */
  lemma ContextAfter(s: State, event: Event, config: Config, effects: Effects)
    ensures var t := Decide.Decide(s, event, config, effects).state;
            && t.instruction == s.instruction && t.runId == s.runId
            && (!event.PlannerResponded? ==> t.fork == s.fork)
            && t.summary == (if event.SummarizationDone? then Some(event.summary) else s.summary)
            && t.qaContext == (if event.SummarizationDone? then Some(event.qaContext) else s.qaContext)
  {
    hide KeyCommands, AgentStep, SystemStep, ErrorStep, ArtifactRefreshTrigger, StoredBuffer, BuildJob, TailSlice;
  }

  lemma {:induction false} ContextKept(start: State, config: Config, inputs: seq<Input>)
    requires Fresh(start)
    ensures var s := Fold(start, config, inputs);
            && s.instruction == start.instruction
            && (Outcomes(inputs) == [] ==> s.fork == start.fork)
            && s.summary == First(Checkpoint(inputs)) && s.qaContext == Second(Checkpoint(inputs))
  {
    hide Decide.Decide;
    if inputs != [] {
      var front, next := DropLast(inputs), Last(inputs);
      ContextKept(start, config, front);
      ContextAfter(Fold(start, config, front), next.event, config, next.effects);
    }
  }

  /** What the planner is asked after an observation: the run's instruction, the
      captured text (with the timeout banner exactly when the last keystrokes
      timed out unseen), and the latest checkpoint; the session is created, or
      the parent's forked, exactly while no planner outcome is known. */
  lemma PromptExact(
    start: State, config: Config, inputs: seq<Input>, text: string, nextBuffer: string, effects: Effects)
    requires Fresh(start)
    ensures var s := Fold(start, config, inputs);
            var shown := (if Blocked(inputs) then config.timeoutNotice else "") + text;
            var first := Outcomes(inputs) == [];
            var parent := if first && start.fork.Some? then Some(start.fork.value.resumeParentSession) else None;
            Decide.Decide(s, ObservationCaptured(text, nextBuffer), config, effects).commands
            == [QueryPlanner(
                  TurnPrompt(start.instruction, if shown == "" then "Shell is ready." else shown,
                             First(Checkpoint(inputs)), Second(Checkpoint(inputs))),
                  first, parent, parent.Some?)]
  {
    hide Blocked, Checkpoint, Fold, Outcomes, TrailingFailures;
    ContextKept(start, config, inputs);
    TimeoutFlag(start, config, inputs);
    FailureCounter(start, config, inputs);
    assert "" + text == text;
  }

  /** A loop tick decided from the log: refresh on every interval-th step or
      over the artifact threshold; else observe, after submitting the last
      min(20, k) steps since the last checkpoint if the worker is ready and the
      responses since then have cost the summarization threshold. */
  lemma TickExact(start: State, config: Config, inputs: seq<Input>, ready: bool, alive: bool, effects: Effects)
    requires Fresh(start)
    ensures var t := Decide.Decide(Fold(start, config, inputs), LoopTick(ready, alive), config, effects);
            var steps, tokens := |Logged(inputs)|, PromptTokens(Since(inputs));
            t.commands
            == if !alive then []
               else if steps > 0 && steps % config.stateDumpIntervalTurns == 0 then [RefreshArtifacts("interval")]
               else if steps > 0 && tokens >= config.stateDumpTokenThreshold then [RefreshArtifacts("token_threshold")]
               else if ready && tokens >= config.summarizationTokenThreshold then
                 [SubmitSummarization(
                    SummarizationJob(start.instruction, LastN(Logged(Since(inputs)), 20), steps)),
                  Observe]
               else [Observe]
  {
    hide Checkpoint, Fold, Logged, PromptTokens, Since, LastN;
    ContextKept(start, config, inputs);
    CountersRefineLog(start, config, inputs);
  }

  /** What becomes of a keystroke command of the planner: typed as it is, with
      the wait it asks for within the budget, none asked for meaning all of it. */
  function Typed(command: ParsedCommand, config: Config): Command {
    SendKeys(command.keystrokes,
             if command.duration == 0.0 || command.duration > config.blockingMaxSeconds
             then config.blockingMaxSeconds else command.duration)
  }

  /** The step that records a response. */
  function ResponseStep(
    inputs: seq<Input>, parsed: ParseResult, usage: PlannerUsage, config: Config, effects: Effects): StepRecord
  {
    var tokens := PromptTokens(Since(inputs)) + usage.inputTokens + usage.cacheReadInputTokens;
    StepRecord(effects.newId, effects.now, "agent", Stash(inputs, config),
               Some(parsed.analysis), Some(parsed.plan), parsed.commands, parsed.taskComplete, None,
               [("prompt_tokens", IntValue(tokens)), ("prompt_version", TextValue("2"))], false)
  }

  /** What a response leads to, over any history. A first claim of completion:
      exactly one query, with the confirmation prompt, in the running session. A
      confirmed one: its step. Any other: its keystrokes in order, and its step. */
  lemma ResponseExact(
    start: State, config: Config, inputs: seq<Input>, parsed: ParseResult, usage: PlannerUsage, effects: Effects)
    requires Fresh(start)
    ensures var event := PlannerResponded(parsed, usage);
            var commands := Decide.Decide(Fold(start, config, inputs), event, config, effects).commands;
            var log := LogStep(ResponseStep(inputs, parsed, usage, config, effects), usage);
            if Confirms(inputs, event) then commands == [log]
            else if parsed.taskComplete then commands == [QueryPlanner(ConfirmCompletion, false, None, false)]
            else && |commands| == |parsed.commands| + 1
                 && (forall i | 0 <= i < |parsed.commands| :: commands[i] == Typed(parsed.commands[i], config))
                 && Last(commands) == log
  {
    hide Fold, Stash, PromptTokens, Since, Responses, Logged;
    ClaimConfirms(start, config, inputs, PlannerResponded(parsed, usage));
    StashExact(start, config, inputs);
    CountersRefineLog(start, config, inputs);
  }

  /** What every other event leads to: an ack observes, a failure of the planner
      logs an error and queues nothing else, a checkpoint and a refresh log a
      step, and what fails the run or merely logs leads to nothing. */
  lemma OthersExact(s: State, event: Event, config: Config, effects: Effects)
    requires !event.LoopTick? && !event.ObservationCaptured? && !event.PlannerResponded?
    ensures var commands := Decide.Decide(s, event, config, effects).commands;
            match event
            case CommandAcked(_) => commands == [Observe]
            case PlannerFailed(error) =>
              commands == [LogStep(StepRecord(effects.newId, effects.now, "error", "", None, None, [], false,
                                              Some("Planner failed: " + Describe(error)), [], false), ZERO_USAGE)]
            case SummarizationDone(_, _) =>
              commands == [LogStep(StepRecord(effects.newId, effects.now, "system", "Summarization checkpoint created",
                                              None, None, [], false, None, [], true), ZERO_USAGE)]
            case ArtifactsRefreshed(trigger) =>
              commands == [LogStep(StepRecord(effects.newId, effects.now, "system",
                                              "Artifacts refreshed (trigger=" + trigger + ")",
                                              None, None, [], false, None, [], false), ZERO_USAGE)]
            case _ => commands == []
  {
    hide OnPlannerResponded, OnObservation, OnLoopTick, Describe;
  }
}
