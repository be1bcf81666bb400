/** The pure decision core `termiclaw/decide.py`: one handler per event. */
module Decide {
  import opened Prelude
  import opened RunState

  /** One id and one timestamp; every transition builds at most one step. */
  datatype Effects = Effects(newId: string, now: string)

  datatype Transition = Transition(state: State, commands: seq<Command>)

  const MAX_CONSECUTIVE_PLANNER_FAILURES := 3
  const PROMPT_VERSION := "2"

  predicate ShouldSummarize(state: State, config: Config) {
    state.totalPromptTokens >= config.summarizationTokenThreshold
  }

  /** `artifact_refresh_trigger`; the empty string means no refresh. */
  function ArtifactRefreshTrigger(state: State, config: Config): string {
    if state.currentStep == 0 then ""
    else if state.currentStep % config.stateDumpIntervalTurns == 0 then "interval"
    else if state.totalPromptTokens >= config.stateDumpTokenThreshold then "token_threshold"
    else ""
  }

  /** `clamp_command_wait`: a zero duration means the whole budget. */
  function ClampCommandWait(command: ParsedCommand, budget: real): real {
    var duration := if command.duration == 0.0 then budget else command.duration;
    if duration <= budget then duration else budget
  }

  function Decide(state: State, event: Event, config: Config, effects: Effects): Transition {
    match event
    case LoopTick(ready, alive) => OnLoopTick(state, config, ready, alive)
    case ObservationCaptured(text, buffer) => OnObservation(state, text, buffer, config)
    case PlannerResponded(parsed, usage) => OnPlannerResponded(state, parsed, usage, config, effects)
    case PlannerFailed(error) => OnPlannerFailed(state, error, effects)
    case CommandAcked(ok) => Transition(state.(pendingBlockingTimeout := !ok), [Observe])
    case SendKeysFailed => Transition(state.(status := Failed), [])
    case SummarizationDone(summary, qa) =>
      Transition(WithSummarization(state, summary, qa),
                 [LogStep(SystemStep("Summarization checkpoint created", effects).(isCopiedContext := true),
                          ZERO_USAGE)])
    case SummarizationFailed => Transition(state.(status := Failed), [])
    case ArtifactsRefreshed(trigger) =>
      Transition(state, [LogStep(SystemStep("Artifacts refreshed (trigger=" + trigger + ")", effects), ZERO_USAGE)])
    case ArtifactsRefreshFailed => Transition(state.(status := Failed), [])
    case StepLogged(step) => Transition(WithStep(state, step), [])
    case SessionDied => Transition(state.(status := Failed), [])
  }

  function OnLoopTick(state: State, config: Config, ready: bool, alive: bool): Transition {
    if !alive then Transition(state.(status := Failed), [])
    else
      var trigger := ArtifactRefreshTrigger(state, config);
      if trigger != "" then Transition(state, [RefreshArtifacts(trigger)])
      else if ready && ShouldSummarize(state, config) then
        Transition(state, [SubmitSummarization(BuildJob(state)), Observe])
      else Transition(state, [Observe])
  }

  function OnObservation(state: State, text: string, nextBuffer: string, config: Config): Transition {
    var buffer := StoredBuffer(nextBuffer, config.captureTailBytes);
    var shown := if state.pendingBlockingTimeout then config.timeoutNotice + text else text;
    var observed := state.(previousBuffer := buffer, pendingBlockingTimeout := false, lastObservation := shown);
    var terminal := if shown == "" then "Shell is ready." else shown;
    var parent :=
      if state.fork.Some? && state.isFirstCall then Some(state.fork.value.resumeParentSession) else None;
    Transition(observed,
               [QueryPlanner(TurnPrompt(state.instruction, terminal, state.summary, state.qaContext),
                             state.isFirstCall, parent, parent.Some?)])
  }

  /** The part of a capture kept for the next diff. */
  function StoredBuffer(nextBuffer: string, tail: nat): string {
    if |nextBuffer| > tail then TailSlice(nextBuffer, tail) else nextBuffer
  }

  function OnPlannerResponded(
    state: State, parsed: ParseResult, usage: PlannerUsage, config: Config, effects: Effects): Transition
  {
    var sessionId :=
      if state.isFirstCall && usage.claudeSessionId != "" then usage.claudeSessionId else state.claudeSessionId;
    var answered := state.(
      totalPromptTokens := state.totalPromptTokens + usage.inputTokens + usage.cacheReadInputTokens,
      claudeSessionId := sessionId, isFirstCall := false, fork := None, consecutivePlannerFailures := 0);
    if parsed.taskComplete then HandleCompletion(answered, parsed, usage, effects)
    else
      var continued := answered.(pendingCompletion := false, lastObservation := "");
      var step := AgentStep(continued, answered.lastObservation, parsed, effects, false);
      Transition(continued, KeyCommands(parsed.commands, config) + [LogStep(step, usage)])
  }

  function KeyCommands(commands: seq<ParsedCommand>, config: Config): seq<Command> {
    seq(|commands|, i requires 0 <= i < |commands| =>
      SendKeys(commands[i].keystrokes, ClampCommandWait(commands[i], config.blockingMaxSeconds)))
  }

  function HandleCompletion(state: State, parsed: ParseResult, usage: PlannerUsage, effects: Effects): Transition {
    if state.pendingCompletion then
      var confirmed := state.(lastObservation := "", status := Succeeded);
      var step := AgentStep(confirmed, state.lastObservation, parsed, effects, true);
      Transition(confirmed, [LogStep(step, usage)])
    else
      Transition(state.(pendingCompletion := true), [QueryPlanner(ConfirmCompletion, false, None, false)])
  }

  function OnPlannerFailed(state: State, error: PlannerError, effects: Effects): Transition {
    var failures := state.consecutivePlannerFailures + 1;
    var counted := state.(consecutivePlannerFailures := failures, isFirstCall := false);
    Transition(if failures >= MAX_CONSECUTIVE_PLANNER_FAILURES then counted.(status := Failed) else counted,
               [LogStep(ErrorStep(error, effects), ZERO_USAGE)])
  }

  function BuildJob(state: State): SummarizationJob {
    SummarizationJob(state.instruction, state.recentSteps, state.currentStep)
  }

  function AgentStep(
    state: State, observation: string, parsed: ParseResult, effects: Effects, taskComplete: bool): StepRecord
  {
    StepRecord(effects.newId, effects.now, "agent", observation, Some(parsed.analysis), Some(parsed.plan),
               parsed.commands, taskComplete, None,
               [("prompt_tokens", IntValue(state.totalPromptTokens)), ("prompt_version", TextValue(PROMPT_VERSION))],
               false)
  }

  function SystemStep(observation: string, effects: Effects): StepRecord {
    StepRecord(effects.newId, effects.now, "system", observation, None, None, [], false, None, [], false)
  }

  function ErrorStep(error: PlannerError, effects: Effects): StepRecord {
    StepRecord(effects.newId, effects.now, "error", "", None, None, [], false,
               Some("Planner failed: " + Describe(error)), [], false)
  }

  /** The message of the error; which one it is plays no part in the loop. */
  function Describe(error: PlannerError): string {
    match error
    case NoAttempts => "claude -p exited 0: no attempts made"
    case TimedOut => "claude -p timed out"
    case ExitStatus(_) => "claude -p exited with an error"
    case Unparsable => "ParseError"
  }
}
