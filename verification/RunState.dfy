/** The frozen run state of `termiclaw/state.py` and the records of
    `termiclaw/models.py`, `commands.py` and `events.py`. */
module RunState {
  import opened Prelude

  datatype RunStatus = Active | Succeeded | Failed | Cancelled

  datatype ParsedCommand = ParsedCommand(keystrokes: string, duration: real)

  datatype ParseResult = ParseResult(
    analysis: string, plan: string, commands: seq<ParsedCommand>, taskComplete: bool)

  datatype Scalar = IntValue(number: int) | FloatValue(amount: real) | TextValue(text: string)

  datatype StepRecord = StepRecord(
    stepId: string,
    timestamp: string,
    source: string,
    observation: string,
    analysis: Option<string>,
    plan: Option<string>,
    commands: seq<ParsedCommand>,
    taskComplete: bool,
    error: Option<string>,
    metrics: seq<(string, Scalar)>,
    isCopiedContext: bool)

  datatype PlannerUsage = PlannerUsage(
    inputTokens: int,
    cacheReadInputTokens: int,
    outputTokens: int,
    costUsd: real,
    durationMs: int,
    claudeSessionId: string)

  const ZERO_USAGE := PlannerUsage(0, 0, 0, 0.0, 0, "")

  datatype ForkContext = ForkContext(
    parentRunId: string, forkedAtStep: nat, resumeParentSession: string)

  datatype State = State(
    runId: string,
    instruction: string,
    status: RunStatus,
    claudeSessionId: string,
    maxTurns: nat,
    fork: Option<ForkContext>,
    currentStep: nat,
    previousBuffer: string,
    summary: Option<string>,
    qaContext: Option<string>,
    totalPromptTokens: int,
    recentSteps: seq<StepRecord>,
    pendingCompletion: bool,
    pendingBlockingTimeout: bool,
    isFirstCall: bool,
    consecutivePlannerFailures: nat,
    lastObservation: string)

  type Positive = n: int | 0 < n witness 1

  /** The configuration fields the loop reads. `timeoutNotice` is the rendered
      text of `format_blocking_timeout_notice`. */
  datatype Config = Config(
    plannerRetries: nat,
    summarizationTokenThreshold: int,
    captureTailBytes: nat,
    blockingMaxSeconds: real,
    stateDumpIntervalTurns: Positive,
    stateDumpTokenThreshold: int,
    timeoutNotice: string)

  /** A planner prompt, kept as the parts `build_prompt` is given. */
  datatype Prompt =
    | TurnPrompt(instruction: string, terminal: string, summary: Option<string>, qaContext: Option<string>)
    | ConfirmCompletion

  datatype SummarizationJob = SummarizationJob(
    instruction: string, recentSteps: seq<StepRecord>, completedSteps: nat)

  datatype Command =
    | Observe
    | SendKeys(keystrokes: string, maxSeconds: real)
    | ForceInterrupt(reason: string)
    | QueryPlanner(prompt: Prompt, firstCall: bool, resumeParent: Option<string>, forkSession: bool)
    | SubmitSummarization(job: SummarizationJob)
    | RefreshArtifacts(trigger: string)
    | LogStep(step: StepRecord, usage: PlannerUsage)

  datatype PlannerError =
    | NoAttempts
    | TimedOut
    | ExitStatus(code: int)
    | Unparsable

  datatype Event =
    | LoopTick(summarizeReady: bool, sessionAlive: bool)
    | ObservationCaptured(text: string, nextBuffer: string)
    | PlannerResponded(parsed: ParseResult, usage: PlannerUsage)
    | PlannerFailed(plannerError: PlannerError)
    | CommandAcked(blockedOk: bool)
    | SendKeysFailed
    | SummarizationDone(summary: string, qaContext: string)
    | SummarizationFailed
    | ArtifactsRefreshed(trigger: string)
    | ArtifactsRefreshFailed
    | StepLogged(step: StepRecord)
    | SessionDied

  const MAX_RECENT := 20

  /** `with_step`: append to the ring buffer and bump the step counter. */
  function WithStep(state: State, step: StepRecord): State {
    state.(currentStep := state.currentStep + 1,
           recentSteps := TailSlice(state.recentSteps + [step], MAX_RECENT))
  }

  /** `with_summarization`: a checkpoint resets the token tally and recent steps. */
  function WithSummarization(state: State, summary: string, qaContext: string): State {
    state.(summary := Some(summary), qaContext := Some(qaContext),
           totalPromptTokens := 0, recentSteps := [])
  }

  /** The state `agent.run` hands to the turn loop. */
  function InitialState(
    runId: string, instruction: string, sessionId: string, maxTurns: nat, fork: Option<ForkContext>): State
  {
    State(runId, instruction, Active, sessionId, maxTurns, fork, 0, "", None, None, 0, [],
          false, false, true, 0, "")
  }
}
