/** What the incremental state means: `decide` folded over any event history,
    compared with plain definitions on the history itself. */
module DecideHistory {
  import opened Prelude
  import opened RunState
  import opened Decide

  datatype Input = Input(event: Event, effects: Effects)

  function Fold(start: State, config: Config, inputs: seq<Input>): State {
    if inputs == [] then start
    else Decide.Decide(Fold(start, config, DropLast(inputs)), Last(inputs).event, config, Last(inputs).effects).state
  }

  predicate Fresh(state: State) {
    state == InitialState(state.runId, state.instruction, state.claudeSessionId, state.maxTurns, state.fork)
  }

  // What happened, read off the history -----------------------------------

  /** The planner's outcomes in order: a response, or a failure. */
  function Outcomes(inputs: seq<Input>): seq<Option<ParseResult>> {
    if inputs == [] then []
    else
      match Last(inputs).event
      case PlannerResponded(parsed, _) => Outcomes(DropLast(inputs)) + [Some(parsed)]
      case PlannerFailed(_) => Outcomes(DropLast(inputs)) + [None]
      case _ => Outcomes(DropLast(inputs))
  }

  /** The planner's responses in order, failures skipped. */
  function Responses(inputs: seq<Input>): seq<ParseResult> {
    if inputs == [] then []
    else if Last(inputs).event.PlannerResponded? then Responses(DropLast(inputs)) + [Last(inputs).event.parsed]
    else Responses(DropLast(inputs))
  }

  function Logged(inputs: seq<Input>): seq<StepRecord> {
    if inputs == [] then []
    else if Last(inputs).event.StepLogged? then Logged(DropLast(inputs)) + [Last(inputs).event.step]
    else Logged(DropLast(inputs))
  }

  function PromptTokens(inputs: seq<Input>): int {
    if inputs == [] then 0
    else
      match Last(inputs).event
      case PlannerResponded(_, usage) =>
        PromptTokens(DropLast(inputs)) + usage.inputTokens + usage.cacheReadInputTokens
      case _ => PromptTokens(DropLast(inputs))
  }

  /** How many inputs there are up to and including the last checkpoint. */
  function LastCheckpoint(inputs: seq<Input>): (c: nat)
    ensures c <= |inputs|
    ensures c > 0 ==> inputs[c - 1].event.SummarizationDone?
    ensures forall i | c <= i < |inputs| :: !inputs[i].event.SummarizationDone?
  {
    if inputs == [] then 0
    else if Last(inputs).event.SummarizationDone? then |inputs|
    else LastCheckpoint(DropLast(inputs))
  }

  /** The last k outcomes are failures, and no more than k. */
  predicate TrailingFailures(outcomes: seq<Option<ParseResult>>, k: nat) {
    && k <= |outcomes|
    && (forall i | |outcomes| - k <= i < |outcomes| :: outcomes[i].None?)
    && (k < |outcomes| ==> outcomes[|outcomes| - k - 1].Some?)
  }

  // The incremental state agrees ------------------------------------------

  /** How one decide call moves the counters of the log. */
  lemma CountersAfter(s: State, event: Event, config: Config, effects: Effects)
    ensures var t := Decide.Decide(s, event, config, effects).state;
            && t.maxTurns == s.maxTurns
            && t.currentStep == s.currentStep + (if event.StepLogged? then 1 else 0)
            && t.recentSteps == (match event
                                 case SummarizationDone(_, _) => []
                                 case StepLogged(step) => LastN(s.recentSteps + [step], MAX_RECENT)
                                 case _ => s.recentSteps)
            && t.totalPromptTokens == (match event
                                       case SummarizationDone(_, _) => 0
                                       case PlannerResponded(_, usage) =>
                                         s.totalPromptTokens + usage.inputTokens + usage.cacheReadInputTokens
                                       case _ => s.totalPromptTokens)
  {
    hide KeyCommands, AgentStep, SystemStep, ErrorStep, ArtifactRefreshTrigger, StoredBuffer, BuildJob;
  }

  /** How one decide call moves the planner's flags and the status. */
  lemma FlagsAfter(s: State, event: Event, config: Config, effects: Effects)
    ensures var t := Decide.Decide(s, event, config, effects).state;
            && t.consecutivePlannerFailures == (match event
                                                case PlannerResponded(_, _) => 0
                                                case PlannerFailed(_) => s.consecutivePlannerFailures + 1
                                                case _ => s.consecutivePlannerFailures)
            && t.pendingCompletion
               == (if event.PlannerResponded? then event.parsed.taskComplete else s.pendingCompletion)
            && t.isFirstCall == (s.isFirstCall && !event.PlannerResponded? && !event.PlannerFailed?)
            && (!s.isFirstCall || !event.PlannerResponded? ==> t.claudeSessionId == s.claudeSessionId)
            && (!s.status.Active? ==> !t.status.Active?)
            && (t.status.Active? && event.PlannerFailed? ==>
                  s.consecutivePlannerFailures + 1 < MAX_CONSECUTIVE_PLANNER_FAILURES)
            && (t.status.Succeeded? <==>
                  || (event.PlannerResponded? && event.parsed.taskComplete && s.pendingCompletion)
                  || (s.status.Succeeded? && t.status == s.status))
  {
    hide KeyCommands, AgentStep, SystemStep, ErrorStep, ArtifactRefreshTrigger, StoredBuffer, BuildJob, TailSlice;
  }

  lemma {:induction false} FailureCounter(start: State, config: Config, inputs: seq<Input>)
    requires Fresh(start)
    ensures var s := Fold(start, config, inputs);
            && TrailingFailures(Outcomes(inputs), s.consecutivePlannerFailures)
            && (s.status.Active? ==> s.consecutivePlannerFailures < MAX_CONSECUTIVE_PLANNER_FAILURES)
            && (s.isFirstCall <==> Outcomes(inputs) == [])
            && s.maxTurns == start.maxTurns
  {
    hide Decide.Decide;
    if inputs != [] {
      FailureCounter(start, config, DropLast(inputs));
      CountersAfter(Fold(start, config, DropLast(inputs)), Last(inputs).event, config, Last(inputs).effects);
      FlagsAfter(Fold(start, config, DropLast(inputs)), Last(inputs).event, config, Last(inputs).effects);
    }
  }

  /** The completion flag is the latest response's claim, whatever failures,
      observations or checkpoints came after it. */
  lemma {:induction false} PendingCompletion(start: State, config: Config, inputs: seq<Input>)
    requires Fresh(start)
    ensures Fold(start, config, inputs).pendingCompletion
            <==> Responses(inputs) != [] && Last(Responses(inputs)).taskComplete
  {
    hide Decide.Decide;
    if inputs != [] {
      PendingCompletion(start, config, DropLast(inputs));
      FlagsAfter(Fold(start, config, DropLast(inputs)), Last(inputs).event, config, Last(inputs).effects);
    }
  }

  predicate Confirms(inputs: seq<Input>, event: Event) {
    && event.PlannerResponded?
    && event.parsed.taskComplete
    && Responses(inputs) != []
    && Last(Responses(inputs)).taskComplete
  }

  /** Double finish: a decide call makes the run succeeded exactly when it is
      given a completing response whose predecessor was completing too. */
  lemma DoubleFinish(start: State, config: Config, inputs: seq<Input>, next: Input)
    requires Fresh(start)
    ensures var before := Fold(start, config, inputs).status;
            var after := Fold(start, config, inputs + [next]).status;
            && (Confirms(inputs, next.event) ==> after == Succeeded)
            && (before != Succeeded ==> (after == Succeeded <==> Confirms(inputs, next.event)))
  {
    hide Decide.Decide;
    PendingCompletion(start, config, inputs);
    SnocParts(inputs, next);
    FlagsAfter(Fold(start, config, inputs), next.event, config, next.effects);
  }

  function Since(inputs: seq<Input>): seq<Input> {
    inputs[LastCheckpoint(inputs)..]
  }

  lemma SinceGrows(inputs: seq<Input>)
    requires inputs != []
    ensures Since(inputs)
         == if Last(inputs).event.SummarizationDone? then [] else Since(DropLast(inputs)) + [Last(inputs)]
  {
  }

  lemma ReadSnoc(inputs: seq<Input>, next: Input)
    ensures Logged(inputs + [next]) == Logged(inputs) + (if next.event.StepLogged? then [next.event.step] else [])
    ensures PromptTokens(inputs + [next])
         == PromptTokens(inputs)
            + (match next.event case PlannerResponded(_, u) => u.inputTokens + u.cacheReadInputTokens case _ => 0)
  {
    SnocParts(inputs, next);
  }

  /** The ring buffer forgets nothing a longer log would still show. */
  lemma RingGrows<T>(log: seq<T>, x: T, n: nat)
    requires n > 0
    ensures LastN(LastN(log, n) + [x], n) == LastN(log + [x], n)
  {
  }

  /** The step counter, the ring buffer and the token tally refine the log. */
  lemma {:induction false} CountersRefineLog(start: State, config: Config, inputs: seq<Input>)
    requires Fresh(start)
    ensures var s := Fold(start, config, inputs);
            && s.currentStep == |Logged(inputs)|
            && s.recentSteps == LastN(Logged(Since(inputs)), MAX_RECENT)
            && s.totalPromptTokens == PromptTokens(Since(inputs))
  {
    if inputs != [] {
      hide Decide.Decide, Since, Logged, PromptTokens, LastN, LastCheckpoint, WithStep;
      var front, next := DropLast(inputs), Last(inputs);
      CountersRefineLog(start, config, front);
      CountersAfter(Fold(start, config, front), next.event, config, next.effects);
      assert inputs == front + [next];
      ReadSnoc(front, next);
      SinceGrows(inputs);
      if next.event.SummarizationDone? {
        NothingRead();
      } else {
        ReadSnoc(Since(front), next);
        if next.event.StepLogged? {
          RingGrows(Logged(Since(front)), next.event.step, MAX_RECENT);
        }
      }
    }
  }

  lemma NothingRead()
    ensures Logged([]) == [] && PromptTokens([]) == 0 && LastN<StepRecord>([], MAX_RECENT) == []
  {
  }

  /** The session id can change only with the first planner outcome: it is the
      start's until then, and after any outcome it stays what it is. */
  lemma {:induction false} SessionIdChangesOnce(start: State, config: Config, inputs: seq<Input>, k: nat)
    requires Fresh(start) && k <= |inputs|
    ensures Outcomes(inputs) == [] ==> Fold(start, config, inputs).claudeSessionId == start.claudeSessionId
    ensures Outcomes(inputs[..k]) != [] ==>
              Fold(start, config, inputs).claudeSessionId == Fold(start, config, inputs[..k]).claudeSessionId
  {
    hide Decide.Decide;
    if inputs != [] {
      var front := DropLast(inputs);
      var j := if k < |inputs| then k else |front|;
      assert front[..j] == inputs[..j];
      SessionIdChangesOnce(start, config, front, j);
      FailureCounter(start, config, front);
      FlagsAfter(Fold(start, config, front), Last(inputs).event, config, Last(inputs).effects);
      if k < |inputs| {
        OutcomesGrow(front, k);
      } else {
        assert inputs[..k] == inputs;
      }
    }
  }

  /** The session id after any history: what the first planner outcome named, if
      that was a response that named one, and else the start's. */
  lemma {:induction false} SessionIdExact(start: State, config: Config, inputs: seq<Input>)
    requires Fresh(start)
    ensures Fold(start, config, inputs).claudeSessionId
         == var first := FirstOutcome(inputs);
            if first.Some? && first.value.PlannerResponded? && first.value.usage.claudeSessionId != ""
            then first.value.usage.claudeSessionId else start.claudeSessionId
    ensures FirstOutcome(inputs) == None <==> Outcomes(inputs) == []
  {
    hide Decide.Decide;
    if inputs != [] {
      var front, next := DropLast(inputs), Last(inputs);
      SessionIdExact(start, config, front);
      FailureCounter(start, config, front);
      SessionIdAfter(Fold(start, config, front), next.event, config, next.effects);
    }
  }

  /** The first response or failure. */
  function FirstOutcome(inputs: seq<Input>): Option<Event> {
    if inputs == [] then None
    else if FirstOutcome(DropLast(inputs)).Some? then FirstOutcome(DropLast(inputs))
    else if Last(inputs).event.PlannerResponded? || Last(inputs).event.PlannerFailed? then Some(Last(inputs).event)
    else None
  }

  lemma SessionIdAfter(s: State, event: Event, config: Config, effects: Effects)
    ensures Decide.Decide(s, event, config, effects).state.claudeSessionId
         == if event.PlannerResponded? && s.isFirstCall && event.usage.claudeSessionId != ""
            then event.usage.claudeSessionId else s.claudeSessionId
  {
    hide KeyCommands, AgentStep, SystemStep, ErrorStep, ArtifactRefreshTrigger, StoredBuffer, BuildJob, TailSlice;
  }

  lemma {:induction false} OutcomesGrow(inputs: seq<Input>, k: nat)
    requires k <= |inputs|
    ensures Outcomes(inputs[..k]) != [] ==> Outcomes(inputs) != []
  {
    if k < |inputs| {
      assert DropLast(inputs)[..k] == inputs[..k];
      OutcomesGrow(DropLast(inputs), k);
    } else {
      assert inputs[..k] == inputs;
    }
  }

  // The observation a step reports -------------------------------------------

  /** Input k is a timed-out ack, and no ack or observation came after it. */
  predicate BlockedBy(inputs: seq<Input>, k: nat)
    requires k < |inputs|
  {
    && inputs[k].event == CommandAcked(false)
    && forall j | k < j < |inputs| :: !inputs[j].event.CommandAcked? && !inputs[j].event.ObservationCaptured?
  }

  /** The latest of the keystroke acks and observations is an ack that timed out. */
  predicate Blocked(inputs: seq<Input>) {
    exists k | 0 <= k < |inputs| :: BlockedBy(inputs, k)
  }

  /** How one decide call moves the two fields behind the banner. */
  lemma ScreenAfter(s: State, event: Event, config: Config, effects: Effects)
    ensures var t := Decide.Decide(s, event, config, effects).state;
            && t.pendingBlockingTimeout == (match event
                                            case CommandAcked(ok) => !ok
                                            case ObservationCaptured(_, _) => false
                                            case _ => s.pendingBlockingTimeout)
            && (event.ObservationCaptured? ==>
                  t.lastObservation
                  == (if s.pendingBlockingTimeout then config.timeoutNotice + event.text else event.text))
            && (!event.ObservationCaptured? && !event.PlannerResponded? ==> t.lastObservation == s.lastObservation)
  {
    hide KeyCommands, AgentStep, SystemStep, ErrorStep, ArtifactRefreshTrigger, StoredBuffer, BuildJob, TailSlice;
  }

  lemma BlockedByGrows(inputs: seq<Input>, k: nat)
    requires k < |inputs|
    ensures var last := Last(inputs).event;
            BlockedBy(inputs, k)
            <==> if k == |inputs| - 1 then last == CommandAcked(false)
                 else BlockedBy(DropLast(inputs), k) && !last.CommandAcked? && !last.ObservationCaptured?
  {
    var front := DropLast(inputs);
    assert forall j | 0 <= j < |front| :: front[j] == inputs[j];
  }

  lemma BlockedGrows(inputs: seq<Input>)
    requires inputs != []
    ensures Blocked(inputs)
            <==> if Last(inputs).event.CommandAcked? || Last(inputs).event.ObservationCaptured?
                 then Last(inputs).event == CommandAcked(false) else Blocked(DropLast(inputs))
  {
    hide BlockedBy;
    var front := DropLast(inputs);
    forall k | 0 <= k < |inputs|
      ensures BlockedBy(inputs, k)
              <==> if k == |front| then Last(inputs).event == CommandAcked(false)
                   else BlockedBy(front, k) && !Last(inputs).event.CommandAcked?
                        && !Last(inputs).event.ObservationCaptured?
    {
      BlockedByGrows(inputs, k);
    }
    if Last(inputs).event == CommandAcked(false) {
      assert BlockedBy(inputs, |front|);
    } else if Blocked(front) && !Last(inputs).event.CommandAcked? && !Last(inputs).event.ObservationCaptured? {
      var k :| 0 <= k < |front| && BlockedBy(front, k);
      assert BlockedBy(inputs, k);
    }
  }

  lemma {:induction false} TimeoutFlag(start: State, config: Config, inputs: seq<Input>)
    requires Fresh(start)
    ensures Fold(start, config, inputs).pendingBlockingTimeout <==> Blocked(inputs)
  {
    hide Decide.Decide, Blocked;
    if inputs == [] {
      assert !Blocked(inputs) by { NothingBlocked(); }
    } else {
      TimeoutFlag(start, config, DropLast(inputs));
      BlockedGrows(inputs);
      ScreenAfter(Fold(start, config, DropLast(inputs)), Last(inputs).event, config, Last(inputs).effects);
    }
  }

  lemma NothingBlocked()
    ensures !Blocked([])
  {
  }

  /** Input i is a response that uses up the stashed observation: it asks for
      work, or it confirms completion. First claims do not. */
  predicate Consumes(inputs: seq<Input>, i: nat)
    requires i < |inputs|
  {
    && inputs[i].event.PlannerResponded?
    && (inputs[i].event.parsed.taskComplete ==> Confirms(inputs[..i], inputs[i].event))
  }

  predicate Stashes(inputs: seq<Input>, i: nat)
    requires i < |inputs|
  {
    inputs[i].event.ObservationCaptured? || Consumes(inputs, i)
  }

  /** How many inputs there are up to and including the last that captures or
      uses up an observation. */
  function LastStash(inputs: seq<Input>): (c: nat)
    ensures c <= |inputs|
    ensures c > 0 ==> Stashes(inputs, c - 1)
    ensures forall i | c <= i < |inputs| :: !Stashes(inputs, i)
  {
    if inputs == [] then 0
    else if Stashes(inputs, |inputs| - 1) then |inputs|
    else
      var front := DropLast(inputs);
      assert forall i | 0 <= i < |front| :: front[..i] == inputs[..i] && front[i] == inputs[i];
      assert forall i | 0 <= i < |front| :: Stashes(front, i) == Stashes(inputs, i);
      LastStash(front)
  }

  /** The observation a step logged after the inputs reports: the latest captured
      text, under the timeout banner exactly when the last keystrokes before it
      timed out unseen, unless a response has used it up since. */
  function Stash(inputs: seq<Input>, config: Config): string {
    var c := LastStash(inputs);
    if c == 0 || inputs[c - 1].event.PlannerResponded? then ""
    else (if Blocked(inputs[..c - 1]) then config.timeoutNotice else "") + inputs[c - 1].event.text
  }

  /** What a response does to the stash. */
  lemma StashAfter(s: State, event: Event, config: Config, effects: Effects)
    requires event.PlannerResponded?
    ensures Decide.Decide(s, event, config, effects).state.lastObservation
         == if event.parsed.taskComplete && !s.pendingCompletion then s.lastObservation else ""
  {
    hide KeyCommands, AgentStep;
  }

  /** Over any event history the stashed observation is the last capture not yet
      used up: first claims of completion, failures and acks leave it alone. */
  lemma {:induction false} StashExact(start: State, config: Config, inputs: seq<Input>)
    requires Fresh(start)
    ensures Fold(start, config, inputs).lastObservation == Stash(inputs, config)
  {
    hide Decide.Decide, Blocked, Confirms, Responses;
    if inputs != [] {
      var front, next := DropLast(inputs), Last(inputs);
      var s := Fold(start, config, front);
      StashExact(start, config, front);
      ScreenAfter(s, next.event, config, next.effects);
      assert inputs[..|front|] == front;
      if next.event.PlannerResponded? {
        StashAfter(s, next.event, config, next.effects);
        ClaimConfirms(start, config, front, next.event);
      } else if next.event.ObservationCaptured? {
        TimeoutFlag(start, config, front);
        assert "" + next.event.text == next.event.text;
      }
      if !Stashes(inputs, |front|) {
        var c := LastStash(front);
        assert c > 0 ==> inputs[..c - 1] == front[..c - 1];
      }
    }
  }

  lemma ClaimConfirms(start: State, config: Config, inputs: seq<Input>, event: Event)
    requires Fresh(start) && event.PlannerResponded?
    ensures Confirms(inputs, event) <==> event.parsed.taskComplete && Fold(start, config, inputs).pendingCompletion
  {
    hide Fold, Responses;
    PendingCompletion(start, config, inputs);
  }

  // The status -----------------------------------------------------------------

  /** How one decide call moves the status. */
  lemma StatusAfter(s: State, event: Event, config: Config, effects: Effects)
    ensures Decide.Decide(s, event, config, effects).state.status
         == match event
            case LoopTick(_, alive) => if alive then s.status else Failed
            case PlannerResponded(parsed, _) =>
              if parsed.taskComplete && s.pendingCompletion then Succeeded else s.status
            case PlannerFailed(_) =>
              if s.consecutivePlannerFailures + 1 >= MAX_CONSECUTIVE_PLANNER_FAILURES then Failed else s.status
            case SendKeysFailed => Failed
            case SummarizationFailed => Failed
            case ArtifactsRefreshFailed => Failed
            case SessionDied => Failed
            case _ => s.status
  {
    hide KeyCommands, AgentStep, SystemStep, ErrorStep, ArtifactRefreshTrigger, StoredBuffer, BuildJob, TailSlice;
  }

  /** The last two planner outcomes are failures. */
  predicate TwoFailures(inputs: seq<Input>) {
    var outcomes := Outcomes(inputs);
    |outcomes| >= 2 && outcomes[|outcomes| - 1].None? && outcomes[|outcomes| - 2].None?
  }

  /** The status an event sets, after the inputs before it. */
  function StatusSetBy(before: seq<Input>, event: Event): Option<RunStatus> {
    match event
    case LoopTick(_, alive) => if alive then None else Some(Failed)
    case PlannerResponded(_, _) => if Confirms(before, event) then Some(Succeeded) else None
    case PlannerFailed(_) => if TwoFailures(before) then Some(Failed) else None
    case SendKeysFailed => Some(Failed)
    case SummarizationFailed => Some(Failed)
    case ArtifactsRefreshFailed => Some(Failed)
    case SessionDied => Some(Failed)
    case _ => None
  }

  predicate SetsStatus(inputs: seq<Input>, i: nat)
    requires i < |inputs|
  {
    StatusSetBy(inputs[..i], inputs[i].event).Some?
  }

  /** How many inputs there are up to and including the last that sets the status. */
  function LastSetter(inputs: seq<Input>): (c: nat)
    ensures c <= |inputs|
    ensures c > 0 ==> SetsStatus(inputs, c - 1)
    ensures forall i | c <= i < |inputs| :: !SetsStatus(inputs, i)
  {
    if inputs == [] then 0
    else if SetsStatus(inputs, |inputs| - 1) then |inputs|
    else
      var front := DropLast(inputs);
      assert forall i | 0 <= i < |front| :: front[..i] == inputs[..i] && front[i] == inputs[i];
      assert forall i | 0 <= i < |front| :: SetsStatus(front, i) == SetsStatus(inputs, i);
      LastSetter(front)
  }

  /** Over any event history the status is the one set by the last event that
      sets any: a dead session, broken keystrokes, a failed checkpoint or
      refresh, the third failure in a row, or a confirmed completion. */
  lemma {:induction false} StatusExact(start: State, config: Config, inputs: seq<Input>)
    requires Fresh(start)
    ensures var c := LastSetter(inputs);
            Fold(start, config, inputs).status
            == if c == 0 then Active else StatusSetBy(inputs[..c - 1], inputs[c - 1].event).value
  {
    hide Decide.Decide, Outcomes, Confirms;
    if inputs != [] {
      var front, next := DropLast(inputs), Last(inputs);
      StatusExact(start, config, front);
      StatusSet(start, config, front, next);
      assert inputs[..|front|] == front;
      if !SetsStatus(inputs, |front|) {
        var c := LastSetter(front);
        assert c > 0 ==> inputs[..c - 1] == front[..c - 1];
      }
    }
  }

  /** One more input either sets the status or leaves it. */
  lemma StatusSet(start: State, config: Config, inputs: seq<Input>, next: Input)
    requires Fresh(start)
    ensures var before := Fold(start, config, inputs);
            var newStatus := StatusSetBy(inputs, next.event);
            Decide.Decide(before, next.event, config, next.effects).state.status
            == if newStatus.Some? then newStatus.value else before.status
  {
    hide Decide.Decide, Outcomes, Responses, Fold;
    StatusAfter(Fold(start, config, inputs), next.event, config, next.effects);
    PendingCompletion(start, config, inputs);
    FailureCounter(start, config, inputs);
    StreakOfTwo(Outcomes(inputs), Fold(start, config, inputs).consecutivePlannerFailures);
  }

  lemma StreakOfTwo(outcomes: seq<Option<ParseResult>>, k: nat)
    requires TrailingFailures(outcomes, k)
    ensures k >= 2 <==> |outcomes| >= 2 && outcomes[|outcomes| - 1].None? && outcomes[|outcomes| - 2].None?
  {
  }
}
