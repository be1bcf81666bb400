/** Where the loop stops making progress: the artifact refreshes. */
module RunStarvation {
  import opened Prelude
  import opened RunState
  import opened Decide
  import opened SummarizeWorker
  import opened Shell
  import opened Machine
  import Container
  import DecideHistory
  import Planner
  import RunJournal

  /** Every tick from here on refreshes the artifacts: some step is logged, and
      either every step is an interval, or the token tally is at the artifact
      threshold and no checkpoint can bring it below. */
  predicate Hopeless(m: Machine, config: Config) {
    && m.state.currentStep > 0
    && (|| config.stateDumpIntervalTurns == 1
        || (&& m.state.totalPromptTokens >= config.stateDumpTokenThreshold
            && (m.journal.slot.Idle? || config.stateDumpTokenThreshold <= 0)))
  }

  predicate OnlyUpkeep(commands: seq<RunState.Command>) {
    commands == [] || (|commands| == 1 && (commands[0].RefreshArtifacts? || commands[0].LogStep?))
  }

  predicate Starved(m: Machine, config: Config) {
    Hopeless(m, config) && OnlyUpkeep(m.pending) && !m.state.status.Succeeded?
  }

  predicate Upkeep(entry: Entry) {
    entry.cause.Command? ==> entry.cause.cmd.RefreshArtifacts? || entry.cause.cmd.LogStep?
  }

  /** From m to later, nothing but refreshes and log commands was applied. */
  predicate UpkeepSince(m: Machine, later: Machine) {
    forall i | |m.history| <= i < |later.history| :: Upkeep(later.history[i])
  }

  lemma StarvedIteration(m: Machine, config: Config, world: World)
    requires Starved(m, config) && m.pending != [] && !m.finished
    ensures var after := Step(m, config, world);
            Starved(after, config) && |after.history| == |m.history| + 1 && m.history <= after.history
            && Upkeep(Last(after.history))
  {
    hide Apply, Decide.Decide, Step;
    var cmd, reply := m.pending[0], world(m.clock);
    var event := Apply(cmd, m.journal, m.state, config, reply).event;
    RunJournal.EventOf(cmd, m.journal, m.state, config, reply);
    RunJournal.RecordOf(cmd, m.journal, m.state, config, reply);
    DecideHistory.CountersAfter(m.state, event, config, reply.effects);
    DecideHistory.FlagsAfter(m.state, event, config, reply.effects);
    UpkeepFollows(m.state, event, config, reply.effects);
    IterationIsStep(m, config, world);
    IterationShape(m, config, reply);
  }

  lemma UpkeepFollows(s: State, event: Event, config: Config, effects: Effects)
    requires event.ArtifactsRefreshed? || event.ArtifactsRefreshFailed? || event.StepLogged?
    ensures OnlyUpkeep(Decide.Decide(s, event, config, effects).commands)
  {
  }

  lemma StarvedOpening(m: Machine, config: Config, world: World)
    requires Starved(m, config) && m.pending == [] && !m.finished
    requires m.state.status.Active? && m.turns < m.state.maxTurns
    ensures var after := Step(m, config, world);
            Starved(after, config) && |after.history| == |m.history| + 1 && m.history <= after.history
            && Upkeep(Last(after.history))
  {
    hide Decide.Decide, Step, Interleave;
    var reply := world(m.clock);
    var event := PollEvent(m.journal.slot, reply);
    OpeningShape(m, config, world);
    DecideHistory.CountersAfter(m.state, event, config, reply.effects);
    DecideHistory.FlagsAfter(m.state, event, config, reply.effects);
    HopelessTick(m, config, event, reply.effects);
  }

  lemma HopelessTick(m: Machine, config: Config, event: Event, effects: Effects)
    requires event.SummarizationDone? || event.SummarizationFailed? || event.LoopTick?
    requires event.LoopTick? ==>
               m.state.currentStep > 0
               && (config.stateDumpIntervalTurns == 1 || m.state.totalPromptTokens >= config.stateDumpTokenThreshold)
    ensures OnlyUpkeep(Decide.Decide(m.state, event, config, effects).commands)
  {
    hide OnPlannerResponded, OnObservation, OnPlannerFailed;
  }

  lemma StarvedStep(m: Machine, config: Config, world: World)
    requires Starved(m, config)
    ensures var after := Step(m, config, world);
            Starved(after, config) && m.history <= after.history && UpkeepSince(m, after)
  {
    hide Hopeless, OnlyUpkeep, Upkeep;
    if m.pending != [] && !m.finished {
      hide Step;
      StarvedIteration(m, config, world);
    } else if !m.finished && m.state.status.Active? && m.turns < m.state.maxTurns {
      hide Step;
      StarvedOpening(m, config, world);
    } else {
      hide Open, Iterate;
      SameHopes(m, Step(m, config, world), config);
    }
  }

  lemma SameHopes(m: Machine, after: Machine, config: Config)
    requires Starved(m, config) && !after.state.status.Succeeded?
    requires after.pending == m.pending && after.journal == m.journal
    requires after.state.currentStep == m.state.currentStep
    requires after.state.totalPromptTokens == m.state.totalPromptTokens
    ensures Starved(after, config)
  {
  }

  /** In a hopeless run every later turn refreshes the artifacts (or takes in a
      checkpoint) and does nothing else: no observation, query or keystroke is
      ever applied again, and the run cannot succeed. */
  lemma {:induction false} RefreshStarvesRun(m: Machine, config: Config, world: World, n: nat)
    requires Hopeless(m, config) && m.pending == [] && m.state.status.Active?
    ensures var later := At(m, config, world, n);
            Starved(later, config) && m.history <= later.history && UpkeepSince(m, later)
  {
    hide Step, Hopeless, Upkeep;
    if n > 0 {
      RefreshStarvesRun(m, config, world, n - 1);
      StarvedStep(At(m, config, world, n - 1), config, world);
    }
  }

  // The other direction: whoever is not hopeless may observe --------------------

  /** The session is alive and every refresh works; the summarizer answers as given. */
  function WorkingWorld(finished: Option<JobOutcome>): World {
    _ => Reply(Effects("", ""), true, finished, Container.Capture("", ""), Sent(true), [], 1, true, [])
  }

  /** Between two turns, with at least k turns to go. */
  predicate Ready(m: Machine, k: nat) {
    m.pending == [] && !m.finished && m.state.status.Active? && m.turns + k <= m.state.maxTurns
  }

  /** An observation is applied after m. */
  ghost predicate Observes(m: Machine, config: Config, world: World) {
    exists n: nat :: !UpkeepSince(m, At(m, config, world, n))
  }

  lemma {:induction false} HistoryGrows(m: Machine, config: Config, world: World, n: nat)
    ensures |m.history| <= |At(m, config, world, n).history|
  {
    hide Decide.Decide, Apply, PollEvent, Polled;
    if n > 0 {
      HistoryGrows(m, config, world, n - 1);
    }
  }

  /** What is observed later is observed. */
  lemma ObservesLater(m: Machine, config: Config, world: World, k: nat)
    requires Observes(At(m, config, world, k), config, world)
    ensures Observes(m, config, world)
  {
    hide At, Upkeep;
    var middle := At(m, config, world, k);
    var n: nat :| !UpkeepSince(middle, At(middle, config, world, n));
    HistoryGrows(m, config, world, k);
    AtCompose(m, config, world, k, n);
    assert !UpkeepSince(m, At(m, config, world, k + n));
  }

  /** The next command is an observation. */
  lemma ObservesNow(m: Machine, config: Config, world: World)
    requires m.pending != [] && m.pending[0].Observe? && !m.finished
    ensures Observes(m, config, world)
  {
    hide Step, Decide.Decide, Apply;
    IterationIsStep(m, config, world);
    IterationShape(m, config, world(m.clock));
    AtZero(m, config, world);
    AtNext(m, config, world, 0);
    var after := At(m, config, world, 1);
    assert !Upkeep(after.history[|m.history|]);
  }

  lemma ObservesNext(m: Machine, config: Config, world: World)
    requires Observes(Step(m, config, world), config, world)
    ensures Observes(m, config, world)
  {
    hide Step, Observes;
    AtZero(m, config, world);
    AtNext(m, config, world, 0);
    ObservesLater(m, config, world, 1);
  }

  /** A tick that opens a turn with the summarizer silent. */
  lemma TickOpens(m: Machine, config: Config, finished: Option<JobOutcome>)
    requires Ready(m, 1) && (m.journal.slot.Idle? || finished.None?)
    ensures var after := Step(m, config, WorkingWorld(finished));
            && after.state == m.state && after.turns == m.turns + 1 && !after.finished
            && after.journal.slot == m.journal.slot
            && after.pending == OnLoopTick(m.state, config, m.journal.slot.Idle?, true).commands
  {
    hide OnLoopTick, Step, Interleave;
    OpeningShape(m, config, WorkingWorld(finished));
    TickKeepsState(m.state, config, m.journal.slot.Idle?);
  }

  lemma TickKeepsState(s: State, config: Config, ready: bool)
    ensures OnLoopTick(s, config, ready, true).state == s
  {
  }

  /** A submission applied by an active run queues a second observation. */
  lemma SubmitPasses(m: Machine, config: Config, world: World)
    requires |m.pending| == 2 && m.pending[0].SubmitSummarization? && m.pending[1].Observe? && !m.finished
    ensures var after := Step(m, config, world);
            after.pending != [] && after.pending[0].Observe? && !after.finished
  {
    hide Step, Decide.Decide, Apply;
    IterationIsStep(m, config, world);
    IterationShape(m, config, world(m.clock));
  }

  /** No refresh is due: this turn observes. */
  lemma TickObserves(m: Machine, config: Config, finished: Option<JobOutcome>)
    requires Ready(m, 1) && (m.journal.slot.Idle? || finished.None?)
    requires ArtifactRefreshTrigger(m.state, config) == ""
    ensures Observes(m, config, WorkingWorld(finished))
  {
    hide Step, Observes, ArtifactRefreshTrigger;
    var w := WorkingWorld(finished);
    TickOpens(m, config, finished);
    var after := Step(m, config, w);
    if after.pending[0].Observe? {
      ObservesNow(after, config, w);
    } else {
      SubmitPasses(after, config, w);
      ObservesNow(Step(after, config, w), config, w);
      ObservesNext(after, config, w);
    }
    ObservesNext(m, config, w);
  }

  /** A log command at the end of a turn. */
  lemma LogPasses(m: Machine, config: Config, world: World)
    requires |m.pending| == 1 && m.pending[0].LogStep? && !m.finished && m.state.status.Active?
    ensures var after := Step(m, config, world);
            && after.pending == [] && !after.finished && after.state.status.Active?
            && after.state.currentStep == m.state.currentStep + 1
            && after.state.totalPromptTokens == m.state.totalPromptTokens
            && after.state.maxTurns == m.state.maxTurns
            && after.journal.slot == m.journal.slot && after.turns == m.turns
  {
    hide Step, Interleave;
    IterationIsStep(m, config, world);
    IterationShape(m, config, world(m.clock));
    RunJournal.RecordOf(m.pending[0], m.journal, m.state, config, world(m.clock));
  }

  lemma RefreshPasses(m: Machine, config: Config, finished: Option<JobOutcome>)
    requires |m.pending| == 1 && m.pending[0].RefreshArtifacts? && !m.finished && m.state.status.Active?
    ensures var after := Step(m, config, WorkingWorld(finished));
            && |after.pending| == 1 && after.pending[0].LogStep? && !after.finished
            && after.state == m.state && after.journal.slot == m.journal.slot && after.turns == m.turns
  {
    hide Step, Interleave;
    var w := WorkingWorld(finished);
    IterationIsStep(m, config, w);
    IterationShape(m, config, w(m.clock));
    RunJournal.RecordOf(m.pending[0], m.journal, m.state, config, w(m.clock));
  }

  /** Below the artifact threshold, or before any step, a turn observes, if need
      be after one refresh. */
  lemma LowTallyObserves(m: Machine, config: Config, finished: Option<JobOutcome>)
    requires Ready(m, 2) && (m.journal.slot.Idle? || finished.None?)
    requires m.state.currentStep == 0
          || (config.stateDumpIntervalTurns > 1 && m.state.totalPromptTokens < config.stateDumpTokenThreshold)
    ensures Observes(m, config, WorkingWorld(finished))
  {
    hide Step, Observes;
    var w := WorkingWorld(finished);
    if ArtifactRefreshTrigger(m.state, config) == "" {
      TickObserves(m, config, finished);
    } else {
      TickOpens(m, config, finished);
      var one := Step(m, config, w);
      RefreshPasses(one, config, finished);
      var two := Step(one, config, w);
      LogPasses(two, config, w);
      var three := Step(two, config, w);
      NextStepIsFree(m.state.currentStep, config.stateDumpIntervalTurns);
      TickObserves(three, config, finished);
      ObservesNext(two, config, w);
      ObservesNext(one, config, w);
      ObservesNext(m, config, w);
    }
  }

  lemma NextStepIsFree(step: nat, interval: Positive)
    requires interval > 1 && step % interval == 0
    ensures (step + 1) % interval != 0
  {
    if (step + 1) % interval == 0 {
      var q, r := step / interval, (step + 1) / interval;
      assert step == interval * q && step + 1 == interval * r;
      assert interval * (r - q) == interval * r - interval * q;
      NoUnitFactor(interval, r - q);
    }
  }

  lemma NoUnitFactor(a: int, b: int)
    requires a > 1
    ensures a * b != 1
  {
    if b > 0 {
      assert a * b >= a;
    } else {
      assert a * b <= 0;
    }
  }

  /** The running summarizer's checkpoint resets the tally. */
  lemma CheckpointPasses(m: Machine, config: Config)
    requires Ready(m, 1) && m.journal.slot.InFlight?
    ensures var w := WorkingWorld(Some(Completed("", "")));
            var after := Step(Step(m, config, w), config, w);
            && after.pending == [] && !after.finished && after.state.status.Active?
            && after.journal.slot.Idle? && after.turns == m.turns + 1 && after.state.maxTurns == m.state.maxTurns
            && after.state.totalPromptTokens == 0
  {
    hide Step, Interleave;
    var w := WorkingWorld(Some(Completed("", "")));
    OpeningShape(m, config, w);
    LogPasses(Step(m, config, w), config, w);
  }

  /** Exactly when a run is starved: between turns, with three turns to go, every
      world applies nothing but refreshes and log commands from here on if and
      only if the run is hopeless. */
  lemma StarvedIff(m: Machine, config: Config)
    requires Ready(m, 3)
    ensures (forall world: World, n: nat :: UpkeepSince(m, At(m, config, world, n)))
            <==> Hopeless(m, config)
  {
    hide At, UpkeepSince, Starved;
    if Hopeless(m, config) {
      forall world: World, n: nat ensures UpkeepSince(m, At(m, config, world, n)) {
        RefreshStarvesRun(m, config, world, n);
      }
    } else if m.state.currentStep == 0 || m.state.totalPromptTokens < config.stateDumpTokenThreshold {
      LowTallyObserves(m, config, None);
      ObservedIsNotUpkeep(m, config, WorkingWorld(None));
    } else {
      var w := WorkingWorld(Some(Completed("", "")));
      CheckpointPasses(m, config);
      LowTallyObserves(Step(Step(m, config, w), config, w), config, Some(Completed("", "")));
      hide Step, Observes;
      ObservesNext(Step(m, config, w), config, w);
      ObservesNext(m, config, w);
      ObservedIsNotUpkeep(m, config, w);
    }
  }

  lemma ObservedIsNotUpkeep(m: Machine, config: Config, world: World)
    requires Observes(m, config, world)
    ensures exists n: nat :: !UpkeepSince(m, At(m, config, world, n))
  {
  }

  // Starvation is reachable ----------------------------------------------------

  /** A planner that reads so many tokens and sends no command. */
  function IdleReply(tokens: nat): Reply {
    var output := Planner.Output(Some(ParseResult("", "", [], false)), PlannerUsage(tokens, 0, 0, 0.0, 0, ""));
    Reply(Effects("", ""), true, None, Container.Capture("$ ", "$ "), Sent(true),
          [Planner.Printed(output)], 0, true, [])
  }

  function IdleWorld(tokens: nat): World {
    _ => IdleReply(tokens)
  }

  lemma IdleOpening(start: State, config: Config, tokens: nat)
    requires DecideHistory.Fresh(start) && start.maxTurns > 0 && config.summarizationTokenThreshold > 0
    ensures var m := Step(Start(start), config, IdleWorld(tokens));
            m.pending == [Observe] && m.state == start && m.journal == EMPTY_JOURNAL && !m.finished
  {
  }

  lemma IdleObservation(m: Machine, config: Config, tokens: nat)
    requires m.pending == [Observe] && m.state.status.Active? && m.journal.slot.Idle? && !m.finished
    ensures var after := Step(m, config, IdleWorld(tokens));
            && |after.pending| == 1 && after.pending[0].QueryPlanner?
            && after.state.status.Active? && after.journal.slot.Idle? && !after.finished
            && after.state.totalPromptTokens == m.state.totalPromptTokens
  {
  }

  lemma IdleQuery(m: Machine, config: Config, tokens: nat)
    requires |m.pending| == 1 && m.pending[0].QueryPlanner? && config.plannerRetries > 0
    requires m.state.status.Active? && m.journal.slot.Idle? && !m.finished
    ensures var after := Step(m, config, IdleWorld(tokens));
            && |after.pending| == 1 && after.pending[0].LogStep?
            && after.state.status.Active? && after.journal.slot.Idle? && !after.finished
            && after.state.totalPromptTokens == m.state.totalPromptTokens + tokens
  {
    var reply := IdleReply(tokens);
    Planner.CountSettles(reply.attempts, 1, config.plannerRetries);
    assert Planner.Outcome(reply.attempts, config.plannerRetries) == Ok(reply.attempts[0].output);
    RunJournal.RecordOf(m.pending[0], m.journal, m.state, config, reply);
  }

  /** Both kinds of hopeless run are reached from any fresh start: with an
      interval of one after any first response, and otherwise after a response
      that costs the artifact threshold. The planner is queried once, and the
      run never succeeds. */
  lemma StarvationReachable(start: State, config: Config, tokens: nat, n: nat)
    requires DecideHistory.Fresh(start) && start.maxTurns > 0 && config.summarizationTokenThreshold > 0
    requires config.plannerRetries > 0
    requires config.stateDumpIntervalTurns == 1 || tokens >= config.stateDumpTokenThreshold
    ensures var early := At(Start(start), config, IdleWorld(tokens), 4);
            var later := At(Start(start), config, IdleWorld(tokens), 4 + n);
            && Hopeless(early, config) && early.state.totalPromptTokens == tokens
            && UpkeepSince(early, later) && !later.state.status.Succeeded?
  {
    hide Step, IdleWorld, UpkeepSince;
    var w := IdleWorld(tokens);
    var m := Start(start);
    AtZero(m, config, w);
    IdleOpening(start, config, tokens);
    AtNext(m, config, w, 0);
    IdleObservation(At(m, config, w, 1), config, tokens);
    AtNext(m, config, w, 1);
    IdleQuery(At(m, config, w, 2), config, tokens);
    AtNext(m, config, w, 2);
    LogPasses(At(m, config, w, 3), config, w);
    AtNext(m, config, w, 3);
    RefreshStarvesRun(At(m, config, w, 4), config, w, n);
    AtCompose(m, config, w, 4, n);
  }
}
