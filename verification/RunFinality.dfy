/** When a terminal status is final: what a terminal run's queue can still do
    to it. */
module RunFinality {
  import opened Prelude
  import opened RunState
  import opened Decide
  import opened Shell
  import opened Machine
  import Container
  import DecideHistory
  import Planner
  import RunJournal
  import RunSessions
  import RunWitnesses

  /** How many planner queries are queued. */
  function Asks(commands: seq<RunState.Command>): nat {
    if commands == [] then 0 else (if commands[0].QueryPlanner? then 1 else 0) + Asks(commands[1..])
  }

  /** A command whose effect may fail and take the run with it. */
  predicate Breakable(cmd: RunState.Command) {
    cmd.SendKeys? || cmd.ForceInterrupt? || cmd.RefreshArtifacts?
  }

  /** A failed run can no longer succeed: too few queries are left for two
      claims, counting the one that may be pending, or none can be answered. */
  predicate FailedIsFinal(m: Machine, config: Config) {
    || m.finished
    || config.plannerRetries == 0
    || Asks(m.pending) + (if m.state.pendingCompletion then 1 else 0) <= 1
  }

  /** A succeeded run can no longer fail: nothing queued can break, and too few
      queries are left for a third failure in a row. */
  predicate SucceededIsFinal(m: Machine) {
    || m.finished
    || (&& (forall i | 0 <= i < |m.pending| :: !Breakable(m.pending[i]))
        && (Asks(m.pending) == 0
            || m.state.consecutivePlannerFailures + Asks(m.pending) < MAX_CONSECUTIVE_PLANNER_FAILURES))
  }

  /** Without attempts no query is answered. */
  lemma NoAttemptsNoAnswer(cmd: RunState.Command, j: Journal, s: State, config: Config, reply: Reply)
    requires cmd.QueryPlanner? && config.plannerRetries == 0
    ensures Apply(cmd, j, s, config, reply).event.PlannerFailed?
  {
    hide Interleave;
  }

  /** One step of a terminal run, as far as its status is concerned. */
  lemma TerminalStep(m: Machine, config: Config, world: World)
    requires !m.state.status.Active? && m.pending != [] && !m.finished
    ensures var event := Apply(m.pending[0], m.journal, m.state, config, world(m.clock)).event;
            var after := Step(m, config, world);
            var t := Decide.Decide(m.state, event, config, world(m.clock).effects).state;
            && after.pending == m.pending[1..] && !after.finished
            && after.state.status == t.status
            && after.state.pendingCompletion == t.pendingCompletion
            && after.state.consecutivePlannerFailures == t.consecutivePlannerFailures
  {
    hide Decide.Decide, Apply;
    IterationIsStep(m, config, world);
    IterationShape(m, config, world(m.clock));
  }

  lemma FailedStep(m: Machine, config: Config, world: World)
    requires m.state.status.Failed? && FailedIsFinal(m, config)
    ensures Step(m, config, world).state.status.Failed? && FailedIsFinal(Step(m, config, world), config)
  {
    if m.pending != [] && !m.finished {
      hide Decide.Decide, Apply, Step;
      var cmd, reply := m.pending[0], world(m.clock);
      var event := Apply(cmd, m.journal, m.state, config, reply).event;
      TerminalStep(m, config, world);
      RunJournal.EventOf(cmd, m.journal, m.state, config, reply);
      DecideHistory.StatusAfter(m.state, event, config, reply.effects);
      DecideHistory.FlagsAfter(m.state, event, config, reply.effects);
      if cmd.QueryPlanner? && config.plannerRetries == 0 {
        NoAttemptsNoAnswer(cmd, m.journal, m.state, config, reply);
      }
    }
  }

  lemma SucceededStep(m: Machine, config: Config, world: World)
    requires m.state.status.Succeeded? && SucceededIsFinal(m)
    ensures Step(m, config, world).state.status.Succeeded? && SucceededIsFinal(Step(m, config, world))
  {
    if m.pending != [] && !m.finished {
      hide Decide.Decide, Apply, Step;
      var cmd, reply := m.pending[0], world(m.clock);
      var event := Apply(cmd, m.journal, m.state, config, reply).event;
      TerminalStep(m, config, world);
      RunJournal.EventOf(cmd, m.journal, m.state, config, reply);
      KeysEventOf(cmd, m.journal, m.state, config, reply);
      DecideHistory.StatusAfter(m.state, event, config, reply.effects);
      DecideHistory.FlagsAfter(m.state, event, config, reply.effects);
      assert !Breakable(cmd);
    }
  }

  lemma KeysEventOf(cmd: RunState.Command, j: Journal, s: State, config: Config, reply: Reply)
    ensures var event := Apply(cmd, j, s, config, reply).event;
            && (event.SendKeysFailed? <==> (cmd.SendKeys? || cmd.ForceInterrupt?) && reply.keys.Broken?)
            && (event.ArtifactsRefreshFailed? <==> cmd.RefreshArtifacts? && !reply.refreshOk)
            && !event.SessionDied?
  {
    hide Planner.AttemptArgs, Planner.AttemptCount, Interleave;
  }

  lemma {:induction false} FailedStays(m: Machine, config: Config, world: World, n: nat)
    requires m.state.status.Failed? && FailedIsFinal(m, config)
    ensures At(m, config, world, n).state.status.Failed? && FailedIsFinal(At(m, config, world, n), config)
  {
    hide Step, FailedIsFinal;
    if n > 0 {
      FailedStays(m, config, world, n - 1);
      FailedStep(At(m, config, world, n - 1), config, world);
    }
  }

  lemma {:induction false} SucceededStays(m: Machine, config: Config, world: World, n: nat)
    requires m.state.status.Succeeded? && SucceededIsFinal(m)
    ensures At(m, config, world, n).state.status.Succeeded? && SucceededIsFinal(At(m, config, world, n))
  {
    hide Step, SucceededIsFinal;
    if n > 0 {
      SucceededStays(m, config, world, n - 1);
      SucceededStep(At(m, config, world, n - 1), config, world);
    }
  }

  // The other direction ----------------------------------------------------------

  /** Every query claims completion, everything else works. */
  function ClaimingWorld(): World {
    _ => RunWitnesses.ReplyOf(RunWitnesses.Says(RunWitnesses.COMPLETE))
  }

  /** Nothing works. */
  function BrokenWorld(): World {
    _ => Reply(Effects("", ""), true, None, Container.Capture("", ""), Broken, [], 0, false, [])
  }

  lemma ClaimEvent(cmd: RunState.Command, j: Journal, s: State, config: Config)
    requires config.plannerRetries > 0
    ensures var event := Apply(cmd, j, s, config, ClaimingWorld()(0)).event;
            && (cmd.QueryPlanner? ==> event.PlannerResponded? && event.parsed.taskComplete)
            && !event.SendKeysFailed? && !event.ArtifactsRefreshFailed?
  {
    hide Interleave, Planner.AttemptArgs;
    RunWitnesses.FirstPrintDecides(
      Planner.Output(Some(RunWitnesses.COMPLETE), ZERO_USAGE), config.plannerRetries);
    hide Planner.Outcome;
  }

  lemma BrokenEvent(cmd: RunState.Command, j: Journal, s: State, config: Config)
    ensures var event := Apply(cmd, j, s, config, BrokenWorld()(0)).event;
            && (cmd.QueryPlanner? ==> event.PlannerFailed?)
            && (Breakable(cmd) ==> event.SendKeysFailed? || event.ArtifactsRefreshFailed?)
  {
    hide Interleave, Planner.AttemptArgs;
    RunSessions.NoPrintMeansAllAttempts(config.plannerRetries);
    hide Planner.Outcome;
  }

  /** Two claims are still to be had: the failed run succeeds. */
  lemma {:induction false} FailedFlips(m: Machine, config: Config) returns (n: nat)
    requires m.state.status.Failed? && !FailedIsFinal(m, config)
    ensures At(m, config, ClaimingWorld(), n).state.status.Succeeded?
    decreases |m.pending|
  {
    hide Decide.Decide, Apply, Step, ClaimingWorld;
    var w := ClaimingWorld();
    var cmd := m.pending[0];
    var event := Apply(cmd, m.journal, m.state, config, w(m.clock)).event;
    TerminalStep(m, config, w);
    SameReplies(m.clock);
    ClaimEvent(cmd, m.journal, m.state, config);
    RunJournal.EventOf(cmd, m.journal, m.state, config, w(m.clock));
    DecideHistory.StatusAfter(m.state, event, config, w(m.clock).effects);
    DecideHistory.FlagsAfter(m.state, event, config, w(m.clock).effects);
    AtZero(m, config, w);
    AtNext(m, config, w, 0);
    if cmd.QueryPlanner? && m.state.pendingCompletion {
      n := 1;
    } else {
      var later := FailedFlips(Step(m, config, w), config);
      AtCompose(m, config, w, 1, later);
      n := 1 + later;
    }
  }

  lemma SameReplies(clock: nat)
    ensures ClaimingWorld()(clock) == ClaimingWorld()(0) && BrokenWorld()(clock) == BrokenWorld()(0)
  {
  }

  /** Something can still break, or three queries in a row fail: the succeeded
      run fails. */
  lemma {:induction false} SucceededFlips(m: Machine, config: Config) returns (n: nat)
    requires m.state.status.Succeeded? && !SucceededIsFinal(m)
    ensures At(m, config, BrokenWorld(), n).state.status.Failed?
    decreases |m.pending|
  {
    hide Decide.Decide, Apply, Step, BrokenWorld;
    var w := BrokenWorld();
    var cmd := m.pending[0];
    var event := Apply(cmd, m.journal, m.state, config, w(m.clock)).event;
    TerminalStep(m, config, w);
    SameReplies(m.clock);
    BrokenEvent(cmd, m.journal, m.state, config);
    RunJournal.EventOf(cmd, m.journal, m.state, config, w(m.clock));
    KeysEventOf(cmd, m.journal, m.state, config, w(m.clock));
    DecideHistory.StatusAfter(m.state, event, config, w(m.clock).effects);
    DecideHistory.FlagsAfter(m.state, event, config, w(m.clock).effects);
    AtZero(m, config, w);
    AtNext(m, config, w, 0);
    if At(m, config, w, 1).state.status.Failed? {
      n := 1;
    } else {
      var next := Step(m, config, w);
      assert !SucceededIsFinal(next) by {
        StillUnsettled(m, next, cmd);
      }
      var later := SucceededFlips(next, config);
      AtCompose(m, config, w, 1, later);
      n := 1 + later;
    }
  }

  lemma StillUnsettled(m: Machine, next: Machine, cmd: RunState.Command)
    requires !SucceededIsFinal(m) && m.pending != [] && cmd == m.pending[0]
    requires next.pending == m.pending[1..] && !next.finished && !Breakable(cmd)
    requires next.state.consecutivePlannerFailures
          == m.state.consecutivePlannerFailures + if cmd.QueryPlanner? then 1 else 0
    requires cmd.QueryPlanner? ==> next.state.consecutivePlannerFailures < MAX_CONSECUTIVE_PLANNER_FAILURES
    ensures !SucceededIsFinal(next)
  {
    if exists i | 0 <= i < |m.pending| :: Breakable(m.pending[i]) {
      var i :| 0 <= i < |m.pending| && Breakable(m.pending[i]);
      assert next.pending[i - 1] == m.pending[i];
    }
  }

  /** A failed run stays failed, in every world, exactly when it has returned,
      can make no attempts, or has too few queries left for two claims. */
  lemma FailedFinalIff(m: Machine, config: Config)
    requires m.state.status.Failed?
    ensures (forall world: World, n: nat :: At(m, config, world, n).state.status.Failed?)
            <==> FailedIsFinal(m, config)
  {
    hide At, FailedIsFinal;
    if FailedIsFinal(m, config) {
      forall world: World, n: nat ensures At(m, config, world, n).state.status.Failed? {
        FailedStays(m, config, world, n);
      }
    } else {
      var n := FailedFlips(m, config);
    }
  }

  /** A succeeded run stays succeeded, in every world, exactly when it has
      returned, or nothing queued can break and too few queries are left for a
      third failure in a row. */
  lemma SucceededFinalIff(m: Machine, config: Config)
    requires m.state.status.Succeeded?
    ensures (forall world: World, n: nat :: At(m, config, world, n).state.status.Succeeded?)
            <==> SucceededIsFinal(m)
  {
    hide At, SucceededIsFinal;
    if SucceededIsFinal(m) {
      forall world: World, n: nat ensures At(m, config, world, n).state.status.Succeeded? {
        SucceededStays(m, config, world, n);
      }
    } else {
      var n := SucceededFlips(m, config);
    }
  }
}
