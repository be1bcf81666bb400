/** Exactly when the session guarantee holds. */
module RunSessions {
  import opened Prelude
  import opened RunState
  import opened Planner
  import opened Shell
  import opened Machine
  import Container
  import Decide
  import DecideHistory
  import RunJournal

  /** Every attempt of the planner times out. */
  const SILENT := Reply(Decide.Effects("", ""), true, None, Container.Capture("$ ", "$ "), Sent(true), [], 0, true, [])

  function SilentWorld(): World {
    _ => SILENT
  }

  lemma {:induction false} NoPrintMeansAllAttempts(retries: nat)
    ensures AttemptCount([], retries) == retries
    ensures Outcome([], retries).Err?
  {
    if retries > 0 {
      NoPrintMeansAllAttempts(retries - 1);
    }
  }

  lemma {:induction false} InterleaveQuiet(main: seq<SessionArgs>, noise: SessionArgs)
    ensures Interleave(main, noise, []) == main
  {
    if main != [] {
      InterleaveQuiet(DropLast(main), noise);
    }
  }

  /** A query applied in the silent world: all its attempts are made, the
      first opens a session if the query asks for it, and the query fails. */
  lemma SilentQuery(cmd: RunState.Command, j: Journal, s: State, config: Config)
    requires cmd.QueryPlanner? && cmd.firstCall && s.claudeSessionId != "" && config.plannerRetries > 0
    requires cmd.forkSession == cmd.resumeParent.Some?
    ensures var a := Apply(cmd, j, s, config, SILENT);
            && a.event.PlannerFailed?
            && |a.journal.attempts| == |j.attempts| + config.plannerRetries
            && Opens(a.journal.attempts[|j.attempts|])
            && a.journal.slot == j.slot
  {
    var n := config.plannerRetries;
    NoPrintMeansAllAttempts(n);
    var main := AttemptArgs([], n, s.claudeSessionId, true, cmd.resumeParent, cmd.forkSession);
    InterleaveQuiet(main, ResumingArgs(s.claudeSessionId));
    OnlyFirstAttemptOpens([], n, s.claudeSessionId, true, cmd.resumeParent, cmd.forkSession, 0);
  }

  /** With a threshold of zero or less the first turn submits a summarization,
      so two observations and then two first calls are queued. */
  lemma ZeroThresholdOpensTwice(start: State, config: Config)
    requires DecideHistory.Fresh(start) && start.claudeSessionId != "" && start.maxTurns > 0
    requires config.plannerRetries > 0 && config.summarizationTokenThreshold <= 0
    ensures !RunJournal.OnlyFirstOpens(At(Start(start), config, SilentWorld(), 6).journal.attempts)
  {
    var w := SilentWorld();
    var m0 := Start(start);
    var m2 := Step(Step(m0, config, w), config, w);
    assert At(m0, config, w, 2) == m2 by {
      assert At(m0, config, w, 1) == Step(m0, config, w);
    }
    assert m2.pending == [Observe, Observe] && m2.journal.attempts == [] && m2.state == start;
    var m4 := TwoObservations(m2, config);
    assert At(m0, config, w, 4) == m4 by {
      AtCompose(m0, config, w, 2, 2);
    }
    TwoQueries(m4, config);
    AtCompose(m0, config, w, 4, 2);
  }

  lemma TwoObservations(m: Machine, config: Config) returns (after: Machine)
    requires m.pending == [Observe, Observe] && !m.finished && m.state.status.Active? && m.state.isFirstCall
    requires m.journal.slot.InFlight? && m.journal.attempts == []
    ensures after == At(m, config, SilentWorld(), 2)
    ensures |after.pending| == 2 && !after.finished && after.state.status.Active?
    ensures forall i | 0 <= i < 2 :: after.pending[i].QueryPlanner? && after.pending[i].firstCall
                                  && after.pending[i].forkSession == after.pending[i].resumeParent.Some?
    ensures after.journal.attempts == [] && after.state.claudeSessionId == m.state.claudeSessionId
  {
    var w := SilentWorld();
    var one := Step(m, config, w);
    assert At(m, config, w, 1) == one;
    after := Step(one, config, w);
  }

  lemma TwoQueries(m: Machine, config: Config)
    requires |m.pending| == 2 && !m.finished && m.state.status.Active?
    requires forall i | 0 <= i < 2 :: m.pending[i].QueryPlanner? && m.pending[i].firstCall
                                   && m.pending[i].forkSession == m.pending[i].resumeParent.Some?
    requires m.journal.attempts == [] && m.state.claudeSessionId != "" && config.plannerRetries > 0
    ensures !RunJournal.OnlyFirstOpens(At(m, config, SilentWorld(), 2).journal.attempts)
  {
    var w := SilentWorld();
    var one := Step(m, config, w);
    assert At(m, config, w, 1) == one;
    SilentQuery(m.pending[0], m.journal, m.state, config);
    var event := Apply(m.pending[0], m.journal, m.state, config, SILENT).event;
    DecideHistory.CountersAfter(m.state, event, config, SILENT.effects);
    DecideHistory.FlagsAfter(m.state, event, config, SILENT.effects);
    assert one.pending[0] == m.pending[1] && one.state.claudeSessionId == m.state.claudeSessionId;
    SilentQuery(one.pending[0], one.journal, one.state, config);
    var two := Step(one, config, w);
    assert Opens(two.journal.attempts[config.plannerRetries]);
  }

  /** A run without turns makes no attempt. */
  lemma {:induction false} NoTurnsEnds(start: State, config: Config, world: World, n: nat)
    requires DecideHistory.Fresh(start) && start.maxTurns == 0
    ensures At(Start(start), config, world, n).journal.attempts == []
    ensures n > 0 ==> At(Start(start), config, world, n).finished
  {
    hide Iterate, Open;
    if n > 0 {
      NoTurnsEnds(start, config, world, n - 1);
    }
  }

  /** A step without a budget adds only attempts that resume. */
  lemma StepOpensNone(m: Machine, config: Config, world: World)
    requires config.plannerRetries == 0 && RunJournal.NoneOpens(m.journal.attempts)
    ensures RunJournal.NoneOpens(Step(m, config, world).journal.attempts)
  {
    hide Step, Decide.Decide, Outcome;
    var reply := world(m.clock);
    RunJournal.InterleaveNoneOpens([], m.state.claudeSessionId, reply.background);
    if !m.finished && m.pending != [] {
      var cmd := m.pending[0];
      IterationIsStep(m, config, world);
      IterationShape(m, config, reply);
      if !cmd.QueryPlanner? {
        RunJournal.AttemptsAfter(cmd, m.journal, m.state, config, reply);
        hide Apply;
        TailOpensNone(m.journal.attempts, Step(m, config, world).journal.attempts);
      }
    } else if !m.finished && m.state.status.Active? && m.turns < m.state.maxTurns {
      OpeningShape(m, config, world);
    } else {
      ClosingShape(m, config, world);
    }
  }

  lemma TailOpensNone(before: seq<SessionArgs>, after: seq<SessionArgs>)
    requires before <= after && RunJournal.NoneOpens(before) && RunJournal.NoneOpens(after[|before|..])
    ensures RunJournal.NoneOpens(after)
  {
    assert after == before + after[|before|..];
  }

  lemma {:induction false} NoBudgetOpensNone(start: State, config: Config, world: World, n: nat)
    requires config.plannerRetries == 0
    ensures RunJournal.NoneOpens(At(Start(start), config, world, n).journal.attempts)
  {
    hide Step;
    if n > 0 {
      NoBudgetOpensNone(start, config, world, n - 1);
      StepOpensNone(At(Start(start), config, world, n - 1), config, world);
    }
  }

  /** At most the first attempt of a run opens a session, in every world, exactly
      when the summarization threshold is positive, or the run has no turns, or
      its queries have no attempts. */
  lemma SessionGuaranteeIff(start: State, config: Config)
    requires DecideHistory.Fresh(start) && start.claudeSessionId != ""
    ensures (forall world: World, n: nat ::
               RunJournal.OnlyFirstOpens(At(Start(start), config, world, n).journal.attempts))
            <==> config.summarizationTokenThreshold > 0 || start.maxTurns == 0 || config.plannerRetries == 0
  {
    hide At;
    if config.summarizationTokenThreshold > 0 || start.maxTurns == 0 || config.plannerRetries == 0 {
      forall world: World, n: nat
        ensures RunJournal.OnlyFirstOpens(At(Start(start), config, world, n).journal.attempts)
      {
        if start.maxTurns == 0 {
          NoTurnsEnds(start, config, world, n);
        } else if config.plannerRetries == 0 {
          NoBudgetOpensNone(start, config, world, n);
        } else {
          RunJournal.OneSessionOpened(start, config, world, n);
        }
      }
    } else {
      ZeroThresholdOpensTwice(start, config);
    }
  }
}
