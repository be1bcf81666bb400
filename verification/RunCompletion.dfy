/** How a run ends: the completing step of the trajectory, and when a terminal
    status is final. */
module RunCompletion {
  import opened Prelude
  import opened RunState
  import opened Decide
  import opened Shell
  import opened Machine
  import DecideHistory
  import RunJournal
  import RunQueue
  import RunTermination

  function StepsOf(commands: seq<RunState.Command>): seq<StepRecord> {
    if commands == [] then []
    else (if commands[0].LogStep? then [commands[0].step] else []) + StepsOf(commands[1..])
  }

  lemma {:induction false} StepsOfConcat(a: seq<RunState.Command>, b: seq<RunState.Command>)
    ensures StepsOf(a + b) == StepsOf(a) + StepsOf(b)
  {
    if a == [] {
      assert a + b == b;
    } else {
      StepsOfConcat(a[1..], b);
      var rest := a[1..] + b;
      assert a + b == [a[0]] + rest;
      assert ([a[0]] + rest)[1..] == rest;
    }
  }

  lemma StepsOfShort(commands: seq<RunState.Command>)
    ensures |commands| == 1 ==> StepsOf(commands) == (if commands[0].LogStep? then [commands[0].step] else [])
    ensures |commands| == 2 && !commands[0].LogStep? && !commands[1].LogStep? ==> StepsOf(commands) == []
  {
    if |commands| == 1 {
      assert commands[1..] == [];
    } else if |commands| == 2 {
      assert commands[1..] == [commands[1]] && commands[1..][1..] == [];
    }
  }

  lemma {:induction false} StepsOfKeys(commands: seq<RunState.Command>)
    requires forall i | 0 <= i < |commands| :: commands[i].SendKeys?
    ensures StepsOf(commands) == []
  {
    if commands != [] {
      StepsOfKeys(commands[1..]);
    }
  }

  /** The trajectory as it will be once the queued log commands are applied. */
  function Planned(m: Machine): seq<StepRecord> {
    m.journal.trajectory + StepsOf(m.pending)
  }

  predicate NoCompletion(steps: seq<StepRecord>) {
    forall i | 0 <= i < |steps| :: !steps[i].taskComplete
  }

  /** The last step, and only the last step, marks completion. */
  predicate EndsComplete(steps: seq<StepRecord>) {
    steps != [] && Last(steps).taskComplete && NoCompletion(DropLast(steps))
  }

  /** Some decide call took the run from active to succeeded. */
  predicate ConfirmedWhileActive(history: seq<Entry>, config: Config) {
    exists i | 0 <= i < |history| :: ConfirmsAt(history[i], config)
  }

  predicate ConfirmsAt(entry: Entry, config: Config) {
    && entry.before.status.Active?
    && Decide.Decide(entry.before, entry.event, config, entry.effects).state.status.Succeeded?
  }

  predicate CompletionLogged(m: Machine, config: Config) {
    if ConfirmedWhileActive(m.history, config) then !m.state.status.Active? && EndsComplete(Planned(m))
    else NoCompletion(Planned(m))
  }

  /** Which steps a decide call asks to log. */
  lemma StepsAfter(s: State, event: Event, config: Config, effects: Effects)
    ensures var t := Decide.Decide(s, event, config, effects);
            var steps := StepsOf(t.commands);
            && (event.StepLogged? ==> t.commands == [] && t.state.status == s.status)
            && (s.status.Active? && t.state.status.Succeeded? ==> |steps| == 1 && steps[0].taskComplete)
            && (s.status.Active? && !t.state.status.Succeeded? ==> NoCompletion(steps))
  {
    var t := Decide.Decide(s, event, config, effects);
    if event.PlannerResponded? && !event.parsed.taskComplete {
      var keys := KeyCommands(event.parsed.commands, config);
      StepsOfKeys(keys);
      var logs := t.commands[|keys|..];
      StepsOfShort(logs);
      StepsOfConcat(keys, logs);
    } else {
      StepsOfShort(t.commands);
      assert |t.commands| <= 2;
    }
  }

  lemma HistoryGrows(history: seq<Entry>, entry: Entry, config: Config)
    ensures ConfirmedWhileActive(history + [entry], config)
            <==> ConfirmedWhileActive(history, config) || ConfirmsAt(entry, config)
  {
    hide ConfirmsAt;
    var longer := history + [entry];
    if ConfirmedWhileActive(history, config) {
      var i :| 0 <= i < |history| && ConfirmsAt(history[i], config);
      assert longer[i] == history[i];
    }
    assert longer[|history|] == entry;
  }

  /** One more decide call, given what it adds to the planned trajectory. */
  lemma CompletionExtends(m: Machine, after: Machine, entry: Entry, more: seq<StepRecord>, config: Config)
    requires CompletionLogged(m, config)
    requires after.history == m.history + [entry] && entry.before == m.state
    requires Planned(after) == Planned(m) + more
    requires after.state.status == Decide.Decide(m.state, entry.event, config, entry.effects).state.status
    requires !m.state.status.Active? ==> more == [] && !after.state.status.Active?
    requires m.state.status.Active? ==>
               if after.state.status.Succeeded? then |more| == 1 && more[0].taskComplete else NoCompletion(more)
    ensures CompletionLogged(after, config)
  {
    hide Decide.Decide, Planned, ConfirmedWhileActive;
    HistoryGrows(m.history, entry, config);
    if m.state.status.Active? {
      assert NoCompletion(Planned(m));
      if after.state.status.Succeeded? {
        assert DropLast(Planned(after)) == Planned(m);
      }
    } else {
      assert Planned(after) == Planned(m);
    }
  }

  /** What an iteration adds to the planned trajectory: the steps of the
      commands it queues; the step it logs was planned already. */
  lemma PlannedAfter(m: Machine, config: Config, reply: Reply)
    requires m.pending != []
    ensures var event := Apply(m.pending[0], m.journal, m.state, config, reply).event;
            var t := Decide.Decide(m.state, event, config, reply.effects);
            Planned(Iterate(m, config, reply))
            == Planned(m) + if m.state.status.Active? then StepsOf(t.commands) else []
  {
    hide Decide.Decide, Apply, Iterate, StepsOf;
    var cmd, rest := m.pending[0], m.pending[1..];
    var event := Apply(cmd, m.journal, m.state, config, reply).event;
    var commands :=
      if m.state.status.Active? then Decide.Decide(m.state, event, config, reply.effects).commands else [];
    RunJournal.RecordOf(cmd, m.journal, m.state, config, reply);
    IterationShape(m, config, reply);
    var after := Iterate(m, config, reply);
    assert after.pending == rest + commands;
    StepsOfConcat(rest, commands);
    StepsOfFirst(m.pending);
  }

  lemma StepsOfFirst(commands: seq<RunState.Command>)
    ensures StepsOf([]) == []
    ensures commands != [] ==>
              StepsOf(commands) == (if commands[0].LogStep? then [commands[0].step] else []) + StepsOf(commands[1..])
  {
  }

  lemma IterationLogsCompletion(m: Machine, config: Config, reply: Reply)
    requires CompletionLogged(m, config) && m.pending != []
    ensures CompletionLogged(Iterate(m, config, reply), config)
  {
    var cmd := m.pending[0];
    var event := Apply(cmd, m.journal, m.state, config, reply).event;
    var t := Decide.Decide(m.state, event, config, reply.effects);
    StepsAfter(m.state, event, config, reply.effects);
    DecideHistory.CountersAfter(m.state, event, config, reply.effects);
    DecideHistory.FlagsAfter(m.state, event, config, reply.effects);
    PlannedAfter(m, config, reply);
    IterationShape(m, config, reply);
    hide Decide.Decide, Apply, ConfirmedWhileActive, StepsOf, Planned, CompletionLogged, Iterate;
    var after := Iterate(m, config, reply);
    var more := if m.state.status.Active? then StepsOf(t.commands) else [];
    CompletionExtends(m, after, Last(after.history), more, config);
  }

  lemma StepLogsCompletion(m: Machine, config: Config, world: World)
    requires CompletionLogged(m, config)
    ensures CompletionLogged(Step(m, config, world), config)
  {
    var reply := world(m.clock);
    if m.pending != [] && !m.finished {
      IterationIsStep(m, config, world);
      IterationLogsCompletion(m, config, reply);
    } else if !m.finished && m.state.status.Active? && m.turns < m.state.maxTurns {
      OpeningLogsCompletion(m, config, world);
    } else {
      ClosingShape(m, config, world);
      hide Step, ConfirmedWhileActive;
      assert Planned(Step(m, config, world)) == Planned(m);
    }
  }

  lemma OpeningLogsCompletion(m: Machine, config: Config, world: World)
    requires CompletionLogged(m, config)
    requires m.pending == [] && !m.finished && m.state.status.Active? && m.turns < m.state.maxTurns
    ensures CompletionLogged(Step(m, config, world), config)
  {
    var reply := world(m.clock);
    var event := PollEvent(m.journal.slot, reply);
    var t := Decide.Decide(m.state, event, config, reply.effects);
    StepsAfter(m.state, event, config, reply.effects);
    OpeningShape(m, config, world);
    hide Decide.Decide, PollEvent, ConfirmedWhileActive, Step, CompletionLogged, StepsOf;
    var after := Step(m, config, world);
    assert StepsOf([]) == [] by { StepsOfConcat([], []); }
    assert Planned(after) == Planned(m) + StepsOf(t.commands);
    CompletionExtends(m, after, Last(after.history), StepsOf(t.commands), config);
  }

  lemma {:induction false} AlwaysLogsCompletion(start: State, config: Config, world: World, n: nat)
    requires DecideHistory.Fresh(start)
    ensures CompletionLogged(At(Start(start), config, world, n), config)
  {
    hide Step;
    if n > 0 {
      AlwaysLogsCompletion(start, config, world, n - 1);
      StepLogsCompletion(At(Start(start), config, world, n - 1), config, world);
    }
  }

  /** The completing step: when a run has returned, its trajectory has a
      `task_complete` step exactly if some decide call took the run from active
      to succeeded; there is then exactly one, and it is the last step. */
  lemma CompletingStepIsLast(start: State, config: Config, world: World, n: nat)
    requires DecideHistory.Fresh(start)
    requires At(Start(start), config, world, n).finished
    ensures var m := At(Start(start), config, world, n);
            if ConfirmedWhileActive(m.history, config) then EndsComplete(m.journal.trajectory)
            else NoCompletion(m.journal.trajectory)
  {
    AlwaysLogsCompletion(start, config, world, n);
    RunTermination.FinishedIsTerminal(start, config, world, n);
    hide Step, At, ConfirmedWhileActive;
    var m := At(Start(start), config, world, n);
    assert Planned(m) == m.journal.trajectory;
  }

  // Single-chain runs --------------------------------------------------------

  /** A decide call that cannot fork the queue: no response with two or more
      commands, and no summarization submitted. */
  predicate Narrow(entry: Entry, config: Config) {
    && (entry.event.PlannerResponded? ==> |entry.event.parsed.commands| <= 1)
    && forall i | 0 <= i < |RunQueue.Contribution(entry, config)| ::
         !RunQueue.Contribution(entry, config)[i].SubmitSummarization?
  }

  predicate NarrowRun(history: seq<Entry>, config: Config) {
    forall i | 0 <= i < |history| :: Narrow(history[i], config)
  }

  function Live(cmd: RunState.Command): int {
    if cmd.LogStep? then 0 else 1
  }

  predicate OneLive(m: Machine, config: Config) {
    && (forall i | 0 <= i < |m.pending| :: !m.pending[i].SubmitSummarization?)
    && Total(Live, m.pending) <= (if m.state.status.Active? then 1 else 0)
    && (m.state.status.Succeeded? ==> ConfirmedWhileActive(m.history, config))
  }

  lemma {:induction false} LiveNonNegative(commands: seq<RunState.Command>)
    ensures Total(Live, commands) >= 0
    ensures Total(Live, commands) == 0 ==> forall i | 0 <= i < |commands| :: commands[i].LogStep?
  {
    if commands != [] {
      LiveNonNegative(commands[1..]);
    }
  }

  /** A command that cannot fork is followed by at most one live command, and
      by none when it ends the run. */
  lemma FollowUpLive(cmd: RunState.Command, j: Journal, s: State, config: Config, reply: Reply)
    requires s.status.Active? && !cmd.SubmitSummarization?
    requires var event := Apply(cmd, j, s, config, reply).event;
             event.PlannerResponded? ==> |event.parsed.commands| <= 1
    ensures var event := Apply(cmd, j, s, config, reply).event;
            var t := Decide.Decide(s, event, config, reply.effects);
            Total(Live, t.commands) <= (if t.state.status.Active? then Live(cmd) else 0)
            && (cmd.LogStep? ==> t.state.status == s.status)
  {
    var event := Apply(cmd, j, s, config, reply).event;
    var t := Decide.Decide(s, event, config, reply.effects);
    RunJournal.EventOf(cmd, j, s, config, reply);
    if event.PlannerResponded? && !event.parsed.taskComplete {
      var keys := KeyCommands(event.parsed.commands, config);
      TotalConstant(Live, keys, 1);
      var logs := t.commands[|keys|..];
      TotalShort(Live, logs);
      TotalConcat(Live, keys, logs);
    } else {
      TotalShort(Live, t.commands);
    }
  }

  lemma IterationOneLive(m: Machine, config: Config, reply: Reply)
    requires OneLive(m, config) && m.pending != []
    requires Narrow(Last(Iterate(m, config, reply).history), config)
    ensures OneLive(Iterate(m, config, reply), config)
    ensures !m.state.status.Active? ==> Iterate(m, config, reply).state.status == m.state.status
  {
    var cmd, rest := m.pending[0], m.pending[1..];
    var event := Apply(cmd, m.journal, m.state, config, reply).event;
    var t := Decide.Decide(m.state, event, config, reply.effects);
    var after := Iterate(m, config, reply);
    var entry := Last(after.history);
    LiveNonNegative(m.pending);
    LiveNonNegative(rest);
    HistoryGrows(m.history, entry, config);
    RunJournal.EventOf(cmd, m.journal, m.state, config, reply);
    StepsAfter(m.state, event, config, reply.effects);
    if m.state.status.Active? {
      FollowUpLive(cmd, m.journal, m.state, config, reply);
      RunJournal.CommandShape(m.state, event, config, reply.effects);
      hide Decide.Decide, Apply, ConfirmedWhileActive;
      TotalConcat(Live, rest, t.commands);
    } else {
      assert cmd.LogStep?;
      hide Decide.Decide, Apply, ConfirmedWhileActive;
    }
  }

  lemma StepOneLive(m: Machine, config: Config, world: World)
    requires OneLive(m, config) && NarrowRun(Step(m, config, world).history, config)
    ensures OneLive(Step(m, config, world), config)
    ensures !m.state.status.Active? ==> Step(m, config, world).state.status == m.state.status
  {
    var reply := world(m.clock);
    var after := Step(m, config, world);
    if m.pending != [] && !m.finished {
      assert after == Iterate(m, config, reply) && after.history == m.history + [Last(after.history)];
      hide Iterate, Narrow, Step;
      assert Last(after.history) == after.history[|after.history| - 1];
      IterationOneLive(m, config, reply);
    } else if after.history != m.history {
      OpeningOneLive(m, config, reply);
    }
  }

  lemma NarrowPrefix(m: Machine, config: Config, world: World)
    requires NarrowRun(Step(m, config, world).history, config)
    ensures NarrowRun(m.history, config)
  {
    hide Narrow, Decide.Decide, Apply, PollEvent, Polled;
    var after := Step(m, config, world);
    assert forall i | 0 <= i < |m.history| :: m.history[i] == after.history[i];
  }

  lemma OpeningOneLive(m: Machine, config: Config, reply: Reply)
    requires OneLive(m, config) && m.pending == [] && m.state.status.Active?
    requires Narrow(Last(Open(m, config, reply).history), config)
    ensures OneLive(Open(m, config, reply), config)
  {
    var event := PollEvent(m.journal.slot, reply);
    var t := Decide.Decide(m.state, event, config, reply.effects);
    var after := Open(m, config, reply);
    HistoryGrows(m.history, Last(after.history), config);
    hide ConfirmedWhileActive;
    var contribution := RunQueue.Contribution(Last(after.history), config);
    assert t.commands == contribution;
    assert contribution != [] ==> !contribution[0].SubmitSummarization?;
    TotalShort(Live, t.commands);
    assert |t.commands| <= 1;
  }

  /** In a run that never forks the queue a terminal status is final, and a
      succeeded run's trajectory ends with its only `task_complete` step. */
  lemma NarrowRunsEndCleanly(start: State, config: Config, world: World, k: nat, n: nat)
    requires DecideHistory.Fresh(start) && k <= n
    requires NarrowRun(At(Start(start), config, world, n).history, config)
    ensures var m := At(Start(start), config, world, n);
            var earlier := At(Start(start), config, world, k);
            && (!earlier.state.status.Active? ==> m.state.status == earlier.state.status)
            && (m.finished && m.state.status.Succeeded? ==> EndsComplete(m.journal.trajectory))
  {
    hide Step, ConfirmedWhileActive, Narrow;
    NarrowRunOneLive(start, config, world, k, n);
    var m := At(Start(start), config, world, n);
    if m.finished {
      CompletingStepIsLast(start, config, world, n);
    }
  }

  lemma {:induction false} NarrowRunOneLive(start: State, config: Config, world: World, k: nat, n: nat)
    requires DecideHistory.Fresh(start) && k <= n
    requires NarrowRun(At(Start(start), config, world, n).history, config)
    ensures OneLive(At(Start(start), config, world, n), config)
    ensures !At(Start(start), config, world, k).state.status.Active? ==>
              At(Start(start), config, world, n).state.status == At(Start(start), config, world, k).state.status
  {
    hide Step, ConfirmedWhileActive, Narrow;
    if n > 0 {
      var before := At(Start(start), config, world, n - 1);
      NarrowPrefix(before, config, world);
      NarrowRunOneLive(start, config, world, if k < n then k else n - 1, n - 1);
      StepOneLive(before, config, world);
    }
  }
}
