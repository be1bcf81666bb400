/** A run's state is a fold of `decide` over the events of the run, so what the
    state's counters mean can be read off the trajectory and the events. */
module RunRefinement {
  import opened Prelude
  import opened RunState
  import opened Decide
  import opened DecideHistory
  import opened Machine
  import RunJournal
  import Shell

  function Inputs(history: seq<Entry>): seq<Input> {
    seq(|history|, i requires 0 <= i < |history| => Input(history[i].event, history[i].effects))
  }

  lemma InputsGrow(history: seq<Entry>, entry: Entry)
    ensures Inputs(history + [entry]) == Inputs(history) + [Input(entry.event, entry.effects)]
  {
  }

  /** The state is the fold; only the turn budget running out is not an event. */
  predicate Folds(start: State, config: Config, m: Machine) {
    var folded := Fold(start, config, Inputs(m.history));
    m.state == if m.finished && folded.status.Active? then folded.(status := Failed) else folded
  }

  predicate Refined(start: State, config: Config, m: Machine) {
    Folds(start, config, m) && Logged(Inputs(m.history)) == m.journal.trajectory
  }

  lemma FoldNext(start: State, config: Config, inputs: seq<Input>, next: Input)
    ensures Fold(start, config, inputs + [next])
         == Decide.Decide(Fold(start, config, inputs), next.event, config, next.effects).state
    ensures Logged(inputs + [next]) == Logged(inputs) + (if next.event.StepLogged? then [next.event.step] else [])
  {
    hide Decide.Decide;
    SnocParts(inputs, next);
  }

  lemma IterationRefined(start: State, config: Config, m: Machine, reply: Shell.Reply)
    requires Refined(start, config, m) && m.pending != [] && !m.finished
    ensures Refined(start, config, Iterate(m, config, reply))
  {
    hide Decide.Decide, Shell.Apply, Inputs, Fold, Logged;
    var cmd := m.pending[0];
    var event := Shell.Apply(cmd, m.journal, m.state, config, reply).event;
    RunJournal.EventOf(cmd, m.journal, m.state, config, reply);
    RunJournal.RecordOf(cmd, m.journal, m.state, config, reply);
    InputsGrow(m.history, Entry(Command(cmd), m.state, event, reply.effects));
    FoldNext(start, config, Inputs(m.history), Input(event, reply.effects));
  }

  lemma OpeningRefined(start: State, config: Config, m: Machine, world: World)
    requires Refined(start, config, m)
    requires m.pending == [] && !m.finished && m.state.status.Active? && m.turns < m.state.maxTurns
    ensures Refined(start, config, Step(m, config, world))
  {
    hide Decide.Decide, Inputs, Fold, Logged, Shell.Interleave, Step;
    var reply := world(m.clock);
    var event := Shell.PollEvent(m.journal.slot, reply);
    OpeningShape(m, config, world);
    InputsGrow(m.history, Entry(Opening, m.state, event, reply.effects));
    FoldNext(start, config, Inputs(m.history), Input(event, reply.effects));
  }

  lemma StepRefined(start: State, config: Config, m: Machine, world: World)
    requires Refined(start, config, m)
    ensures Refined(start, config, Step(m, config, world))
  {
    hide Iterate, Open, Inputs, Fold, Logged;
    if m.finished {
    } else if m.pending != [] {
      IterationRefined(start, config, m, world(m.clock));
    } else if m.state.status.Active? && m.turns < m.state.maxTurns {
      OpeningRefined(start, config, m, world);
    }
  }

  lemma {:induction false} AlwaysRefined(start: State, config: Config, world: World, n: nat)
    ensures Refined(start, config, At(Start(start), config, world, n))
  {
    hide Step, Refined;
    if n > 0 {
      AlwaysRefined(start, config, world, n - 1);
      StepRefined(start, config, At(Start(start), config, world, n - 1), world);
    } else {
      StartRefined(start, config);
    }
  }

  lemma StartRefined(start: State, config: Config)
    ensures Refined(start, config, Start(start))
  {
  }

  lemma {:induction false} LoggedSplit(inputs: seq<Input>, c: nat)
    requires c <= |inputs|
    ensures Logged(inputs) == Logged(inputs[..c]) + Logged(inputs[c..])
  {
    if c < |inputs| {
      LoggedSplit(DropLast(inputs), c);
      assert DropLast(inputs)[..c] == inputs[..c];
      assert DropLast(inputs[c..]) == DropLast(inputs)[c..];
    } else {
      assert inputs[..c] == inputs && inputs[c..] == [];
    }
  }

  /** How many of the run's steps were logged before its last checkpoint. */
  function LoggedBefore(inputs: seq<Input>): (k: nat) {
    |Logged(inputs[..LastCheckpoint(inputs)])|
  }

  /** The incremental state refines the trajectory, at every moment of every
      run: the recent steps are the last min(20, k) of the k steps written
      since the last checkpoint, the token tally counts the responses since
      then, and the failure counter is the current streak, always below three
      while the run is active. */
  lemma StateRefinesRun(start: State, config: Config, world: World, n: nat)
    requires Fresh(start)
    ensures var m := At(Start(start), config, world, n);
            var inputs := Inputs(m.history);
            && LoggedBefore(inputs) <= |m.journal.trajectory|
            && m.state.recentSteps == LastN(m.journal.trajectory[LoggedBefore(inputs)..], 20)
            && m.state.totalPromptTokens == PromptTokens(Since(inputs))
            && TrailingFailures(Outcomes(inputs), m.state.consecutivePlannerFailures)
            && (m.state.status.Active? ==> m.state.consecutivePlannerFailures < 3)
  {
    hide At, Inputs, Fold, Logged, PromptTokens, Outcomes, TrailingFailures, LastCheckpoint;
    var m := At(Start(start), config, world, n);
    var inputs := Inputs(m.history);
    AlwaysRefined(start, config, world, n);
    CountersRefineLog(start, config, inputs);
    FailureCounter(start, config, inputs);
    LoggedSplit(inputs, LastCheckpoint(inputs));
  }

  // Success -----------------------------------------------------------------

  /** Response k confirms: it says the task is complete, and so did the
      response before it (failures and observations may lie between). */
  predicate ConfirmedAt(inputs: seq<Input>, k: nat)
    requires k < |inputs|
  {
    Confirms(inputs[..k], inputs[k].event)
  }

  lemma {:induction false} FoldConfirmed(start: State, config: Config, inputs: seq<Input>)
    requires Fresh(start) && Fold(start, config, inputs).status.Succeeded?
    ensures exists k | 0 <= k < |inputs| :: ConfirmedAt(inputs, k)
  {
    hide Decide.Decide;
    if inputs != [] {
      var front := DropLast(inputs);
      assert inputs == front + [Last(inputs)];
      DoubleFinish(start, config, front, Last(inputs));
      if Confirms(front, Last(inputs).event) {
        assert ConfirmedAt(inputs, |front|);
      } else {
        FoldConfirmed(start, config, front);
        var k :| 0 <= k < |front| && ConfirmedAt(front, k);
        assert front[..k] == inputs[..k];
        assert ConfirmedAt(inputs, k);
      }
    }
  }

  /** No run succeeds on one claim: a succeeded run contains two completing
      responses with no other response between them. */
  lemma SuccessTakesTwoClaims(start: State, config: Config, world: World, n: nat)
    requires Fresh(start)
    requires At(Start(start), config, world, n).state.status.Succeeded?
    ensures var inputs := Inputs(At(Start(start), config, world, n).history);
            exists k | 0 <= k < |inputs| :: ConfirmedAt(inputs, k)
  {
    hide At, Inputs, Logged;
    var m := At(Start(start), config, world, n);
    AlwaysRefined(start, config, world, n);
    FoldConfirmed(start, config, Inputs(m.history));
  }

  /** At every moment of every run the status is that of the last event that set
      one, but for a run that used up its turns, which has failed. */
  lemma RunStatusExact(start: State, config: Config, world: World, n: nat)
    requires Fresh(start)
    ensures var m := At(Start(start), config, world, n);
            var inputs := Inputs(m.history);
            var c := LastSetter(inputs);
            m.state.status
            == if c > 0 then StatusSetBy(inputs[..c - 1], inputs[c - 1].event).value
               else if m.finished then Failed else Active
  {
    hide At, Inputs, Logged, StatusSetBy;
    var m := At(Start(start), config, world, n);
    var inputs := Inputs(m.history);
    AlwaysRefined(start, config, world, n);
    StatusExact(start, config, inputs);
    if LastSetter(inputs) > 0 {
      SetIsTerminal(inputs[..LastSetter(inputs) - 1], inputs[LastSetter(inputs) - 1].event);
    }
  }

  /** No event makes a run active. */
  lemma SetIsTerminal(before: seq<Input>, event: Event)
    ensures StatusSetBy(before, event) != Some(Active)
  {
  }

  // Every entry ----------------------------------------------------------------

  /** Entry i was decided from the fold of the entries before it. */
  ghost predicate EntryFolds(start: State, config: Config, world: World, history: seq<Entry>, i: nat)
    requires i < |history|
  {
    && history[i].before == Fold(start, config, Inputs(history[..i]))
    && history[i].effects == world(i).effects
  }

  lemma StepEntries(start: State, config: Config, world: World, m: Machine)
    requires Refined(start, config, m) && m.clock == |m.history|
    requires forall i | 0 <= i < |m.history| :: EntryFolds(start, config, world, m.history, i)
    ensures var after := Step(m, config, world);
            && after.clock == |after.history|
            && forall i | 0 <= i < |after.history| :: EntryFolds(start, config, world, after.history, i)
  {
    hide Decide.Decide, Shell.Apply, Shell.PollEvent, Shell.Polled, Inputs, Fold, Logged, Step, Iterate;
    var after := Step(m, config, world);
    if !m.finished && m.pending != [] {
      IterationIsStep(m, config, world);
      IterationShape(m, config, world(m.clock));
    } else if !m.finished && m.state.status.Active? && m.turns < m.state.maxTurns {
      OpeningShape(m, config, world);
    } else {
      ClosingShape(m, config, world);
    }
    forall i | 0 <= i < |after.history| ensures EntryFolds(start, config, world, after.history, i) {
      if i < |m.history| {
        assert EntryFolds(start, config, world, m.history, i);
        assert after.history[..i] == m.history[..i] && after.history[i] == m.history[i];
      } else {
        assert after.history[..i] == m.history;
      }
    }
  }

  /** At every moment of every run each decide call so far was made from the fold
      of the events before it, with the id and the time drawn for it. */
  lemma {:induction false} EntriesFold(start: State, config: Config, world: World, n: nat)
    ensures var m := At(Start(start), config, world, n);
            && m.clock == |m.history|
            && forall i | 0 <= i < |m.history| :: EntryFolds(start, config, world, m.history, i)
  {
    hide Step, Refined, EntryFolds;
    if n > 0 {
      EntriesFold(start, config, world, n - 1);
      AlwaysRefined(start, config, world, n - 1);
      StepEntries(start, config, world, At(Start(start), config, world, n - 1));
    }
  }
}
