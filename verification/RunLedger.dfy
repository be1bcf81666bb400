/** What a run records: which events leave a step, in which order. */
module RunLedger {
  import opened Prelude
  import opened RunState
  import opened Decide
  import opened Shell
  import opened Machine
  import opened RunQueue
  import DecideContext
  import DecideHistory
  import RunJournal
  import RunRefinement

  /** A step with the usage it is filed under. */
  datatype Line = Line(step: StepRecord, usage: PlannerUsage)

  function LineOf(row: Row): Line {
    Line(row.step, row.usage)
  }

  function Filed(rows: seq<Row>): seq<Line> {
    seq(|rows|, i requires 0 <= i < |rows| => LineOf(rows[i]))
  }

  function LinesOf(commands: seq<RunState.Command>): seq<Line> {
    if commands == [] then []
    else
      LinesOf(DropLast(commands))
      + if Last(commands).LogStep? then [Line(Last(commands).step, Last(commands).usage)] else []
  }

  lemma {:induction false} LinesConcat(a: seq<RunState.Command>, b: seq<RunState.Command>)
    ensures LinesOf(a + b) == LinesOf(a) + LinesOf(b)
  {
    if b == [] {
      assert a + b == a;
    } else {
      assert DropLast(a + b) == a + DropLast(b);
      LinesConcat(a, DropLast(b));
    }
  }

  /** The events that must leave a step: failures, refreshes, checkpoints, and
      every response that is not a first claim of completion; all of them only
      while the run is active. */
  predicate Reportable(entry: Entry) {
    && (entry.cause.Opening? || entry.before.status.Active?)
    && match entry.event
       case PlannerResponded(parsed, _) => parsed.taskComplete ==> entry.before.pendingCompletion
       case PlannerFailed(_) => true
       case SummarizationDone(_, _) => true
       case ArtifactsRefreshed(_) => true
       case _ => false
  }

  /** A step that records no answer of the planner. */
  predicate Silent(step: StepRecord) {
    step.analysis == None && step.plan == None && step.commands == [] && !step.taskComplete && step.metrics == []
  }

  /** The line is the record of the entry. */
  predicate Reports(line: Line, entry: Entry) {
    && line.step.stepId == entry.effects.newId
    && line.step.timestamp == entry.effects.now
    && match entry.event
       case PlannerResponded(parsed, usage) =>
         && line.usage == usage
         && line.step.source == "agent"
         && line.step.observation == entry.before.lastObservation
         && line.step.analysis == Some(parsed.analysis)
         && line.step.plan == Some(parsed.plan)
         && line.step.commands == parsed.commands
         && line.step.taskComplete == parsed.taskComplete
         && line.step.error == None && !line.step.isCopiedContext
         && line.step.metrics
            == [("prompt_tokens",
                 IntValue(entry.before.totalPromptTokens + usage.inputTokens + usage.cacheReadInputTokens)),
                ("prompt_version", TextValue(PROMPT_VERSION))]
       case PlannerFailed(error) =>
         && line.usage == ZERO_USAGE && line.step.source == "error" && Silent(line.step)
         && line.step.observation == "" && !line.step.isCopiedContext
         && line.step.error == Some("Planner failed: " + Describe(error))
       case ArtifactsRefreshed(trigger) =>
         && line.usage == ZERO_USAGE && line.step.source == "system" && Silent(line.step)
         && line.step.observation == "Artifacts refreshed (trigger=" + trigger + ")"
         && line.step.error == None && !line.step.isCopiedContext
       case _ =>
         && line.usage == ZERO_USAGE && line.step.source == "system" && Silent(line.step)
         && line.step.observation == "Summarization checkpoint created"
         && line.step.error == None && line.step.isCopiedContext
  }

  function Reportables(history: seq<Entry>): seq<Entry> {
    if history == [] then []
    else Reportables(DropLast(history)) + if Reportable(Last(history)) then [Last(history)] else []
  }

  predicate Matches(lines: seq<Line>, entries: seq<Entry>) {
    |lines| == |entries| && forall i | 0 <= i < |lines| :: Reports(lines[i], entries[i])
  }

  lemma {:induction false} NoLines(commands: seq<RunState.Command>)
    requires forall i | 0 <= i < |commands| :: !commands[i].LogStep?
    ensures LinesOf(commands) == []
  {
    if commands != [] {
      NoLines(DropLast(commands));
    }
  }

  /** A response that is not a first claim is logged last, after its keystrokes. */
  lemma LoggedLast(entry: Entry, config: Config) returns (rest: seq<RunState.Command>, log: RunState.Command)
    requires entry.event.PlannerResponded? && (entry.event.parsed.taskComplete ==> entry.before.pendingCompletion)
    ensures Decide.Decide(entry.before, entry.event, config, entry.effects).commands == rest + [log]
    ensures forall i | 0 <= i < |rest| :: !rest[i].LogStep?
    ensures log.LogStep? && Reports(Line(log.step, log.usage), entry)
  {
    hide ClampCommandWait;
    var commands := Decide.Decide(entry.before, entry.event, config, entry.effects).commands;
    rest, log := DropLast(commands), Last(commands);
  }

  lemma ResponseLines(entry: Entry, config: Config)
    requires entry.event.PlannerResponded?
    ensures Matches(LinesOf(Contribution(entry, config)), if Reportable(entry) then [entry] else [])
  {
    hide LinesOf, Reports;
    if Reportable(entry) {
      hide Decide.Decide;
      var rest, log := LoggedLast(entry, config);
      LinesConcat(rest, [log]);
      NoLines(rest);
      OneLine(log);
    } else {
      NoLines(Contribution(entry, config));
    }
  }

  lemma OtherLines(entry: Entry, config: Config)
    requires !entry.event.PlannerResponded?
    ensures Matches(LinesOf(Contribution(entry, config)), if Reportable(entry) then [entry] else [])
  {
    hide OnPlannerResponded, ArtifactRefreshTrigger, StoredBuffer, BuildJob, TailSlice, Describe, LinesOf;
    var commands := Contribution(entry, config);
    if Reportable(entry) {
      assert commands == [commands[0]];
      OneLine(commands[0]);
    } else {
      NoLines(commands);
    }
  }

  lemma ContributionLines(entry: Entry, config: Config)
    ensures Matches(LinesOf(Contribution(entry, config)), if Reportable(entry) then [entry] else [])
  {
    hide Contribution, Reportable, Matches, LinesOf;
    if entry.event.PlannerResponded? {
      ResponseLines(entry, config);
    } else {
      OtherLines(entry, config);
    }
  }

  lemma {:induction false} EmittedLines(history: seq<Entry>, config: Config)
    ensures Matches(LinesOf(Emitted(history, config)), Reportables(history))
  {
    hide Contribution, Reportable, Reports, LinesOf;
    if history == [] {
      NoLines([]);
    } else {
      var entry := Last(history);
      EmittedLines(DropLast(history), config);
      ContributionLines(entry, config);
      LinesConcat(Emitted(DropLast(history), config), Contribution(entry, config));
    }
  }

  /** The rows are the log commands taken from the queue. */
  lemma StepFiles(m: Machine, config: Config, world: World)
    requires Filed(m.journal.rows) == LinesOf(Taken(m.history))
    ensures var after := Step(m, config, world);
            Filed(after.journal.rows) == LinesOf(Taken(after.history))
  {
    hide Decide.Decide, Apply, PollEvent, Step, Iterate, LinesOf, Interleave;
    var reply := world(m.clock);
    var after := Step(m, config, world);
    if m.pending != [] && !m.finished {
      var cmd := m.pending[0];
      IterationIsStep(m, config, world);
      IterationShape(m, config, reply);
      RunJournal.RecordOf(cmd, m.journal, m.state, config, reply);
      assert DropLast(after.history) == m.history;
      LinesConcat(Taken(m.history), [cmd]);
      OneLine(cmd);
    } else if !m.finished && m.state.status.Active? && m.turns < m.state.maxTurns {
      OpeningShape(m, config, world);
      assert DropLast(after.history) == m.history;
    } else {
      ClosingShape(m, config, world);
    }
  }

  lemma OneLine(cmd: RunState.Command)
    ensures LinesOf([cmd]) == if cmd.LogStep? then [Line(cmd.step, cmd.usage)] else []
  {
    assert DropLast([cmd]) == [];
  }

  lemma {:induction false} RowsAreTaken(start: State, config: Config, world: World, n: nat)
    ensures var m := At(Start(start), config, world, n);
            Filed(m.journal.rows) == LinesOf(Taken(m.history))
  {
    hide Step;
    if n > 0 {
      RowsAreTaken(start, config, world, n - 1);
      StepFiles(At(Start(start), config, world, n - 1), config, world);
    }
  }

  /** Log exactness: at every moment of every run the rows written, followed by
      the log commands still queued, report exactly the reportable events so
      far, in order and once each, each under its own id, time and usage. */
  lemma LedgerExact(start: State, config: Config, world: World, n: nat)
    ensures var m := At(Start(start), config, world, n);
            Matches(Filed(m.journal.rows) + LinesOf(m.pending), Reportables(m.history))
  {
    hide At, LinesOf, Taken, Emitted, Reportables, Filed, Matches;
    var m := At(Start(start), config, world, n);
    RowsAreTaken(start, config, world, n);
    QueueExact(start, config, world, n);
    LinesConcat(Taken(m.history), m.pending);
    EmittedLines(m.history, config);
  }

  // What a step shows --------------------------------------------------------------

  /** Where in the history the reportable entries are. */
  function ReportedAt(history: seq<Entry>): (indices: seq<nat>)
    ensures |indices| == |Reportables(history)|
    ensures forall j | 0 <= j < |indices| ::
              indices[j] < |history| && history[indices[j]] == Reportables(history)[j]
    ensures forall j, k | 0 <= j < k < |indices| :: indices[j] < indices[k]
  {
    if history == [] then []
    else ReportedAt(DropLast(history)) + if Reportable(Last(history)) then [|history| - 1] else []
  }

  /** Line j is the record of response i: it shows the observation and the token
      tally that the events before the response leave. */
  predicate ShowsResponse(line: Line, history: seq<Entry>, i: nat, config: Config)
    requires i < |history| && history[i].event.PlannerResponded?
  {
    var before, usage := RunRefinement.Inputs(history[..i]), history[i].event.usage;
    line == Line(DecideContext.ResponseStep(before, history[i].event.parsed, usage, config, history[i].effects), usage)
  }

  /** The agent steps of a run: at every moment, each response filed or queued is
      recorded with the latest capture not used up before it (first claims of
      completion skipped), and the tokens since the last checkpoint. */
  lemma AgentStepsExact(start: State, config: Config, world: World, n: nat)
    requires DecideHistory.Fresh(start)
    ensures var m := At(Start(start), config, world, n);
            var lines, indices := Filed(m.journal.rows) + LinesOf(m.pending), ReportedAt(m.history);
            && |lines| == |indices|
            && forall j | 0 <= j < |lines| && m.history[indices[j]].event.PlannerResponded? ::
                 ShowsResponse(lines[j], m.history, indices[j], config)
  {
    hide At, LinesOf, Filed, Reportables, Reports, ShowsResponse;
    LedgerExact(start, config, world, n);
    var m := At(Start(start), config, world, n);
    var lines, indices := Filed(m.journal.rows) + LinesOf(m.pending), ReportedAt(m.history);
    RunRefinement.EntriesFold(start, config, world, n);
    forall j | 0 <= j < |lines| && m.history[indices[j]].event.PlannerResponded?
      ensures ShowsResponse(lines[j], m.history, indices[j], config)
    {
      assert Reports(lines[j], m.history[indices[j]]);
      assert RunRefinement.EntryFolds(start, config, world, m.history, indices[j]);
      OneStepExact(start, config, world, m.history, indices[j], lines[j]);
    }
  }

  lemma OneStepExact(start: State, config: Config, world: World, history: seq<Entry>, i: nat, line: Line)
    requires DecideHistory.Fresh(start) && i < |history| && history[i].event.PlannerResponded?
    requires RunRefinement.EntryFolds(start, config, world, history, i) && Reports(line, history[i])
    ensures ShowsResponse(line, history, i, config)
  {
    hide RunRefinement.Inputs, DecideHistory.Fold, DecideHistory.Stash, DecideHistory.PromptTokens;
    hide DecideHistory.Since, DecideHistory.Logged;
    var before := RunRefinement.Inputs(history[..i]);
    DecideHistory.StashExact(start, config, before);
    DecideHistory.CountersRefineLog(start, config, before);
  }
}
