/** What becomes of the usage the planner reports: which of it the rows file,
    and which is filed nowhere. */
module RunUsage {
  import opened Prelude
  import opened RunState
  import opened Decide
  import opened Shell
  import opened Machine
  import Container
  import DecideHistory
  import Planner
  import RunJournal
  import RunLedger
  import RunTermination
  import RunWitnesses
  import SummarizeWorker

  // Usage --------------------------------------------------------------------

  /** What a row files of the planner's usage. */
  datatype Tally = Tally(inputTokens: int, outputTokens: int, costUsd: real, durationMs: int)

  const ZERO_TALLY := Tally(0, 0, 0.0, 0)

  function Plus(a: Tally, b: Tally): Tally {
    Tally(a.inputTokens + b.inputTokens, a.outputTokens + b.outputTokens,
          a.costUsd + b.costUsd, a.durationMs + b.durationMs)
  }

  lemma PlusZero(a: Tally)
    ensures Plus(a, ZERO_TALLY) == a && Plus(ZERO_TALLY, a) == a
  {
  }

  lemma PlusSwap(a: Tally, b: Tally, x: Tally, y: Tally)
    ensures Plus(Plus(a, b), Plus(x, y)) == Plus(Plus(a, x), Plus(b, y))
  {
  }

  function TallyOf(usage: PlannerUsage): Tally {
    Tally(usage.inputTokens, usage.outputTokens, usage.costUsd, usage.durationMs)
  }

  function FiledUsage(rows: seq<Row>): Tally {
    if rows == [] then ZERO_TALLY else Plus(FiledUsage(DropLast(rows)), TallyOf(Last(rows).usage))
  }

  // What the planner printed ---------------------------------------------------

  /** What the output of a query reports, whether or not its body validates. */
  function PrintedBy(entry: Entry, reply: Reply, config: Config): Tally {
    if entry.cause.Command? && entry.cause.cmd.QueryPlanner? then
      match Planner.Outcome(reply.attempts, config.plannerRetries)
      case Ok(output) => TallyOf(output.usage)
      case Err(_) => ZERO_TALLY
    else ZERO_TALLY
  }

  /** What becomes of the usage an output reports: it is filed with a step; or
      it came with a first claim of completion, after the run had become
      terminal, or with a body that does not validate. */
  datatype Fate = Kept | Claimed | TooLate | Garbled

  function FateOf(entry: Entry): Fate {
    if !entry.event.PlannerResponded? then Garbled
    else if RunLedger.Reportable(entry) then Kept
    else if entry.before.status.Active? then Claimed
    else TooLate
  }

  /** Which fates a sum is over. */
  datatype Share = Whole | Missing | Only(fate: Fate)

  predicate Includes(share: Share, fate: Fate) {
    match share
    case Whole => true
    case Missing => fate != Kept
    case Only(f) => fate == f
  }

  /** The printed usage of a share of the entries; entry i used reply i. */
  function Printed(history: seq<Entry>, world: World, config: Config, share: Share): Tally {
    if history == [] then ZERO_TALLY
    else
      Plus(Printed(DropLast(history), world, config, share),
           if Includes(share, FateOf(Last(history))) then PrintedBy(Last(history), world(|history| - 1), config)
           else ZERO_TALLY)
  }

  /** What the entries up to the last printed, and what the last one did. */
  lemma PrintedSnoc(history: seq<Entry>, entry: Entry, world: World, config: Config, share: Share)
    ensures Printed(history + [entry], world, config, share)
         == Plus(Printed(history, world, config, share),
                 if Includes(share, FateOf(entry)) then PrintedBy(entry, world(|history|), config) else ZERO_TALLY)
  {
    hide FateOf, PrintedBy, Plus, Includes;
    SnocParts(history, entry);
  }

  lemma NothingPrinted(world: World, config: Config, share: Share)
    ensures Printed([], world, config, share) == ZERO_TALLY
  {
    hide FateOf, PrintedBy, Plus, Includes;
  }

  lemma {:induction false} PrintedSplits(history: seq<Entry>, world: World, config: Config)
    ensures Printed(history, world, config, Whole)
         == Plus(Printed(history, world, config, Only(Kept)), Printed(history, world, config, Missing))
  {
    hide FateOf, PrintedBy, Plus, Printed;
    if history == [] {
      NothingPrinted(world, config, Whole);
      NothingPrinted(world, config, Only(Kept));
      NothingPrinted(world, config, Missing);
      PlusZero(ZERO_TALLY);
    } else {
      var front, entry := DropLast(history), Last(history);
      assert history == front + [entry];
      PrintedSplits(front, world, config);
      PrintedSnoc(front, entry, world, config, Whole);
      PrintedSnoc(front, entry, world, config, Only(Kept));
      PrintedSnoc(front, entry, world, config, Missing);
      var kept, missing := Printed(front, world, config, Only(Kept)), Printed(front, world, config, Missing);
      var cost := PrintedBy(entry, world(|front|), config);
      PlusSwap(kept, missing, cost, ZERO_TALLY);
      PlusSwap(kept, missing, ZERO_TALLY, cost);
      PlusZero(cost);
    }
  }

  /** What is missing came with a first claim, too late, or garbled. */
  lemma {:induction false} LossesSplit(history: seq<Entry>, world: World, config: Config)
    ensures Printed(history, world, config, Missing)
         == Plus(Plus(Printed(history, world, config, Only(Claimed)), Printed(history, world, config, Only(TooLate))),
                 Printed(history, world, config, Only(Garbled)))
  {
    hide FateOf, PrintedBy, Plus, Printed;
    if history == [] {
      NothingPrinted(world, config, Missing);
      NothingPrinted(world, config, Only(Claimed));
      NothingPrinted(world, config, Only(TooLate));
      NothingPrinted(world, config, Only(Garbled));
      PlusZero(ZERO_TALLY);
    } else {
      var front, entry := DropLast(history), Last(history);
      assert history == front + [entry];
      LossesSplit(front, world, config);
      PrintedSnoc(front, entry, world, config, Missing);
      PrintedSnoc(front, entry, world, config, Only(Claimed));
      PrintedSnoc(front, entry, world, config, Only(TooLate));
      PrintedSnoc(front, entry, world, config, Only(Garbled));
      var a, b := Printed(front, world, config, Only(Claimed)), Printed(front, world, config, Only(TooLate));
      var c, cost := Printed(front, world, config, Only(Garbled)), PrintedBy(entry, world(|front|), config);
      ThreeWays(a, b, c, cost);
      PlusZero(a);
      PlusZero(b);
      PlusZero(c);
      PlusZero(Plus(Plus(a, b), c));
    }
  }

  lemma ThreeWays(a: Tally, b: Tally, c: Tally, x: Tally)
    ensures Plus(Plus(Plus(a, b), c), x) == Plus(Plus(Plus(a, x), b), c)
    ensures Plus(Plus(Plus(a, b), c), x) == Plus(Plus(a, Plus(b, x)), c)
    ensures Plus(Plus(Plus(a, b), c), x) == Plus(Plus(a, b), Plus(c, x))
  {
  }

  /** Queries are answered from their replies, and nothing else is a response. */
  predicate Answered(m: Machine, config: Config, world: World) {
    && m.clock == |m.history|
    && forall i | 0 <= i < |m.history| :: AnsweredAt(m.history[i], world(i), config)
  }

  predicate AnsweredAt(entry: Entry, reply: Reply, config: Config) {
    if entry.cause.Command? && entry.cause.cmd.QueryPlanner?
    then entry.event == AnswerEvent(Planner.Outcome(reply.attempts, config.plannerRetries))
    else !entry.event.PlannerResponded?
  }

  lemma EventAnswers(cmd: RunState.Command, j: Journal, s: State, config: Config, reply: Reply)
    ensures var event := Apply(cmd, j, s, config, reply).event;
            AnsweredAt(Entry(Cause.Command(cmd), s, event, reply.effects), reply, config)
  {
    hide Planner.Outcome, Planner.AttemptArgs, Interleave;
    RunJournal.EventOf(cmd, j, s, config, reply);
  }

  lemma StepAnswered(m: Machine, config: Config, world: World)
    requires Answered(m, config, world)
    ensures Answered(Step(m, config, world), config, world)
  {
    hide Decide.Decide, Apply, Polled, Step, Iterate, AnsweredAt;
    var reply := world(m.clock);
    if m.pending != [] && !m.finished {
      IterationIsStep(m, config, world);
      IterationShape(m, config, reply);
      EventAnswers(m.pending[0], m.journal, m.state, config, reply);
    } else if !m.finished && m.state.status.Active? && m.turns < m.state.maxTurns {
      OpeningShape(m, config, world);
      OpeningAnswers(m, config, reply);
    } else {
      ClosingShape(m, config, world);
    }
  }

  lemma OpeningAnswers(m: Machine, config: Config, reply: Reply)
    ensures AnsweredAt(Entry(Opening, m.state, PollEvent(m.journal.slot, reply), reply.effects), reply, config)
  {
  }

  lemma {:induction false} AlwaysAnswered(start: State, config: Config, world: World, n: nat)
    ensures Answered(At(Start(start), config, world, n), config, world)
  {
    hide Step, AnsweredAt;
    if n > 0 {
      AlwaysAnswered(start, config, world, n - 1);
      StepAnswered(At(Start(start), config, world, n - 1), config, world);
    }
  }

  // The rows -------------------------------------------------------------------

  function ResponseUsage(entry: Entry): Tally {
    if entry.event.PlannerResponded? then TallyOf(entry.event.usage) else ZERO_TALLY
  }

  function Responses(entries: seq<Entry>): Tally {
    if entries == [] then ZERO_TALLY else Plus(Responses(DropLast(entries)), ResponseUsage(Last(entries)))
  }

  lemma ReportedUsage(line: RunLedger.Line, entry: Entry)
    requires RunLedger.Reports(line, entry)
    ensures TallyOf(line.usage) == ResponseUsage(entry)
  {
  }

  lemma {:induction false} FiledIsAnswered(rows: seq<Row>, entries: seq<Entry>)
    requires RunLedger.Matches(RunLedger.Filed(rows), entries)
    ensures FiledUsage(rows) == Responses(entries)
  {
    hide RunLedger.Reports, ResponseUsage, TallyOf, Plus;
    if rows != [] {
      var lines := RunLedger.Filed(rows);
      assert lines[|rows| - 1] == RunLedger.LineOf(Last(rows));
      assert RunLedger.Reports(lines[|rows| - 1], Last(entries));
      ReportedUsage(RunLedger.LineOf(Last(rows)), Last(entries));
      assert RunLedger.Filed(DropLast(rows)) == DropLast(lines);
      FiledIsAnswered(DropLast(rows), DropLast(entries));
    }
  }

  /** A reportable entry's response is what its query printed. */
  lemma KeptIsPrinted(entry: Entry, reply: Reply, config: Config)
    requires AnsweredAt(entry, reply, config)
    ensures (if RunLedger.Reportable(entry) then ResponseUsage(entry) else ZERO_TALLY)
         == if FateOf(entry) == Kept then PrintedBy(entry, reply, config) else ZERO_TALLY
  {
    hide Planner.Outcome, TallyOf;
  }

  lemma {:induction false} ReportedIsKept(history: seq<Entry>, world: World, config: Config)
    requires forall i | 0 <= i < |history| :: AnsweredAt(history[i], world(i), config)
    ensures Responses(RunLedger.Reportables(history)) == Printed(history, world, config, Only(Kept))
  {
    hide FateOf, PrintedBy, AnsweredAt, ResponseUsage, RunLedger.Reportable, Plus, Printed;
    if history == [] {
      NothingPrinted(world, config, Only(Kept));
    } else {
      var front, entry := DropLast(history), Last(history);
      assert history == front + [entry];
      ReportedIsKept(front, world, config);
      assert AnsweredAt(entry, world(|front|), config);
      KeptIsPrinted(entry, world(|front|), config);
      PrintedSnoc(front, entry, world, config, Only(Kept));
      PlusZero(Responses(RunLedger.Reportables(front)));
      if RunLedger.Reportable(entry) {
        SnocParts(RunLedger.Reportables(front), entry);
      } else {
        assert RunLedger.Reportables(history) == RunLedger.Reportables(front);
      }
    }
  }

  /** The usage ledger of a finished run (tokens, cost and time): what the rows
      file, together with what came with a first claim of completion, after the
      end, or with a body that does not validate, is what the queries printed. */
  lemma UsageBalance(start: State, config: Config, world: World, n: nat)
    requires At(Start(start), config, world, n).finished
    ensures var m := At(Start(start), config, world, n);
            && FiledUsage(m.journal.rows) == Printed(m.history, world, config, Only(Kept))
            && Plus(FiledUsage(m.journal.rows), Printed(m.history, world, config, Missing))
               == Printed(m.history, world, config, Whole)
  {
    hide At, Printed, FiledUsage, Responses, AnsweredAt, RunLedger.Reportables, RunLedger.Filed, RunLedger.Matches;
    var m := At(Start(start), config, world, n);
    RunLedger.LedgerExact(start, config, world, n);
    RunTermination.FinishedIsTerminal(start, config, world, n);
    assert RunLedger.LinesOf([]) == [] by { RunLedger.NoLines([]); }
    assert RunLedger.Filed(m.journal.rows) + [] == RunLedger.Filed(m.journal.rows);
    FiledIsAnswered(m.journal.rows, RunLedger.Reportables(m.history));
    AlwaysAnswered(start, config, world, n);
    ReportedIsKept(m.history, world, config);
    PrintedSplits(m.history, world, config);
  }

  // When nothing is lost ---------------------------------------------------------

  predicate NonNegative(t: Tally) {
    t.inputTokens >= 0 && t.outputTokens >= 0 && t.costUsd >= 0.0 && t.durationMs >= 0
  }

  /** No query printed a negative usage. */
  predicate Priced(history: seq<Entry>, world: World, config: Config) {
    forall i | 0 <= i < |history| :: NonNegative(PrintedBy(history[i], world(i), config))
  }

  /** Every output that was lost was free. */
  predicate LosesNothing(history: seq<Entry>, world: World, config: Config) {
    forall i | 0 <= i < |history| && FateOf(history[i]) != Kept :: PrintedBy(history[i], world(i), config) == ZERO_TALLY
  }

  lemma {:induction false} LossIsZeroIff(history: seq<Entry>, world: World, config: Config)
    requires Priced(history, world, config)
    ensures NonNegative(Printed(history, world, config, Missing))
    ensures Printed(history, world, config, Missing) == ZERO_TALLY <==> LosesNothing(history, world, config)
  {
    hide FateOf, PrintedBy;
    if history != [] {
      var front, last := DropLast(history), |history| - 1;
      assert NonNegative(PrintedBy(history[last], world(last), config));
      forall i | 0 <= i < |front| ensures NonNegative(PrintedBy(front[i], world(i), config)) {
        assert NonNegative(PrintedBy(history[i], world(i), config));
      }
      LossIsZeroIff(front, world, config);
      assert LosesNothing(history, world, config)
        <==> LosesNothing(front, world, config)
             && (FateOf(history[last]) != Kept ==> PrintedBy(history[last], world(last), config) == ZERO_TALLY) by {
        LosesSnoc(history, world, config);
      }
    }
  }

  lemma LosesSnoc(history: seq<Entry>, world: World, config: Config)
    requires history != []
    ensures LosesNothing(history, world, config)
            <==> LosesNothing(DropLast(history), world, config)
                 && (FateOf(Last(history)) != Kept ==>
                       PrintedBy(Last(history), world(|history| - 1), config) == ZERO_TALLY)
  {
    hide FateOf, PrintedBy;
    var front := DropLast(history);
    if LosesNothing(front, world, config) {
      forall i | 0 <= i < |front| && FateOf(history[i]) != Kept
        ensures PrintedBy(history[i], world(i), config) == ZERO_TALLY
      {
        assert front[i] == history[i];
      }
    }
    if LosesNothing(history, world, config) {
      forall i | 0 <= i < |front| && FateOf(front[i]) != Kept
        ensures PrintedBy(front[i], world(i), config) == ZERO_TALLY
      {
        assert front[i] == history[i];
      }
      assert history[|front|] == Last(history);
    }
  }

  /** The rows of a finished run add up to what its queries printed exactly when
      every first claim, late response and unreadable output was free. */
  lemma RowsAddUpIff(start: State, config: Config, world: World, n: nat)
    requires At(Start(start), config, world, n).finished
    ensures var m := At(Start(start), config, world, n);
            && (FiledUsage(m.journal.rows) == Printed(m.history, world, config, Whole)
                <==> Printed(m.history, world, config, Missing) == ZERO_TALLY)
            && (Priced(m.history, world, config) ==>
                  (FiledUsage(m.journal.rows) == Printed(m.history, world, config, Whole)
                   <==> LosesNothing(m.history, world, config)))
  {
    hide At, Printed, FiledUsage, Priced, LosesNothing;
    var m := At(Start(start), config, world, n);
    UsageBalance(start, config, world, n);
    if Priced(m.history, world, config) {
      LossIsZeroIff(m.history, world, config);
    }
  }

  // What is lost ---------------------------------------------------------------

  /** A response that left no step. */
  predicate Lost(entry: Entry) {
    entry.event.PlannerResponded? && !RunLedger.Reportable(entry)
  }

  predicate Loses(history: seq<Entry>) {
    exists i | 0 <= i < |history| :: Lost(history[i])
  }

  lemma LosesMore(history: seq<Entry>, entry: Entry)
    ensures Loses(history + [entry]) <==> Loses(history) || Lost(entry)
  {
    hide Lost;
    var longer := history + [entry];
    if Loses(history) {
      var i :| 0 <= i < |history| && Lost(history[i]);
      assert longer[i] == history[i];
    }
    assert longer[|history|] == entry;
  }

  /** A claim is on record, or the run has succeeded, only if a claim was lost. */
  predicate ClaimLost(m: Machine) {
    m.state.pendingCompletion || m.state.status.Succeeded? ==> Loses(m.history)
  }

  lemma StepLosesClaim(m: Machine, config: Config, world: World)
    requires ClaimLost(m)
    ensures ClaimLost(Step(m, config, world))
  {
    hide Decide.Decide, Apply, PollEvent, Polled, Step, Iterate, Loses;
    var reply := world(m.clock);
    if m.pending != [] && !m.finished {
      var event := Apply(m.pending[0], m.journal, m.state, config, reply).event;
      IterationIsStep(m, config, world);
      IterationShape(m, config, reply);
      DecideHistory.FlagsAfter(m.state, event, config, reply.effects);
      LosesMore(m.history, Entry(Cause.Command(m.pending[0]), m.state, event, reply.effects));
    } else if !m.finished && m.state.status.Active? && m.turns < m.state.maxTurns {
      var event := PollEvent(m.journal.slot, reply);
      OpeningShape(m, config, world);
      DecideHistory.FlagsAfter(m.state, event, config, reply.effects);
      assert !event.PlannerResponded? by { TurnsOpenQuietly(m.journal.slot, reply); }
      LosesMore(m.history, Entry(Opening, m.state, event, reply.effects));
    } else {
      ClosingShape(m, config, world);
    }
  }

  lemma TurnsOpenQuietly(slot: SummarizeWorker.Slot, reply: Reply)
    ensures !PollEvent(slot, reply).PlannerResponded?
  {
  }

  /** Every run that succeeds has a response that was never filed: the ledger of
      a successful run is complete only if its first claim cost nothing. */
  lemma {:induction false} SuccessLosesAClaim(start: State, config: Config, world: World, n: nat)
    requires DecideHistory.Fresh(start)
    ensures ClaimLost(At(Start(start), config, world, n))
  {
    hide Step, Loses;
    if n > 0 {
      SuccessLosesAClaim(start, config, world, n - 1);
      StepLosesClaim(At(Start(start), config, world, n - 1), config, world);
    }
  }

  // Two runs -------------------------------------------------------------------

  /** Every query prints the same output. */
  function OutputWorld(output: Planner.Output): World {
    _ => Reply(Effects("", ""), true, None, Container.Capture("", ""), Sent(true),
               [Planner.Printed(output)], 0, true, [])
  }

  /** A claim of completion. */
  function Claim(usage: PlannerUsage): Planner.Output {
    Planner.Output(Some(ParseResult("", "", [], true)), usage)
  }

  /** A live machine whose queries have printed and lost so much. */
  predicate Accounts(m: Machine, config: Config, output: Planner.Output, printed: Tally, lost: Tally) {
    && Printed(m.history, OutputWorld(output), config, Whole) == printed
    && Printed(m.history, OutputWorld(output), config, Missing) == lost
    && !m.finished
  }

  /** What an entry of such a world prints. */
  function Cost(entry: Entry, config: Config, output: Planner.Output): Tally {
    PrintedBy(entry, OutputWorld(output)(0), config)
  }

  lemma AccountsGrow(history: seq<Entry>, entry: Entry, config: Config, output: Planner.Output)
    ensures var w := OutputWorld(output);
            && Printed(history + [entry], w, config, Whole)
               == Plus(Printed(history, w, config, Whole), Cost(entry, config, output))
            && Printed(history + [entry], w, config, Missing)
               == if FateOf(entry) != Kept then Plus(Printed(history, w, config, Missing), Cost(entry, config, output))
                  else Printed(history, w, config, Missing)
  {
    hide FateOf, PrintedBy, Plus, Printed;
    var w := OutputWorld(output);
    PrintedSnoc(history, entry, w, config, Whole);
    PrintedSnoc(history, entry, w, config, Missing);
    PlusZero(Printed(history, w, config, Missing));
    assert w(|history|) == w(0);
  }

  /** The first attempt of a query of such a world prints. */
  lemma FirstOutput(output: Planner.Output, retries: nat)
    requires retries > 0
    ensures Planner.Outcome(OutputWorld(output)(0).attempts, retries) == Ok(output)
  {
    RunWitnesses.FirstPrintDecides(output, retries);
  }

  /** A query of such a world costs what its output reports. */
  lemma QueryCost(entry: Entry, config: Config, output: Planner.Output)
    requires entry.cause.Command? && entry.cause.cmd.QueryPlanner? && config.plannerRetries > 0
    ensures Cost(entry, config, output) == TallyOf(output.usage)
  {
    RunWitnesses.FirstPrintDecides(output, config.plannerRetries);
    hide Planner.Outcome;
  }

  /** A fresh run's first tick observes. */
  lemma FirstTick(start: State, config: Config, effects: Effects)
    requires DecideHistory.Fresh(start) && config.summarizationTokenThreshold > 0
    ensures Decide.Decide(start, LoopTick(true, true), config, effects) == Transition(start, [Observe])
  {
  }

  lemma OutputOpening(start: State, config: Config, output: Planner.Output)
    requires DecideHistory.Fresh(start) && start.maxTurns > 0 && config.summarizationTokenThreshold > 0
    ensures var m := Step(Start(start), config, OutputWorld(output));
            m.pending == [Observe] && m.state == start && Accounts(m, config, output, ZERO_TALLY, ZERO_TALLY)
  {
    hide Step, Printed, Polled, Decide.Decide, RunLedger.Reportable, FateOf, Plus;
    var m, w := Start(start), OutputWorld(output);
    var entry := Entry(Opening, start, LoopTick(true, true), w(0).effects);
    NothingPrinted(w, config, Whole);
    NothingPrinted(w, config, Missing);
    PlusZero(ZERO_TALLY);
    FirstTick(start, config, w(0).effects);
    OpeningShape(m, config, w);
    AccountsGrow([], entry, config, output);
    assert [] + [entry] == Step(m, config, w).history;
  }

  /** An iteration of the queue, with its event. */
  lemma OutputIteration(m: Machine, config: Config, output: Planner.Output, printed: Tally, lost: Tally)
    returns (entry: Entry)
    requires m.pending != [] && Accounts(m, config, output, printed, lost)
    ensures var w := OutputWorld(output);
            var event := Apply(m.pending[0], m.journal, m.state, config, w(m.clock)).event;
            var t := Decide.Decide(m.state, event, config, w(m.clock).effects);
            var after := Step(m, config, w);
            && entry == Entry(Cause.Command(m.pending[0]), m.state, event, w(m.clock).effects)
            && after.history == m.history + [entry]
            && after.state == t.state
            && after.pending == (if m.state.status.Active? then m.pending[1..] + t.commands else m.pending[1..])
            && Accounts(after, config, output, Plus(printed, Cost(entry, config, output)),
                        if FateOf(entry) != Kept then Plus(lost, Cost(entry, config, output)) else lost)
  {
    hide Step, Decide.Decide, Apply, Printed, FateOf, Cost, OutputWorld;
    var w := OutputWorld(output);
    var event := Apply(m.pending[0], m.journal, m.state, config, w(m.clock)).event;
    entry := Entry(Cause.Command(m.pending[0]), m.state, event, w(m.clock).effects);
    IterationIsStep(m, config, w);
    IterationShape(m, config, w(m.clock));
    AccountsGrow(m.history, entry, config, output);
  }

  lemma QueryFollows(s: State, event: Event, config: Config, effects: Effects)
    requires event.ObservationCaptured?
    ensures var t := Decide.Decide(s, event, config, effects);
            && |t.commands| == 1 && t.commands[0].QueryPlanner?
            && t.state.status == s.status && t.state.pendingCompletion == s.pendingCompletion
  {
    hide StoredBuffer;
  }

  lemma OutputObservation(m: Machine, config: Config, output: Planner.Output)
    requires m.pending == [Observe] && m.state.status.Active?
    requires Accounts(m, config, output, ZERO_TALLY, ZERO_TALLY)
    ensures var after := Step(m, config, OutputWorld(output));
            && |after.pending| == 1 && after.pending[0].QueryPlanner?
            && after.state.status.Active? && after.state.pendingCompletion == m.state.pendingCompletion
            && Accounts(after, config, output, ZERO_TALLY, ZERO_TALLY)
  {
    hide Step, Printed, Apply, Decide.Decide, FateOf, OutputWorld, Plus;
    PlusZero(ZERO_TALLY);
    var entry := OutputIteration(m, config, output, ZERO_TALLY, ZERO_TALLY);
    RunJournal.EventOf(m.pending[0], m.journal, m.state, config, OutputWorld(output)(m.clock));
    QueryFollows(m.state, entry.event, config, entry.effects);
  }

  lemma ClaimFollows(s: State, parsed: ParseResult, usage: PlannerUsage, config: Config, effects: Effects)
    requires parsed.taskComplete
    ensures var t := Decide.Decide(s, PlannerResponded(parsed, usage), config, effects);
            && |t.commands| == 1 && t.state.pendingCompletion
            && (if s.pendingCompletion then t.commands[0].LogStep? && t.state.status.Succeeded?
                else t.commands[0].QueryPlanner? && t.state.status == s.status)
  {
  }

  lemma ClaimQuery(m: Machine, config: Config, usage: PlannerUsage, printed: Tally, lost: Tally)
    requires |m.pending| == 1 && m.pending[0].QueryPlanner? && config.plannerRetries > 0
    requires m.state.status.Active? && Accounts(m, config, Claim(usage), printed, lost)
    ensures var after := Step(m, config, OutputWorld(Claim(usage)));
            && |after.pending| == 1 && after.state.pendingCompletion
            && (if m.state.pendingCompletion then after.pending[0].LogStep? && after.state.status.Succeeded?
                else after.pending[0].QueryPlanner? && after.state.status.Active?)
            && Accounts(after, config, Claim(usage), Plus(printed, TallyOf(usage)),
                        if m.state.pendingCompletion then lost else Plus(lost, TallyOf(usage)))
  {
    hide Step, Printed, Decide.Decide, TallyOf, Plus, Interleave, Planner.AttemptArgs, Cost;
    RunWitnesses.FirstPrintDecides(Claim(usage), config.plannerRetries);
    hide Planner.Outcome;
    var entry := OutputIteration(m, config, Claim(usage), printed, lost);
    assert entry.event == PlannerResponded(Claim(usage).parsed.value, usage);
    ClaimFollows(m.state, Claim(usage).parsed.value, usage, config, entry.effects);
    QueryCost(entry, config, Claim(usage));
  }

  lemma ClaimEnd(m: Machine, config: Config, output: Planner.Output, printed: Tally, lost: Tally)
    requires |m.pending| == 1 && m.pending[0].LogStep? && m.state.status.Succeeded?
    requires Accounts(m, config, output, printed, lost)
    ensures var w := OutputWorld(output);
            var after := Step(Step(m, config, w), config, w);
            && after.finished && after.state.status.Succeeded?
            && Printed(after.history, w, config, Whole) == printed && Printed(after.history, w, config, Missing) == lost
  {
    hide Step, Printed, Interleave;
    var entry := OutputIteration(m, config, output, printed, lost);
    assert entry.event.StepLogged? && Cost(entry, config, output) == ZERO_TALLY;
    ClosingShape(Step(m, config, OutputWorld(output)), config, OutputWorld(output));
  }

  /** A run that claims completion and confirms, each claim at the same cost,
      files half of what it spent. */
  lemma HalfIsLost(start: State, config: Config, usage: PlannerUsage)
    requires DecideHistory.Fresh(start) && start.maxTurns > 0 && config.summarizationTokenThreshold > 0
    requires config.plannerRetries > 0
    ensures var w := OutputWorld(Claim(usage));
            var m := At(Start(start), config, w, 6);
            var cost := TallyOf(usage);
            && m.finished && m.state.status.Succeeded?
            && Printed(m.history, w, config, Whole) == Plus(cost, cost)
            && Printed(m.history, w, config, Missing) == cost
            && FiledUsage(m.journal.rows) == cost
  {
    hide Step, At, OutputWorld, FiledUsage, TallyOf, Printed, Claim;
    var output, m, cost := Claim(usage), Start(start), TallyOf(usage);
    var w := OutputWorld(output);
    AtZero(m, config, w);
    OutputOpening(start, config, output);
    AtNext(m, config, w, 0);
    OutputObservation(At(m, config, w, 1), config, output);
    AtNext(m, config, w, 1);
    ClaimQuery(At(m, config, w, 2), config, usage, ZERO_TALLY, ZERO_TALLY);
    AtNext(m, config, w, 2);
    ClaimQuery(At(m, config, w, 3), config, usage, cost, cost);
    AtNext(m, config, w, 3);
    ClaimEnd(At(m, config, w, 4), config, output, Plus(cost, cost), cost);
    AtNext(m, config, w, 4);
    AtNext(m, config, w, 5);
    UsageBalance(start, config, w, 6);
  }

  // A planner whose bodies never validate ---------------------------------------

  function Queries(history: seq<Entry>): nat {
    if history == [] then 0
    else Queries(DropLast(history))
         + if Last(history).cause.Command? && Last(history).cause.cmd.QueryPlanner? then 1 else 0
  }

  function Times(k: nat, t: Tally): Tally {
    if k == 0 then ZERO_TALLY else Plus(Times(k - 1, t), t)
  }

  function Garble(usage: PlannerUsage): Planner.Output {
    Planner.Output(None, usage)
  }

  /** An entry of such a run: no response, and a query costs its usage. */
  lemma GarbledEntry(entry: Entry, config: Config, usage: PlannerUsage)
    requires config.plannerRetries > 0 && AnsweredAt(entry, OutputWorld(Garble(usage))(0), config)
    ensures !entry.event.PlannerResponded? && FateOf(entry) == Garbled
    ensures Cost(entry, config, Garble(usage))
         == if entry.cause.Command? && entry.cause.cmd.QueryPlanner? then TallyOf(usage) else ZERO_TALLY
  {
    RunWitnesses.FirstPrintDecides(Garble(usage), config.plannerRetries);
    hide Planner.Outcome;
  }

  lemma {:induction false} AllGarbled(history: seq<Entry>, config: Config, usage: PlannerUsage)
    requires config.plannerRetries > 0
    requires forall i | 0 <= i < |history| :: AnsweredAt(history[i], OutputWorld(Garble(usage))(0), config)
    ensures RunTermination.KeysSent(history) == 0
    ensures var w := OutputWorld(Garble(usage));
            && Printed(history, w, config, Whole) == Times(Queries(history), TallyOf(usage))
            && Printed(history, w, config, Missing) == Times(Queries(history), TallyOf(usage))
            && Printed(history, w, config, Only(Kept)) == ZERO_TALLY
  {
    hide FateOf, PrintedBy, AnsweredAt, TallyOf, Cost, OutputWorld, Plus, Printed;
    var w := OutputWorld(Garble(usage));
    if history == [] {
      NothingPrinted(w, config, Whole);
      NothingPrinted(w, config, Missing);
      NothingPrinted(w, config, Only(Kept));
    } else {
      var front, entry := DropLast(history), Last(history);
      assert history == front + [entry];
      AllGarbled(front, config, usage);
      assert AnsweredAt(entry, w(0), config);
      GarbledEntry(entry, config, usage);
      AccountsGrow(front, entry, config, Garble(usage));
      PrintedSnoc(front, entry, w, config, Only(Kept));
      PlusZero(Times(Queries(front), TallyOf(usage)));
      PlusZero(ZERO_TALLY);
    }
  }

  lemma {:induction false} QueriesMonotone(m: Machine, config: Config, world: World, k: nat, n: nat)
    requires k <= n
    ensures Queries(At(m, config, world, k).history) <= Queries(At(m, config, world, n).history)
  {
    hide Step, Queries;
    if k < n {
      QueriesMonotone(m, config, world, k, n - 1);
      QueriesGrow(At(m, config, world, n - 1), config, world);
    }
  }

  lemma QueriesGrow(m: Machine, config: Config, world: World)
    ensures Queries(m.history) <= Queries(Step(m, config, world).history)
  {
    hide Decide.Decide, Apply, PollEvent, Polled;
    var after := Step(m, config, world);
    if after.history != m.history {
      assert DropLast(after.history) == m.history;
    }
  }

  lemma GarbledMoment(start: State, config: Config, usage: PlannerUsage, n: nat)
    requires config.plannerRetries > 0
    ensures var m := At(Start(start), config, OutputWorld(Garble(usage)), n);
            && RunTermination.KeysSent(m.history) == 0
            && Printed(m.history, OutputWorld(Garble(usage)), config, Whole)
               == Printed(m.history, OutputWorld(Garble(usage)), config, Missing)
               == Times(Queries(m.history), TallyOf(usage))
            && Printed(m.history, OutputWorld(Garble(usage)), config, Only(Kept)) == ZERO_TALLY
  {
    hide At, AnsweredAt, Printed, Queries, Times, RunTermination.KeysSent;
    var w := OutputWorld(Garble(usage));
    AlwaysAnswered(start, config, w, n);
    var m := At(Start(start), config, w, n);
    forall i | 0 <= i < |m.history| ensures AnsweredAt(m.history[i], w(0), config) {
      assert AnsweredAt(m.history[i], w(i), config);
    }
    AllGarbled(m.history, config, usage);
  }

  /** A planner that prints usage but never a body that validates: every such run
      ends, has made a query, and files nothing of what its queries cost, with
      no claim made and nothing after the end. */
  lemma GarbledRunFilesNothing(start: State, config: Config, usage: PlannerUsage)
    requires DecideHistory.Fresh(start) && start.maxTurns > 0 && config.summarizationTokenThreshold > 0
    requires config.plannerRetries > 0
    ensures var w := OutputWorld(Garble(usage));
            var n := RunTermination.TURN_COST * start.maxTurns + 2;
            var m := At(Start(start), config, w, n);
            && m.finished && Queries(m.history) > 0
            && Printed(m.history, w, config, Whole) == Times(Queries(m.history), TallyOf(usage))
            && Printed(m.history, w, config, Missing) == Times(Queries(m.history), TallyOf(usage))
            && FiledUsage(m.journal.rows) == ZERO_TALLY
  {
    hide Step, At, OutputWorld, Printed, Queries, Times, FiledUsage, RunTermination.KeysSent;
    var output, s := Garble(usage), Start(start);
    var w, n := OutputWorld(output), RunTermination.TURN_COST * start.maxTurns + 2;
    forall k: nat ensures RunTermination.KeysSent(At(s, config, w, k).history) <= 0 {
      GarbledMoment(start, config, usage, k);
    }
    RunTermination.RunTerminates(start, config, w, 0);
    GarbledMoment(start, config, usage, n);
    UsageBalance(start, config, w, n);
    FirstQueryCounts(start, config, output);
    QueriesMonotone(s, config, w, 3, n);
  }

  lemma FirstQueryCounts(start: State, config: Config, output: Planner.Output)
    requires DecideHistory.Fresh(start) && start.maxTurns > 0 && config.summarizationTokenThreshold > 0
    ensures Queries(At(Start(start), config, OutputWorld(output), 3).history) > 0
  {
    hide Step, At, OutputWorld, Printed, FateOf;
    var m, w := Start(start), OutputWorld(output);
    AtZero(m, config, w);
    OutputOpening(start, config, output);
    AtNext(m, config, w, 0);
    OutputObservation(At(m, config, w, 1), config, output);
    AtNext(m, config, w, 1);
    var entry := OutputIteration(At(m, config, w, 2), config, output, ZERO_TALLY, ZERO_TALLY);
    AtNext(m, config, w, 2);
    SnocParts(At(m, config, w, 2).history, entry);
  }
}
