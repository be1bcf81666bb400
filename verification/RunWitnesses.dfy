/** Runs that show where a guarantee stops: a drive that never ends, and a run
    that is recorded as succeeded without a completing step. */
module RunWitnesses {
  import opened Prelude
  import opened RunState
  import opened Decide
  import opened DecideHistory
  import opened Planner
  import opened Shell
  import opened Machine
  import opened RunCompletion
  import Container
  import RunJournal

  /** A command by kind, and a machine by the kinds in its queue. */
  datatype Kind = Look | Ask | Type | Log(completing: bool) | Other

  datatype View = View(kinds: seq<Kind>, status: RunStatus, claimed: bool, clock: nat)

  function KindOf(cmd: RunState.Command): Kind {
    match cmd
    case Observe => Look
    case QueryPlanner(_, _, _, _) => Ask
    case SendKeys(_, _) => Type
    case LogStep(step, _) => Log(step.taskComplete)
    case _ => Other
  }

  function Kinds(commands: seq<RunState.Command>): seq<Kind> {
    seq(|commands|, i requires 0 <= i < |commands| => KindOf(commands[i]))
  }

  function ViewOf(m: Machine): View {
    View(Kinds(m.pending), m.state.status, m.state.pendingCompletion, m.clock)
  }

  /** One iteration whose event and follow-up are known. */
  lemma Advance(m: Machine, config: Config, world: World, event: Event, kinds: seq<Kind>)
    requires m.pending != [] && !m.finished
    requires Apply(m.pending[0], m.journal, m.state, config, world(m.clock)).event == event
    requires Kinds(Decide.Decide(m.state, event, config, world(m.clock).effects).commands) == kinds
    ensures var t := Decide.Decide(m.state, event, config, world(m.clock).effects);
            ViewOf(Step(m, config, world))
            == View(Kinds(m.pending)[1..] + if m.state.status.Active? then kinds else [],
                    t.state.status, t.state.pendingCompletion, m.clock + 1)
    ensures var after := Step(m, config, world);
            && after.turns == m.turns && !after.finished
            && (KindOf(m.pending[0]) != Log(true) && NoCompletion(m.journal.trajectory) ==>
                  NoCompletion(after.journal.trajectory))
  {
    RunJournal.RecordOf(m.pending[0], m.journal, m.state, config, world(m.clock));
    hide Decide.Decide, Apply;
    var t := Decide.Decide(m.state, event, config, world(m.clock).effects);
    assert Kinds(m.pending[1..]) == Kinds(m.pending)[1..];
    assert Kinds(m.pending[1..] + t.commands) == Kinds(m.pending)[1..] + kinds;
  }

  /** A world by what each clock tick answers. */
  datatype Answer = Fine | Broke | Says(parsed: ParseResult)

  function ReplyOf(answer: Answer): Reply {
    Reply(Effects("", ""), true, None, Container.Capture("$ ", "$ "), if answer.Broke? then Broken else Sent(true),
          if answer.Says? then [Printed(Output(Some(answer.parsed), ZERO_USAGE))] else [], 0, true, [])
  }

  /** What one iteration does to the view. */
  function NextView(v: View, answer: Answer): View
    requires v.kinds != [] && !v.kinds[0].Other?
    requires v.kinds[0].Ask? ==> answer.Says?
  {
    var rest := v.kinds[1..];
    var active := v.status.Active?;
    match v.kinds[0]
    case Look => View(rest + (if active then [Ask] else []), v.status, v.claimed, v.clock + 1)
    case Type =>
      if answer.Broke? then View(rest, Failed, v.claimed, v.clock + 1)
      else View(rest + (if active then [Look] else []), v.status, v.claimed, v.clock + 1)
    case Log(_) => View(rest, v.status, v.claimed, v.clock + 1)
    case Ask =>
      var p := answer.parsed;
      if p.taskComplete && v.claimed then
        View(rest + (if active then [Log(true)] else []), Succeeded, true, v.clock + 1)
      else if p.taskComplete then View(rest + (if active then [Ask] else []), v.status, true, v.clock + 1)
      else View(rest + (if active then Repeat(Type, |p.commands|) + [Log(false)] else []), v.status, false, v.clock + 1)
  }

  lemma {:induction false} FirstPrintDecides(output: Output, retries: nat)
    requires retries > 0
    ensures Outcome([Printed(output)], retries) == Ok(output)
  {
    CountSettles([Printed(output)], 1, retries);
  }

  lemma NextViewExact(m: Machine, config: Config, world: World, answer: Answer)
    requires m.pending != [] && !m.finished && world(m.clock) == ReplyOf(answer) && config.plannerRetries > 0
    requires !KindOf(m.pending[0]).Other? && (KindOf(m.pending[0]).Ask? ==> answer.Says?)
    ensures ViewOf(Step(m, config, world)) == NextView(ViewOf(m), answer)
    ensures var after := Step(m, config, world);
            && after.turns == m.turns && !after.finished
            && (KindOf(m.pending[0]) != Log(true) && NoCompletion(m.journal.trajectory) ==>
                  NoCompletion(after.journal.trajectory))
  {
    var cmd := m.pending[0];
    var reply := world(m.clock);
    if cmd.QueryPlanner? {
      FirstPrintDecides(Output(Some(answer.parsed), ZERO_USAGE), config.plannerRetries);
    }
    var event := Apply(cmd, m.journal, m.state, config, reply).event;
    var kinds := FollowUpKinds(cmd, event, m.state, config, reply.effects);
    Advance(m, config, world, event, kinds);
    FlagsAfter(m.state, event, config, reply.effects);
  }

  /** The kinds of command that follow an event. */
  lemma FollowUpKinds(cmd: RunState.Command, event: Event, s: State, config: Config, effects: Effects)
    returns (kinds: seq<Kind>)
    requires match KindOf(cmd)
             case Look => event.ObservationCaptured?
             case Type => event.SendKeysFailed? || event.CommandAcked?
             case Log(_) => event.StepLogged?
             case Ask => event.PlannerResponded?
             case Other => false
    ensures Kinds(Decide.Decide(s, event, config, effects).commands) == kinds
    ensures kinds == match event
                     case ObservationCaptured(_, _) => [Ask]
                     case CommandAcked(_) => [Look]
                     case PlannerResponded(parsed, _) =>
                       if parsed.taskComplete then (if s.pendingCompletion then [Log(true)] else [Ask])
                       else Repeat(Type, |parsed.commands|) + [Log(false)]
                     case _ => []
  {
    kinds := Kinds(Decide.Decide(s, event, config, effects).commands);
  }

  // A drive that never ends ---------------------------------------------------

  const ONE_COMMAND := ParseResult("", "", [ParsedCommand("ls", 0.5)], false)
  const TWO_COMMANDS := ParseResult("", "", [ParsedCommand("ls", 0.5), ParsedCommand("ps", 0.5)], false)
  const COMPLETE := ParseResult("", "", [], true)

  function BusyWorld(): World {
    _ => ReplyOf(Says(ONE_COMMAND))
  }

  /** The first turn opens with one observation. */
  lemma FirstTurn(start: State, config: Config, world: World, answer: Answer)
    requires Fresh(start) && start.maxTurns > 0 && config.summarizationTokenThreshold > 0
    requires world(0) == ReplyOf(answer)
    ensures var m := At(Start(start), config, world, 1);
            && ViewOf(m) == View([Look], Active, false, 1)
            && m.turns == 1 && !m.finished && m.journal.trajectory == []
  {
    assert At(Start(start), config, world, 0) == Start(start);
    var m := Step(Start(start), config, world);
    assert m.pending == [Observe];
  }

  /** `max_turns` does not bound a drive: against a planner that always sends
      one keystroke command the first drive is still going after any number of
      steps, whatever the turn budget. */
  lemma {:induction false} DriveUnbounded(start: State, config: Config, n: nat)
    requires Fresh(start) && start.maxTurns > 0 && config.summarizationTokenThreshold > 0
    requires config.plannerRetries > 0 && n > 0
    ensures Busy(At(Start(start), config, BusyWorld(), n))
  {
    if n == 1 {
      FirstTurn(start, config, BusyWorld(), Says(ONE_COMMAND));
    } else {
      DriveUnbounded(start, config, n - 1);
      hide Step, InCycle;
      BusyStep(At(Start(start), config, BusyWorld(), n - 1), config);
    }
  }

  predicate Busy(m: Machine) {
    m.turns == 1 && !m.finished && m.pending != [] && m.state.status.Active? && InCycle(Kinds(m.pending))
  }

  lemma BusyStep(m: Machine, config: Config)
    requires Busy(m) && config.plannerRetries > 0
    ensures Busy(Step(m, config, BusyWorld()))
  {
    var answer := Says(ONE_COMMAND);
    assert KindOf(m.pending[0]) == Kinds(m.pending)[0];
    assert !Kinds(m.pending)[0].Other?;
    hide Step, NextView, KindOf, Kinds;
    NextViewExact(m, config, BusyWorld(), answer);
    Cycle(ViewOf(m));
    var after := Step(m, config, BusyWorld());
    assert ViewOf(after).kinds == Kinds(after.pending);
    assert after.pending == [] ==> Kinds(after.pending) == [] by { KindsLength(after.pending); }
  }

  lemma KindsLength(commands: seq<RunState.Command>)
    ensures |Kinds(commands)| == |commands|
  {
  }

  predicate InCycle(kinds: seq<Kind>) {
    kinds == [Look] || kinds == [Ask] || kinds == [Type, Log(false)] || kinds == [Log(false), Look]
  }

  lemma Cycle(v: View)
    requires InCycle(v.kinds) && v.status.Active?
    ensures var after := NextView(v, Says(ONE_COMMAND));
            InCycle(after.kinds) && after.status.Active?
  {
    var after := NextView(v, Says(ONE_COMMAND)).kinds;
    assert Repeat(Type, 1) == [Type];
    if v.kinds == [Look] {
      assert after == [Ask];
    } else if v.kinds == [Ask] {
      assert after == [Type, Log(false)];
    } else if v.kinds == [Type, Log(false)] {
      assert after == [Log(false), Look];
    } else {
      assert after == [Look];
    }
  }

  // A succeeded run without a completing step ---------------------------------

  /** Two chains: one claims completion while the other's keystrokes fail, and
      the claim is confirmed after the run has already failed. */
  function Script(clock: nat): Answer {
    if clock == 2 then Says(TWO_COMMANDS)
    else if clock == 8 then Says(ONE_COMMAND)
    else if clock == 9 || clock == 12 then Says(COMPLETE)
    else if clock == 10 then Broke
    else Fine
  }

  function ForkedWorld(): World {
    (clock: nat) => ReplyOf(Script(clock))
  }

  /** The queue after each of the thirteen steps that follow the opening. */
  function Scene(n: nat): View
    requires 1 <= n <= 13
  {
    var fork := [Type, Type, Log(false)];
    if n == 1 then View([Look], Active, false, 1)
    else if n == 2 then View([Ask], Active, false, 2)
    else if n == 3 then View(fork, Active, false, 3)
    else if n == 4 then View([Type, Log(false), Look], Active, false, 4)
    else if n == 5 then View([Log(false), Look, Look], Active, false, 5)
    else if n == 6 then View([Look, Look], Active, false, 6)
    else if n == 7 then View([Look, Ask], Active, false, 7)
    else if n == 8 then View([Ask, Ask], Active, false, 8)
    else if n == 9 then View([Ask, Type, Log(false)], Active, false, 9)
    else if n == 10 then View([Type, Log(false), Ask], Active, true, 10)
    else if n == 11 then View([Log(false), Ask], Failed, true, 11)
    else if n == 12 then View([Ask], Failed, true, 12)
    else View([], Succeeded, true, 13)
  }

  lemma SceneFollows(n: nat)
    requires 1 <= n < 13
    ensures Scene(n).kinds != [] && Scene(n).clock == n
    ensures !Scene(n).kinds[0].Other? && (Scene(n).kinds[0].Ask? ==> Script(n).Says?)
    ensures Scene(n).kinds[0] != Log(true)
    ensures NextView(Scene(n), Script(n)) == Scene(n + 1)
  {
    assert Repeat(Type, 1) == [Type] && Repeat(Type, 2) == [Type, Type];
  }

  lemma {:induction false} ForkedRun(start: State, config: Config, n: nat)
    requires Fresh(start) && start.maxTurns > 0 && config.summarizationTokenThreshold > 0
    requires config.plannerRetries > 0 && 1 <= n <= 13
    ensures var m := At(Start(start), config, ForkedWorld(), n);
            ViewOf(m) == Scene(n) && !m.finished && NoCompletion(m.journal.trajectory)
  {
    if n == 1 {
      FirstTurn(start, config, ForkedWorld(), Fine);
    } else {
      ForkedRun(start, config, n - 1);
      SceneFollows(n - 1);
      hide Step, Scene, Script, NextView;
      NextViewExact(At(Start(start), config, ForkedWorld(), n - 1), config, ForkedWorld(), Script(n - 1));
    }
  }

  /** Terminal statuses are not final one by one, and "succeeded" does not
      promise a completing step: this run fails at step 11, is succeeded at
      step 13, returns succeeded, and its trajectory has no such step. */
  lemma SucceededWithoutCompletingStep(start: State, config: Config)
    requires Fresh(start) && start.maxTurns > 0 && config.summarizationTokenThreshold > 0
    requires config.plannerRetries > 0
    ensures At(Start(start), config, ForkedWorld(), 11).state.status == Failed
    ensures var m := At(Start(start), config, ForkedWorld(), 14);
            m.finished && m.state.status == Succeeded && NoCompletion(m.journal.trajectory)
  {
    hide Step, At;
    ForkedRun(start, config, 11);
    ForkedRun(start, config, 13);
    var m := At(Start(start), config, ForkedWorld(), 13);
    KindsLength(m.pending);
    AtNext(Start(start), config, ForkedWorld(), 13);
    ClosingShape(m, config, ForkedWorld());
  }

  // A failed run that ends with its completing step ------------------------------

  const THREE_COMMANDS := ParseResult("", "",
    [ParsedCommand("ls", 0.5), ParsedCommand("ps", 0.5), ParsedCommand("df", 0.5)], false)

  /** Three chains: two claim completion one after the other, and the third's
      keystrokes fail after the run has succeeded. */
  function LateScript(clock: nat): Answer {
    if clock == 2 then Says(THREE_COMMANDS)
    else if clock == 10 || clock == 15 then Says(ONE_COMMAND)
    else if clock == 11 || clock == 12 then Says(COMPLETE)
    else if clock == 13 then Broke
    else Fine
  }

  function LateWorld(): World {
    (clock: nat) => ReplyOf(LateScript(clock))
  }

  function LateScene(n: nat): View
    requires 1 <= n <= 17
  {
    if n == 1 then View([Look], Active, false, 1)
    else if n == 2 then View([Ask], Active, false, 2)
    else if n == 3 then View([Type, Type, Type, Log(false)], Active, false, 3)
    else if n == 4 then View([Type, Type, Log(false), Look], Active, false, 4)
    else if n == 5 then View([Type, Log(false), Look, Look], Active, false, 5)
    else if n == 6 then View([Log(false), Look, Look, Look], Active, false, 6)
    else if n == 7 then View([Look, Look, Look], Active, false, 7)
    else if n == 8 then View([Look, Look, Ask], Active, false, 8)
    else if n == 9 then View([Look, Ask, Ask], Active, false, 9)
    else if n == 10 then View([Ask, Ask, Ask], Active, false, 10)
    else if n == 11 then View([Ask, Ask, Type, Log(false)], Active, false, 11)
    else if n == 12 then View([Ask, Type, Log(false), Ask], Active, true, 12)
    else if n == 13 then View([Type, Log(false), Ask, Log(true)], Succeeded, true, 13)
    else if n == 14 then View([Log(false), Ask, Log(true)], Failed, true, 14)
    else if n == 15 then View([Ask, Log(true)], Failed, true, 15)
    else if n == 16 then View([Log(true)], Failed, false, 16)
    else View([], Failed, false, 17)
  }

  lemma LateSceneFollows(n: nat)
    requires 1 <= n < 17
    ensures LateScene(n).kinds != [] && LateScene(n).clock == n
    ensures !LateScene(n).kinds[0].Other? && (LateScene(n).kinds[0].Ask? ==> LateScript(n).Says?)
    ensures NextView(LateScene(n), LateScript(n)) == LateScene(n + 1)
  {
    assert Repeat(Type, 1) == [Type] && Repeat(Type, 3) == [Type, Type, Type];
  }

  lemma {:induction false} LateRun(start: State, config: Config, n: nat)
    requires Fresh(start) && start.maxTurns > 0 && config.summarizationTokenThreshold > 0
    requires config.plannerRetries > 0 && 1 <= n <= 17
    ensures var m := At(Start(start), config, LateWorld(), n);
            ViewOf(m) == LateScene(n) && !m.finished
  {
    if n == 1 {
      FirstTurn(start, config, LateWorld(), Fine);
    } else {
      LateRun(start, config, n - 1);
      LateSceneFollows(n - 1);
      hide Step, LateScene, LateScript, NextView;
      NextViewExact(At(Start(start), config, LateWorld(), n - 1), config, LateWorld(), LateScript(n - 1));
    }
  }

  lemma CompletionIsRecorded(m: Machine, config: Config, world: World)
    requires m.pending != [] && !m.finished && KindOf(m.pending[0]) == Log(true)
    ensures !NoCompletion(Step(m, config, world).journal.trajectory)
  {
    hide Decide.Decide, Apply;
    RunJournal.RecordOf(m.pending[0], m.journal, m.state, config, world(m.clock));
    IterationIsStep(m, config, world);
    IterationShape(m, config, world(m.clock));
    var after := Step(m, config, world).journal.trajectory;
    assert after[|after| - 1].taskComplete;
  }

  /** The mirror image: this run succeeds at step 13 by a confirmed completion,
      fails at step 14 by keystrokes queued before it, returns failed, and its
      trajectory ends with its completing step. */
  lemma FailedAfterCompletingStep(start: State, config: Config)
    requires Fresh(start) && start.maxTurns > 0 && config.summarizationTokenThreshold > 0
    requires config.plannerRetries > 0
    ensures At(Start(start), config, LateWorld(), 13).state.status == Succeeded
    ensures var m := At(Start(start), config, LateWorld(), 18);
            m.finished && m.state.status == Failed && EndsComplete(m.journal.trajectory)
  {
    hide Step, At, EndsComplete, ConfirmedWhileActive, NoCompletion;
    var w := LateWorld();
    LateRun(start, config, 13);
    LateRun(start, config, 16);
    LateRun(start, config, 17);
    var m := At(Start(start), config, w, 16);
    KindsLength(m.pending);
    assert KindOf(m.pending[0]) == Kinds(m.pending)[0];
    CompletionIsRecorded(m, config, w);
    AtNext(Start(start), config, w, 16);
    KindsLength(At(Start(start), config, w, 17).pending);
    AtNext(Start(start), config, w, 17);
    ClosingShape(At(Start(start), config, w, 17), config, w);
    CompletingStepIsLast(start, config, w, 18);
  }
}
