/** What a run types: the keystrokes the planner asked for, and no others. */
module RunKeystrokes {
  import opened Prelude
  import opened RunState
  import opened Machine
  import opened RunQueue
  import Decide
  import Shell

  /** The SendKeys commands among some commands. */
  function TypedBy(commands: seq<RunState.Command>): seq<RunState.Command> {
    if commands == [] then []
    else TypedBy(DropLast(commands)) + if Last(commands).SendKeys? then [Last(commands)] else []
  }

  lemma {:induction false} TypedConcat(a: seq<RunState.Command>, b: seq<RunState.Command>)
    ensures TypedBy(a + b) == TypedBy(a) + TypedBy(b)
  {
    if b == [] {
      assert a + b == a;
    } else {
      assert DropLast(a + b) == a + DropLast(b);
      TypedConcat(a, DropLast(b));
    }
  }

  lemma TypedOne(cmd: RunState.Command)
    ensures TypedBy([cmd]) == if cmd.SendKeys? then [cmd] else []
  {
    assert DropLast([cmd]) == [];
  }

  lemma {:induction false} AllTyped(commands: seq<RunState.Command>)
    requires forall i | 0 <= i < |commands| :: commands[i].SendKeys?
    ensures TypedBy(commands) == commands
  {
    if commands != [] {
      hide TypedBy;
      var front, last := DropLast(commands), Last(commands);
      assert commands == front + [last];
      AllTyped(front);
      TypedOne(last);
      TypedConcat(front, [last]);
    }
  }

  /** The commands of the responses that asked for work while the run was active. */
  function Requested(history: seq<Entry>): seq<ParsedCommand> {
    if history == [] then [] else Requested(DropLast(history)) + RequestedBy(Last(history))
  }

  function RequestedBy(entry: Entry): seq<ParsedCommand> {
    if entry.event.PlannerResponded? && !entry.event.parsed.taskComplete && entry.before.status.Active?
    then entry.event.parsed.commands else []
  }

  /** The command types the request, waiting as long as asked but never longer
      than the budget; no wait asked for means the whole budget. */
  predicate Honours(cmd: RunState.Command, request: ParsedCommand, budget: real) {
    && cmd.SendKeys?
    && cmd.keystrokes == request.keystrokes
    && cmd.maxSeconds == (if request.duration == 0.0 || request.duration > budget then budget else request.duration)
  }

  predicate AllHonoured(commands: seq<RunState.Command>, requests: seq<ParsedCommand>, budget: real) {
    |commands| == |requests| && forall i | 0 <= i < |commands| :: Honours(commands[i], requests[i], budget)
  }

  lemma ContributionTyped(entry: Entry, config: Config)
    requires entry.cause.Opening? ==> !entry.event.PlannerResponded?
    ensures AllHonoured(TypedBy(Contribution(entry, config)), RequestedBy(entry), config.blockingMaxSeconds)
  {
    hide TypedBy;
    var commands := Contribution(entry, config);
    if entry.event.PlannerResponded? && !entry.event.parsed.taskComplete && entry.before.status.Active? {
      var keys := Decide.KeyCommands(entry.event.parsed.commands, config);
      assert commands == keys + [Last(commands)];
      TypedConcat(keys, [Last(commands)]);
      TypedOne(Last(commands));
      AllTyped(keys);
    } else {
      NoneTyped(commands);
    }
  }

  lemma {:induction false} NoneTyped(commands: seq<RunState.Command>)
    requires forall i | 0 <= i < |commands| :: !commands[i].SendKeys?
    ensures TypedBy(commands) == []
  {
    if commands != [] {
      NoneTyped(DropLast(commands));
    }
  }

  predicate OpensQuietly(history: seq<Entry>) {
    forall i | 0 <= i < |history| :: history[i].cause.Opening? ==> !history[i].event.PlannerResponded?
  }

  lemma {:induction false} EmittedTyped(history: seq<Entry>, config: Config)
    requires OpensQuietly(history)
    ensures AllHonoured(TypedBy(Emitted(history, config)), Requested(history), config.blockingMaxSeconds)
  {
    hide Contribution, RequestedBy, Honours, TypedBy;
    if history == [] {
      NoneTyped([]);
    } else {
      var entry := Last(history);
      EmittedTyped(DropLast(history), config);
      ContributionTyped(entry, config);
      TypedConcat(Emitted(DropLast(history), config), Contribution(entry, config));
    }
  }

  lemma {:induction false} AlwaysOpensQuietly(start: State, config: Config, world: World, n: nat)
    ensures OpensQuietly(At(Start(start), config, world, n).history)
  {
    hide Decide.Decide, Shell.Apply;
    if n > 0 {
      AlwaysOpensQuietly(start, config, world, n - 1);
    }
  }

  /** Keystroke exactness: at every moment of every run the SendKeys commands
      applied so far, followed by those still queued, are the commands of the
      planner's working responses, in order and once each, each waiting as the
      planner asked within the budget. Commands that come with a claim of
      completion, or once the run is terminal, are never typed. */
  lemma KeystrokesExact(start: State, config: Config, world: World, n: nat)
    ensures var m := At(Start(start), config, world, n);
            AllHonoured(TypedBy(Taken(m.history)) + TypedBy(m.pending), Requested(m.history), config.blockingMaxSeconds)
  {
    hide At, TypedBy, Taken, Emitted, Requested, AllHonoured, OpensQuietly;
    var m := At(Start(start), config, world, n);
    QueueExact(start, config, world, n);
    AlwaysOpensQuietly(start, config, world, n);
    TypedConcat(Taken(m.history), m.pending);
    EmittedTyped(m.history, config);
  }
}
