/** The terminal as a run sees it: the stored buffer and the observation texts
    of any run are those of its captures. */
module RunTerminal {
  import opened Prelude
  import opened RunState
  import opened Decide
  import opened Machine
  import opened TerminalHistory
  import Container
  import DecideHistory
  import RunJournal
  import Text
  import Shell

  /** The captures of a run's observations, in order; entry i used reply i. */
  function Seen(history: seq<Entry>, world: World): seq<Container.Capture> {
    if history == [] then []
    else Seen(DropLast(history), world)
         + if Last(history).cause == Cause.Command(Observe) then [world(|history| - 1).capture] else []
  }

  /** The texts of a run's observations, in order. */
  function Texts(history: seq<Entry>): seq<string> {
    if history == [] then []
    else Texts(DropLast(history)) + if Last(history).event.ObservationCaptured? then [Last(history).event.text] else []
  }

  /** What the observations of some captures report. */
  function Reports(captures: seq<Container.Capture>, tail: nat): seq<string> {
    seq(|captures|, i requires 0 <= i < |captures| => Shown(captures, tail, i))
  }

  predicate Tracked(m: Machine, config: Config, world: World) {
    && m.clock == |m.history|
    && m.state.previousBuffer == Stored(Seen(m.history, world), config.captureTailBytes)
    && Texts(m.history) == Reports(Seen(m.history, world), config.captureTailBytes)
  }

  lemma BufferAfter(s: State, event: Event, config: Config, effects: Effects)
    ensures Decide.Decide(s, event, config, effects).state.previousBuffer
         == if event.ObservationCaptured? then StoredBuffer(event.nextBuffer, config.captureTailBytes)
            else s.previousBuffer
  {
    hide KeyCommands, AgentStep, SystemStep, ErrorStep, ArtifactRefreshTrigger, StoredBuffer, BuildJob, TailSlice;
  }

  /** One more capture: the buffer moves on, and one more text is reported. */
  lemma OneMoreCapture(captures: seq<Container.Capture>, next: Container.Capture, tail: nat)
    ensures var seen := Container.IncrementalOutput(Stored(captures, tail), next);
            && Stored(captures + [next], tail) == StoredBuffer(seen.nextBuffer, tail)
            && Reports(captures + [next], tail) == Reports(captures, tail) + [seen.text]
  {
    hide Container.IncrementalOutput, StoredBuffer;
    var longer := captures + [next];
    SnocParts(captures, next);
    forall i | 0 <= i < |captures| ensures Shown(longer, tail, i) == Shown(captures, tail, i) {
      assert longer[..i] == captures[..i];
    }
    assert longer[..|captures|] == captures;
  }

  /** One more entry, whatever it is. */
  lemma HistoryGrows(history: seq<Entry>, entry: Entry, world: World)
    ensures Seen(history + [entry], world)
         == if entry.cause == Cause.Command(Observe) then Seen(history, world) + [world(|history|).capture]
            else Seen(history, world)
    ensures Texts(history + [entry])
         == if entry.event.ObservationCaptured? then Texts(history) + [entry.event.text] else Texts(history)
  {
    SnocParts(history, entry);
  }

  lemma IterationTracked(m: Machine, config: Config, world: World)
    requires Tracked(m, config, world) && m.pending != []
    ensures Tracked(Iterate(m, config, world(m.clock)), config, world)
  {
    hide Decide.Decide, Seen, Texts, Reports, Stored, StoredBuffer, Container.IncrementalOutput, Iterate;
    var cmd, reply := m.pending[0], world(m.clock);
    var event := Shell.Apply(cmd, m.journal, m.state, config, reply).event;
    var entry := Entry(Cause.Command(cmd), m.state, event, reply.effects);
    RunJournal.EventOf(cmd, m.journal, m.state, config, reply);
    BufferAfter(m.state, event, config, reply.effects);
    IterationShape(m, config, reply);
    HistoryGrows(m.history, entry, world);
    OneMoreCapture(Seen(m.history, world), reply.capture, config.captureTailBytes);
    if cmd.Observe? {
      var seen := Container.IncrementalOutput(m.state.previousBuffer, reply.capture);
      assert event == ObservationCaptured(seen.text, seen.nextBuffer);
    }
  }

  lemma OpeningTracked(m: Machine, config: Config, world: World)
    requires Tracked(m, config, world)
    requires m.pending == [] && !m.finished && m.state.status.Active? && m.turns < m.state.maxTurns
    ensures Tracked(Step(m, config, world), config, world)
  {
    hide Decide.Decide, Seen, Texts, Reports, Stored, StoredBuffer, Shell.Polled, Step;
    var reply := world(m.clock);
    var event := Shell.PollEvent(m.journal.slot, reply);
    OpeningShape(m, config, world);
    BufferAfter(m.state, event, config, reply.effects);
    HistoryGrows(m.history, Entry(Opening, m.state, event, reply.effects), world);
  }

  lemma StepTracked(m: Machine, config: Config, world: World)
    requires Tracked(m, config, world)
    ensures Tracked(Step(m, config, world), config, world)
  {
    hide Iterate, Open, Seen, Texts, Reports, Stored;
    if m.finished {
    } else if m.pending != [] {
      IterationTracked(m, config, world);
    } else if m.state.status.Active? && m.turns < m.state.maxTurns {
      OpeningTracked(m, config, world);
    }
  }

  /** At every moment of every run the stored buffer is what its captures so far
      leave, and the texts it observed are what those captures report. */
  lemma {:induction false} ObservationsExact(start: State, config: Config, world: World, n: nat)
    requires DecideHistory.Fresh(start)
    ensures var m := At(Start(start), config, world, n);
            && m.state.previousBuffer == Stored(Seen(m.history, world), config.captureTailBytes)
            && Texts(m.history) == Reports(Seen(m.history, world), config.captureTailBytes)
    ensures Tracked(At(Start(start), config, world, n), config, world)
  {
    hide Step, Stored;
    if n > 0 {
      ObservationsExact(start, config, world, n - 1);
      StepTracked(At(Start(start), config, world, n - 1), config, world);
    } else {
      assert Stored([], config.captureTailBytes) == "" by { NothingStored(config.captureTailBytes); }
    }
  }

  lemma NothingStored(tail: nat)
    ensures Stored([], tail) == ""
  {
  }

  /** Text k of a run, for any captures: the screen, a reset, or what follows the
      kept tail of the previous capture. */
  lemma TextsExact(start: State, config: Config, world: World, n: nat, k: nat)
    requires DecideHistory.Fresh(start) && k < |Seen(At(Start(start), config, world, n).history, world)|
    ensures var m := At(Start(start), config, world, n);
            var seen, tail := Seen(m.history, world), config.captureTailBytes;
            var now, visible := seen[k].history, seen[k].visible;
            var before := if k == 0 then "" else seen[k - 1].history;
            var kept := if tail == 0 || |before| <= tail then before else before[|before| - tail..];
            && |Texts(m.history)| == |seen|
            && Texts(m.history)[k]
               == if kept == "" then "Current Terminal Screen:\n" + visible
                  else if !(kept <= now) then "[TERMINAL RESET]\n" + visible
                  else if exists j | |kept| <= j < |now| :: !Text.IsSpace(now[j]) then
                    "New Terminal Output:\n" + now[|kept|..]
                  else "Current Terminal Screen:\n" + visible
  {
    hide At, Seen, Texts, Shown, Stored;
    ObservationsExact(start, config, world, n);
    var m := At(Start(start), config, world, n);
    ShownExact(Seen(m.history, world), config.captureTailBytes, k);
  }

  /** What a reader of the run's observation texts alone makes of observations
      first + 1 to n, given the scrollback at `first`. */
  function Reading(history: seq<Entry>, scrollback: string, first: nat, n: nat): string
    requires first <= n < |Texts(history)|
    decreases n - first
  {
    if n == first then scrollback
    else Reading(history, scrollback, first, n - 1) + ReadBack(Texts(history)[n])
  }

  lemma {:induction false} ReadingIsRebuilt(
    history: seq<Entry>, captures: seq<Container.Capture>, tail: nat, first: nat, n: nat)
    requires first <= n < |captures| && Texts(history) == Reports(captures, tail)
    ensures Reading(history, captures[first].history, first, n) == Rebuilt(captures, tail, first, n)
    decreases n - first
  {
    hide ReadBack, Shown, Texts;
    if n > first {
      ReadingIsRebuilt(history, captures, tail, first, n - 1);
      assert Texts(history)[n] == Shown(captures, tail, n);
    }
  }

  /** A run's observation texts rebuild its terminal: while the scrollback only
      grows and has not outgrown the tail, the first capture that shows anything
      followed by what the later texts report is the scrollback at observation
      n up to white space, and exactly so when no new output was only white space. */
  lemma RunReportsTerminal(start: State, config: Config, world: World, n: nat, first: nat, last: nat)
    requires DecideHistory.Fresh(start)
    requires var seen := Seen(At(Start(start), config, world, n).history, world);
             && AppendOnly(seen) && first <= last < |seen|
             && FollowedBetween(seen, config.captureTailBytes, first, last)
    ensures var m := At(Start(start), config, world, n);
            var seen := Seen(m.history, world);
            && |Texts(m.history)| == |seen|
            && var reading := Reading(m.history, seen[first].history, first, last);
               && Ink(reading) == Ink(seen[last].history)
               && (reading == seen[last].history <==> NoBlankDelta(seen, first, last))
  {
    hide At, Seen, Texts, Ink, Rebuilt, NoBlankDelta, FollowedBetween, AppendOnly, Reading, Stored;
    ObservationsExact(start, config, world, n);
    var m := At(Start(start), config, world, n);
    var seen := Seen(m.history, world);
    ReadingIsRebuilt(m.history, seen, config.captureTailBytes, first, last);
    ReportsRebuildHistory(seen, config.captureTailBytes, first, last);
  }
}
