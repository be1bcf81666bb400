/** `detect_stall` of `termiclaw/stall.py`, folded over a whole history. */
module Stall {
  import opened Prelude

  datatype StallState = StallState(
    identicalObsStreak: nat,
    repeatCommandStreak: nat,
    lastKeystrokesHash: string,
    lastObservationHash: string)

  const UNSTALLED := StallState(0, 0, "", "")

  datatype Signal = NoSignal | NudgeRepeat | NudgeNoProgress | ForceInterrupt

  datatype Thresholds = Thresholds(nudgeAfter: nat, forceInterruptAfter: nat)

  /** A digest: normalising and hashing is opaque, but a digest is never empty. */
  type Digest = d: string | d != "" witness "0"

  /** The digests of one turn's observation and keystrokes. */
  datatype Turn = Turn(observation: Digest, keystrokes: Digest)

  function DetectStall(before: StallState, turn: Turn, config: Thresholds): (StallState, Signal) {
    var obsStreak :=
      if turn.observation == before.lastObservationHash && before.lastObservationHash != ""
      then before.identicalObsStreak + 1 else 0;
    var cmdStreak :=
      if turn.keystrokes == before.lastKeystrokesHash && turn.keystrokes != ""
      then before.repeatCommandStreak + 1 else 0;
    var signal :=
      if cmdStreak >= config.forceInterruptAfter || obsStreak >= config.forceInterruptAfter then ForceInterrupt
      else if cmdStreak >= config.nudgeAfter then NudgeRepeat
      else if obsStreak >= config.nudgeAfter then NudgeNoProgress
      else NoSignal;
    (StallState(obsStreak, cmdStreak, turn.keystrokes, turn.observation), signal)
  }

  /** The state after a history of turns, and the signal of its last turn. */
  function After(turns: seq<Turn>, config: Thresholds): StallState {
    if turns == [] then UNSTALLED else DetectStall(After(DropLast(turns), config), Last(turns), config).0
  }

  function SignalOf(turns: seq<Turn>, config: Thresholds): Signal
    requires turns != []
  {
    DetectStall(After(DropLast(turns), config), Last(turns), config).1
  }

  function Observations(turns: seq<Turn>): seq<Digest> {
    seq(|turns|, i requires 0 <= i < |turns| => turns[i].observation)
  }

  function Keystrokes(turns: seq<Turn>): seq<Digest> {
    seq(|turns|, i requires 0 <= i < |turns| => turns[i].keystrokes)
  }

  /** The last n digests exist and are all the same. */
  predicate Repeated(digests: seq<Digest>, n: nat) {
    && n <= |digests|
    && forall i | |digests| - n <= i < |digests| :: digests[i] == digests[|digests| - 1]
  }

  /** n is the length of the trailing run of equal digests. */
  predicate TrailingRun(digests: seq<Digest>, n: nat) {
    Repeated(digests, n) && !Repeated(digests, n + 1)
  }

  lemma RunExtends(digests: seq<Digest>, n: nat, next: Digest)
    requires digests != [] ==> TrailingRun(digests, n)
    ensures TrailingRun(digests + [next], if digests != [] && Last(digests) == next then n + 1 else 1)
  {
    var longer := digests + [next];
    assert forall i | 0 <= i < |digests| :: longer[i] == digests[i];
    assert digests != [] && Last(digests) != next ==> longer[|longer| - 2] != longer[|longer| - 1];
  }

  lemma ObservationsSnoc(turns: seq<Turn>)
    requires turns != []
    ensures Observations(turns) == Observations(DropLast(turns)) + [Last(turns).observation]
    ensures Keystrokes(turns) == Keystrokes(DropLast(turns)) + [Last(turns).keystrokes]
  {
  }

  lemma {:induction false} ObservationStreak(turns: seq<Turn>, config: Thresholds)
    requires turns != []
    ensures var s := After(turns, config);
            && TrailingRun(Observations(turns), s.identicalObsStreak + 1)
            && s.lastObservationHash == Last(turns).observation
  {
    hide Observations, TrailingRun;
    var front, turn := DropLast(turns), Last(turns);
    ObservationsSnoc(turns);
    if front != [] {
      ObservationStreak(front, config);
      ObservationsSnoc(front);
    } else {
      assert Observations(front) == [] by { NoDigests(); }
    }
    RunExtends(Observations(front), After(front, config).identicalObsStreak + 1, turn.observation);
  }

  lemma {:induction false} KeystrokeStreak(turns: seq<Turn>, config: Thresholds)
    requires turns != []
    ensures var s := After(turns, config);
            && TrailingRun(Keystrokes(turns), s.repeatCommandStreak + 1)
            && s.lastKeystrokesHash == Last(turns).keystrokes
  {
    hide Keystrokes, TrailingRun;
    var front, turn := DropLast(turns), Last(turns);
    ObservationsSnoc(turns);
    if front != [] {
      KeystrokeStreak(front, config);
      ObservationsSnoc(front);
    } else {
      assert Keystrokes(front) == [] by { NoDigests(); }
    }
    RunExtends(Keystrokes(front), After(front, config).repeatCommandStreak + 1, turn.keystrokes);
  }

  lemma NoDigests()
    ensures Observations([]) == [] && Keystrokes([]) == []
  {
  }

  /** Each streak is the length of the trailing run of equal digests, minus one. */
  lemma StreaksAreRuns(turns: seq<Turn>, config: Thresholds)
    requires turns != []
    ensures var s := After(turns, config);
            && TrailingRun(Observations(turns), s.identicalObsStreak + 1)
            && TrailingRun(Keystrokes(turns), s.repeatCommandStreak + 1)
            && s.lastObservationHash == Last(turns).observation
            && s.lastKeystrokesHash == Last(turns).keystrokes
  {
    hide Observations, Keystrokes, TrailingRun, After;
    ObservationStreak(turns, config);
    KeystrokeStreak(turns, config);
  }

  lemma RunDecidesRepeated(digests: seq<Digest>, n: nat, k: nat)
    requires TrailingRun(digests, n)
    ensures Repeated(digests, k) <==> k <= n
  {
  }

  /** Escalation over any history: the interrupt fires exactly when the last
      `forceInterruptAfter + 1` keystroke digests or observation digests are
      all equal; below it, a repeat nudge when the last `nudgeAfter + 1`
      keystrokes are, else a no-progress nudge when the observations are. */
  lemma SignalExact(turns: seq<Turn>, config: Thresholds)
    requires turns != []
    ensures var force, nudge := config.forceInterruptAfter + 1, config.nudgeAfter + 1;
            var obs, keys := Observations(turns), Keystrokes(turns);
            SignalOf(turns, config)
            == if Repeated(keys, force) || Repeated(obs, force) then ForceInterrupt
               else if Repeated(keys, nudge) then NudgeRepeat
               else if Repeated(obs, nudge) then NudgeNoProgress
               else NoSignal
  {
    StreaksAreRuns(turns, config);
    var s := After(turns, config);
    RunDecidesRepeated(Observations(turns), s.identicalObsStreak + 1, config.forceInterruptAfter + 1);
    RunDecidesRepeated(Keystrokes(turns), s.repeatCommandStreak + 1, config.forceInterruptAfter + 1);
    RunDecidesRepeated(Observations(turns), s.identicalObsStreak + 1, config.nudgeAfter + 1);
    RunDecidesRepeated(Keystrokes(turns), s.repeatCommandStreak + 1, config.nudgeAfter + 1);
  }
}
