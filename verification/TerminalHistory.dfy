/** What a whole sequence of observations reports: `get_incremental_output`
    joined with the tail truncation of `_on_observation`. */
module TerminalHistory {
  import opened Prelude
  import opened Text
  import opened Container
  import Decide

  /** The buffer in the state after observing every capture in turn. */
  function Stored(captures: seq<Capture>, tail: nat): string {
    if captures == [] then ""
    else Decide.StoredBuffer(IncrementalOutput(Stored(DropLast(captures), tail), Last(captures)).nextBuffer, tail)
  }

  /** The text of observation i. */
  function Shown(captures: seq<Capture>, tail: nat, i: nat): string
    requires i < |captures|
  {
    IncrementalOutput(Stored(captures[..i], tail), captures[i]).text
  }

  /** The scrollback only grows. */
  ghost predicate AppendOnly(captures: seq<Capture>) {
    forall i, j | 0 <= i <= j < |captures| :: captures[i].history <= captures[j].history
  }

  /** The scrollback as observation i - 1 captured it; nothing before the first. */
  function Before(captures: seq<Capture>, i: nat): string
    requires i < |captures|
  {
    if i == 0 then "" else captures[i - 1].history
  }

  /** What observation i ought to say: the output new since observation i - 1. */
  function Delta(captures: seq<Capture>, i: nat): string
    requires i < |captures| && Before(captures, i) <= captures[i].history
  {
    captures[i].history[|Before(captures, i)|..]
  }

  function Truthful(delta: string, visible: string): string {
    if Blank(delta) then SCREEN + visible else NEW_OUTPUT + delta
  }

  /** What a tail of n characters keeps of a capture; `s[-0:]` is all of s. */
  function Kept(history: string, tail: nat): string {
    if tail == 0 then history else LastN(history, tail)
  }

  lemma StoredIsTail(captures: seq<Capture>, tail: nat)
    requires captures != []
    ensures Stored(captures, tail) == Kept(Last(captures).history, tail)
  {
    hide IncrementalOutput;
  }

  /** Before any observation, including the first, the stored buffer is the tail
      of the previous capture. */
  lemma StoredBefore(captures: seq<Capture>, tail: nat, i: nat)
    requires i < |captures|
    ensures Stored(captures[..i], tail) == Kept(Before(captures, i), tail)
  {
    if i > 0 {
      assert Last(captures[..i]) == captures[i - 1];
      StoredIsTail(captures[..i], tail);
    }
  }

  lemma HeadersDiffer(a: string, b: string)
    ensures NEW_OUTPUT + a != SCREEN + b && RESET + a != SCREEN + b && RESET + a != NEW_OUTPUT + b
  {
    assert (NEW_OUTPUT + a)[0] == 'N' && (SCREEN + b)[0] == 'C' && (RESET + a)[0] == '[' && (NEW_OUTPUT + b)[0] == 'N';
  }

  /** What an observation reports, for any captures: the screen if nothing is kept
      of the previous capture; a reset if what is kept is no prefix of this one;
      else what follows it, if that shows anything, and else the screen. */
  lemma ShownExact(captures: seq<Capture>, tail: nat, i: nat)
    requires i < |captures|
    ensures var now, visible := captures[i].history, captures[i].visible;
            var before := if i == 0 then "" else captures[i - 1].history;
            var kept := if tail == 0 || |before| <= tail then before else before[|before| - tail..];
            Shown(captures, tail, i)
            == if kept == "" then "Current Terminal Screen:\n" + visible
               else if !(kept <= now) then "[TERMINAL RESET]\n" + visible
               else if exists k | |kept| <= k < |now| :: !IsSpace(now[k]) then
                 "New Terminal Output:\n" + now[|kept|..]
               else "Current Terminal Screen:\n" + visible
  {
    hide Stored, IsSpace, IncrementalOutput;
    StoredBefore(captures, tail, i);
    var before := if i == 0 then "" else captures[i - 1].history;
    var kept := if tail == 0 || |before| <= tail then before else before[|before| - tail..];
    assert Kept(Before(captures, i), tail) == kept;
    ReportExact(kept, captures[i]);
  }

  /** The same for one capture, given what is kept. */
  lemma ReportExact(kept: string, capture: Capture)
    ensures var now, visible := capture.history, capture.visible;
            IncrementalOutput(kept, capture).text
            == if kept == "" then "Current Terminal Screen:\n" + visible
               else if !(kept <= now) then "[TERMINAL RESET]\n" + visible
               else if exists k | |kept| <= k < |now| :: !IsSpace(now[k]) then
                 "New Terminal Output:\n" + now[|kept|..]
               else "Current Terminal Screen:\n" + visible
  {
    hide IsSpace;
    var now := capture.history;
    if kept <= now {
      BlankIffNoInk(now, |kept|);
      hide Blank;
    }
  }

  lemma BlankIffNoInk(now: string, from: nat)
    requires from <= |now|
    ensures Blank(now[from..]) <==> !exists k | from <= k < |now| :: !IsSpace(now[k])
  {
    hide IsSpace;
    var rest := now[from..];
    assert forall k | 0 <= k < |rest| :: rest[k] == now[from + k];
    if k :| from <= k < |now| && !IsSpace(now[k]) {
      assert rest[k - from] == now[k];
    }
  }

  /** What a growing scrollback that has outgrown the tail is reported as: a
      reset unless its last `tail` characters repeat its first; then everything
      past the first `tail` characters, old or new, as if it were new output,
      or the screen if that is only white space. */
  lemma LongHistoryShows(captures: seq<Capture>, tail: nat, i: nat)
    requires AppendOnly(captures) && i < |captures|
    requires 0 < tail < |Before(captures, i)|
    ensures var before, now, visible := Before(captures, i), captures[i].history, captures[i].visible;
            Shown(captures, tail, i)
            == if before[..tail] != before[|before| - tail..] then RESET + visible
               else if Blank(now[tail..]) then SCREEN + visible
               else NEW_OUTPUT + now[tail..]
  {
    StoredBefore(captures, tail, i);
    var before, now := Before(captures, i), captures[i].history;
    assert before <= now && before[..tail] == now[..tail];
  }

  /** On a growing scrollback every observation is truthful exactly when: for an
      empty previous capture, nothing but white space is new; otherwise, the
      previous capture fitted in the stored tail, or its last `tail` characters
      repeat its first and nothing but white space follows those. */
  lemma ShownTruthfulIff(captures: seq<Capture>, tail: nat, i: nat)
    requires AppendOnly(captures) && i < |captures|
    ensures var before, now := Before(captures, i), captures[i].history;
            Shown(captures, tail, i) == Truthful(Delta(captures, i), captures[i].visible)
            <==> if before == "" then Blank(now)
                 else || tail == 0
                      || |before| <= tail
                      || (before[..tail] == before[|before| - tail..] && Blank(now[tail..]))
  {
    var before, now, visible := Before(captures, i), captures[i].history, captures[i].visible;
    assert before <= now;
    StoredBefore(captures, tail, i);
    var delta := Delta(captures, i);
    HeadersDiffer(delta, visible);
    if 0 < tail < |before| {
      LongHistoryShows(captures, tail, i);
      LongIsUntruthful(before, now, tail, visible);
      hide Shown, Stored;
    }
  }

  lemma LongIsUntruthful(before: string, now: string, tail: nat, visible: string)
    requires before <= now && 0 < tail < |before|
    ensures RESET + visible != Truthful(now[|before|..], visible)
    ensures NEW_OUTPUT + now[tail..] != Truthful(now[|before|..], visible)
    ensures Blank(now[tail..]) ==> Blank(now[|before|..])
  {
    var delta := now[|before|..];
    HeadersDiffer(visible, visible);
    HeadersDiffer(visible, delta);
    HeadersDiffer(now[tail..], visible);
    assert |NEW_OUTPUT + now[tail..]| != |NEW_OUTPUT + delta|;
    assert forall k | 0 <= k < |delta| :: delta[k] == now[tail..][k + |before| - tail];
  }

  /** Both untruthful reports occur: a grown scrollback reported as a reset, and
      old text reported as new. */
  lemma LongHistoriesMislead()
    ensures var captures := [Capture("ab", "ab"), Capture("abc", "abc")];
            AppendOnly(captures) && Shown(captures, 1, 1) == RESET + "abc"
    ensures var captures := [Capture("aa", "aa"), Capture("aab", "aab")];
            AppendOnly(captures) && Delta(captures, 1) == "b" && Shown(captures, 1, 1) == NEW_OUTPUT + "ab"
  {
    hide Shown;
    LongHistoryShows([Capture("ab", "ab"), Capture("abc", "abc")], 1, 1);
    assert "ab"[..1] == "a" && "ab"[1..] == "b";
    LongHistoryShows([Capture("aa", "aa"), Capture("aab", "aab")], 1, 1);
    assert "aa"[..1] == "a" && "aa"[1..] == "a";
    assert "aab"[1..] == "ab" && "ab"[0] == 'a';
  }

  // Reading the reports back ---------------------------------------------------

  /** The new output a reader finds in the text of an observation. */
  function ReadBack(text: string): string {
    if NEW_OUTPUT <= text then text[|NEW_OUTPUT|..] else ""
  }

  /** A text without its white space. */
  function Ink(text: string): string {
    if text == "" then ""
    else if IsSpace(text[0]) then Ink(text[1..])
    else [text[0]] + Ink(text[1..])
  }

  lemma {:induction false} InkConcat(a: string, b: string)
    ensures Ink(a + b) == Ink(a) + Ink(b)
  {
    if a == "" {
      assert a + b == b;
    } else {
      assert (a + b)[1..] == a[1..] + b;
      InkConcat(a[1..], b);
    }
  }

  lemma {:induction false} BlankHasNoInk(text: string)
    requires Blank(text)
    ensures Ink(text) == ""
  {
    if text != "" {
      BlankHasNoInk(text[1..]);
    }
  }

  /** Observation i follows a capture that shows something and fitted in the tail. */
  predicate Followed(captures: seq<Capture>, tail: nat, i: nat)
    requires i < |captures|
  {
    Before(captures, i) != "" && (tail == 0 || |Before(captures, i)| <= tail)
  }

  /** With nothing cut off, a reader finds exactly the new output, but for
      output that is only white space. */
  lemma ReadBackIsDelta(captures: seq<Capture>, tail: nat, i: nat)
    requires AppendOnly(captures) && i < |captures| && Followed(captures, tail, i)
    ensures ReadBack(Shown(captures, tail, i)) == if Blank(Delta(captures, i)) then "" else Delta(captures, i)
  {
    ShownTruthfulIff(captures, tail, i);
    var delta, visible := Delta(captures, i), captures[i].visible;
    hide Shown;
    if Blank(delta) {
      assert (SCREEN + visible)[0] == 'C' && NEW_OUTPUT[0] == 'N';
    } else {
      assert (NEW_OUTPUT + delta)[|NEW_OUTPUT|..] == delta;
    }
  }

  /** What a reader who has capture `first` makes of the texts after it. */
  function Rebuilt(captures: seq<Capture>, tail: nat, first: nat, n: nat): string
    requires first <= n < |captures|
    decreases n - first
  {
    if n == first then captures[first].history
    else Rebuilt(captures, tail, first, n - 1) + ReadBack(Shown(captures, tail, n))
  }

  /** All new output that is white space only is no output at all. */
  ghost predicate NoBlankDelta(captures: seq<Capture>, first: nat, n: nat)
    requires AppendOnly(captures) && first <= n < |captures|
  {
    forall i | first < i <= n && Blank(Delta(captures, i)) :: Delta(captures, i) == ""
  }

  /** Captures `first` to n all show something, and all but n fit in the tail. */
  predicate FollowedBetween(captures: seq<Capture>, tail: nat, first: nat, n: nat)
    requires first <= n < |captures|
  {
    forall i | first < i <= n :: Followed(captures, tail, i)
  }

  /** While no capture outgrows the stored tail, the first one that shows
      anything, followed by what a reader finds in the later observations, is
      the whole scrollback up to white space; and it is the scrollback exactly
      when no new output was white space only. */
  lemma {:induction false} ReportsRebuildHistory(captures: seq<Capture>, tail: nat, first: nat, n: nat)
    requires AppendOnly(captures) && first <= n < |captures| && FollowedBetween(captures, tail, first, n)
    ensures Ink(Rebuilt(captures, tail, first, n)) == Ink(captures[n].history)
    ensures |Rebuilt(captures, tail, first, n)| <= |captures[n].history|
    ensures Rebuilt(captures, tail, first, n) == captures[n].history <==> NoBlankDelta(captures, first, n)
    decreases n - first
  {
    hide Shown, ReadBack, Ink, Blank, NoBlankDelta, Followed;
    NoBlankGrows(captures, first, n);
    if n > first {
      var before, delta, read := captures[n - 1].history, Delta(captures, n), ReadBack(Shown(captures, tail, n));
      var early := Rebuilt(captures, tail, first, n - 1);
      ReportsRebuildHistory(captures, tail, first, n - 1);
      ReadBackIsDelta(captures, tail, n);
      assert before <= captures[n].history && before + delta == captures[n].history;
      InkConcat(early, read);
      InkConcat(before, delta);
      if Blank(delta) {
        BlankHasNoInk(delta);
        assert Ink("") == "" by { EmptyHasNoInk(); }
        assert early + read == early;
      }
      Concats(early, read, before, delta);
    }
  }

  lemma NoBlankGrows(captures: seq<Capture>, first: nat, n: nat)
    requires AppendOnly(captures) && first <= n < |captures|
    ensures NoBlankDelta(captures, first, n)
            <==> n == first || (NoBlankDelta(captures, first, n - 1)
                                && (Blank(Delta(captures, n)) ==> Delta(captures, n) == ""))
  {
    hide Blank, Delta;
  }

  lemma EmptyHasNoInk()
    ensures Ink("") == ""
  {
  }

  lemma Concats(a: string, x: string, b: string, y: string)
    requires |a| <= |b| && |x| <= |y|
    ensures a + x == b + y <==> a == b && x == y
  {
    if a + x == b + y {
      assert |a| == |b| && |x| == |y|;
      assert a == (a + x)[..|a|] && b == (b + y)[..|b|];
      assert x == (a + x)[|a|..] && y == (b + y)[|b|..];
    }
  }
}
