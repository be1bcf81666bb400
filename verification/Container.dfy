/** Keystroke chunking and terminal diffing, from `termiclaw/container.py`. */
module Container {
  import opened Text

  // ---------------------------------------------------------------------
  // Keystroke chunking: `_split_keys` and `_find_max_chunk_size`
  // ---------------------------------------------------------------------

  /** k is the longest prefix of text that fits in maxLength bytes (0 when none does). */
  ghost predicate IsMaxFit(text: string, maxLength: int, k: nat) {
    && k <= |text|
    && (k == 0 || Utf8Length(text[..k]) <= maxLength)
    && forall j | k < j <= |text| :: maxLength < Utf8Length(text[..j])
  }

  /** The longest fitting prefix, counted one character at a time. */
  function MaxFit(text: string, maxLength: int): (k: nat)
    ensures k <= |text|
  {
    if text == "" || maxLength < CharBytes(text[0]) then 0
    else 1 + MaxFit(text[1..], maxLength - CharBytes(text[0]))
  }

  lemma {:induction false} MaxFitIsMaxFit(text: string, maxLength: int)
    ensures IsMaxFit(text, maxLength, MaxFit(text, maxLength))
  {
    if text != "" {
      var first := CharBytes(text[0]);
      forall j | 1 <= j <= |text|
        ensures Utf8Length(text[..j]) == first + Utf8Length(text[1..][..j - 1])
      {
        assert text[..j][1..] == text[1..][..j - 1];
      }
      if first <= maxLength {
        MaxFitIsMaxFit(text[1..], maxLength - first);
      }
    }
  }

  /** `_find_max_chunk_size`: the source's binary search. */
  method FindMaxChunkSize(text: string, maxLength: int) returns (result: nat)
    ensures IsMaxFit(text, maxLength, result)
    ensures result == MaxFit(text, maxLength)
  {
    var low: int, high: int := 0, |text|;
    result := 0;
    while low <= high
      invariant 0 <= low <= |text| + 1 && -1 <= high <= |text|
      invariant result <= |text| && (low == 0 ==> result == 0) && (low > 0 ==> result == low - 1)
      invariant result == 0 || Utf8Length(text[..result]) <= maxLength
      invariant forall j | high < j <= |text| :: maxLength < Utf8Length(text[..j])
      decreases high - low
    {
      var mid := (low + high) / 2;
      if Utf8Length(text[..mid]) <= maxLength {
        result := mid;
        low := mid + 1;
      } else {
        forall j | mid < j <= |text| ensures maxLength < Utf8Length(text[..j]) {
          Utf8PrefixMonotone(text, mid, j);
        }
        high := mid - 1;
      }
    }
    MaxFitIsMaxFit(text, maxLength);
  }

  /** The next cut: at least one character is always taken. */
  function CutSize(text: string, maxLength: int): (n: nat)
    requires text != ""
    ensures 1 <= n <= |text|
  {
    var k := MaxFit(text, maxLength);
    if k == 0 then 1 else k
  }

  function Cut(text: string, maxLength: int): seq<string> {
    if text == "" then []
    else
      var n := CutSize(text, maxLength);
      [text[..n]] + Cut(text[n..], maxLength)
  }

  function Split(keys: string, maxLength: int): seq<string> {
    if Utf8Length(keys) <= maxLength then [keys] else Cut(keys, maxLength)
  }

  /** `_split_keys`: the source's loop over what remains. */
  method SplitKeys(keys: string, maxLength: int) returns (chunks: seq<string>)
    ensures chunks == Split(keys, maxLength)
  {
    if Utf8Length(keys) <= maxLength {
      return [keys];
    }
    chunks := [];
    var remaining := keys;
    while remaining != ""
      invariant chunks + Cut(remaining, maxLength) == Cut(keys, maxLength)
      decreases |remaining|
    {
      var chunkSize := FindMaxChunkSize(remaining, maxLength);
      if chunkSize == 0 {
        chunkSize := 1;
      }
      assert chunks + Cut(remaining, maxLength)
          == (chunks + [remaining[..chunkSize]]) + Cut(remaining[chunkSize..], maxLength);
      chunks := chunks + [remaining[..chunkSize]];
      remaining := remaining[chunkSize..];
    }
  }

  function Join(pieces: seq<string>): string {
    if pieces == [] then "" else pieces[0] + Join(pieces[1..])
  }

  /** A piece the source may send: it fits, or it is a single character. */
  predicate Sendable(piece: string, maxLength: int) {
    Utf8Length(piece) <= maxLength || |piece| == 1
  }

  lemma {:induction false} CutLossless(text: string, maxLength: int)
    ensures Join(Cut(text, maxLength)) == text
  {
    if text != "" {
      var n := CutSize(text, maxLength);
      CutLossless(text[n..], maxLength);
      assert Cut(text, maxLength)[1..] == Cut(text[n..], maxLength);
      assert text == text[..n] + text[n..];
    }
  }

  /** Nothing is lost or reordered: the chunks concatenate to the input. */
  lemma SplitLossless(keys: string, maxLength: int)
    ensures Join(Split(keys, maxLength)) == keys
  {
    if Utf8Length(keys) <= maxLength {
      assert Split(keys, maxLength)[1..] == [];
    } else {
      CutLossless(keys, maxLength);
    }
  }

  lemma {:induction false} CutPieces(text: string, maxLength: int)
    ensures forall i | 0 <= i < |Cut(text, maxLength)| ::
              Cut(text, maxLength)[i] != "" && Sendable(Cut(text, maxLength)[i], maxLength)
  {
    if text != "" {
      MaxFitIsMaxFit(text, maxLength);
      CutPieces(text[CutSize(text, maxLength)..], maxLength);
    }
  }

  /** Each chunk fits in maxLength bytes or is one character, and with room for
      any character (4 bytes in UTF-8) every chunk fits. */
  lemma SplitPiecesFit(keys: string, maxLength: int, i: nat)
    requires i < |Split(keys, maxLength)|
    ensures Sendable(Split(keys, maxLength)[i], maxLength)
    ensures maxLength >= 4 ==> Utf8Length(Split(keys, maxLength)[i]) <= maxLength
    ensures keys != "" ==> Split(keys, maxLength)[i] != ""
  {
    CutPieces(keys, maxLength);
    Utf8AtLeastCharacters(Split(keys, maxLength)[i]);
  }

  /** Every cut is the longest prefix of what is left that fits, or one
      character when not even that fits. */
  lemma {:induction false} CutsAreMaximal(text: string, maxLength: int, i: nat)
    requires i < |Cut(text, maxLength)|
    ensures var rest := Join(Cut(text, maxLength)[i..]);
            var piece := Cut(text, maxLength)[i];
            || IsMaxFit(rest, maxLength, |piece|)
            || (|piece| == 1 && IsMaxFit(rest, maxLength, 0))
  {
    var n := CutSize(text, maxLength);
    if i == 0 {
      assert Cut(text, maxLength)[0..] == Cut(text, maxLength);
      CutLossless(text, maxLength);
      MaxFitIsMaxFit(text, maxLength);
    } else {
      assert Cut(text, maxLength)[i..] == Cut(text[n..], maxLength)[i - 1..];
      CutsAreMaximal(text[n..], maxLength, i - 1);
    }
  }

  lemma {:induction false} CutNoLonger(tail: string, head: string, pieces: seq<string>, maxLength: int)
    requires head + tail == Join(pieces)
    requires forall p | p in pieces :: Sendable(p, maxLength)
    ensures |Cut(tail, maxLength)| <= |pieces|
    decreases |pieces|
  {
    if tail != "" {
      var first, rest := pieces[0], pieces[1..];
      if |first| <= |head| {
        assert head[|first|..] + tail == (head + tail)[|first|..] == Join(rest);
        CutNoLonger(tail, head[|first|..], rest, maxLength);
      } else {
        var q := first[|head|..];
        assert tail == (first + Join(rest))[|head|..] == q + Join(rest);
        SuffixSendable(first, |head|, maxLength);
        var n := CutSize(tail, maxLength);
        assert |q| <= n by {
          MaxFitIsMaxFit(tail, maxLength);
          assert tail[..|q|] == q;
        }
        assert tail[|q|..n] + tail[n..] == tail[|q|..] == Join(rest);
        CutNoLonger(tail[n..], tail[|q|..n], rest, maxLength);
      }
    }
  }

  lemma SuffixSendable(piece: string, i: nat, maxLength: int)
    requires i < |piece| && Sendable(piece, maxLength)
    ensures Sendable(piece[i..], maxLength)
  {
    assert piece == piece[..i] + piece[i..];
    Utf8LengthConcat(piece[..i], piece[i..]);
  }

  /** Optimality: no way of cutting non-empty keys into sendable pieces uses
      fewer pieces than the source's greedy cuts. */
  lemma SplitOptimal(keys: string, maxLength: int, pieces: seq<string>)
    requires keys != ""
    requires Join(pieces) == keys
    requires forall p | p in pieces :: Sendable(p, maxLength)
    ensures |Split(keys, maxLength)| <= |pieces|
  {
    assert "" + keys == Join(pieces);
    CutNoLonger(keys, "", pieces, maxLength);
  }

  // ---------------------------------------------------------------------
  // Terminal diffing: `get_incremental_output`
  // ---------------------------------------------------------------------

  /** What the two captures of one observation return. */
  datatype Capture = Capture(history: string, visible: string)

  datatype Observation = Observation(text: string, nextBuffer: string)

  const NEW_OUTPUT := "New Terminal Output:\n"
  const SCREEN := "Current Terminal Screen:\n"
  const RESET := "[TERMINAL RESET]\n"

  function IncrementalOutput(previous: string, capture: Capture): (seen: Observation)
    ensures seen.nextBuffer == capture.history
  {
    var current := capture.history;
    if previous != "" && previous <= current then
      var incremental := current[|previous|..];
      if !Blank(incremental) then Observation(NEW_OUTPUT + incremental, current)
      else Observation(SCREEN + capture.visible, current)
    else if previous != "" then Observation(RESET + capture.visible, current)
    else Observation(SCREEN + capture.visible, current)
  }
}
