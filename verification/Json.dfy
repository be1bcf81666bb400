/** JSON values, Python's truthiness on them, and the text codec the writer and
    the reader of trajectories share. */
module Json {
  import opened Prelude
  import Text

  datatype Value =
    | Null
    | Bool(flag: bool)
    | Int(number: int)
    | Float(amount: real)
    | Str(text: string)
    | Arr(items: seq<Value>)
    | Obj(fields: map<string, Value>)

  predicate Truthy(v: Value) {
    match v
    case Null => false
    case Bool(b) => b
    case Int(n) => n != 0
    case Float(x) => x != 0.0
    case Str(s) => s != ""
    case Arr(items) => items != []
    case Obj(fields) => fields != map[]
  }

  /** `d.get(key, default)`. */
  function Get(d: map<string, Value>, key: string, default: Value): Value {
    if key in d then d[key] else default
  }

  /** `json.dumps`, `json.loads` (None when it raises) and `str` of a value. */
  datatype Codec = Codec(dumps: Value -> string, loads: string -> Option<Value>, show: Value -> string)

  /** `str(v)`. */
  function StrOf(codec: Codec, v: Value): string {
    if v.Str? then v.text else codec.show(v)
  }

  /** A character `str.splitlines` breaks at. */
  predicate Breaks(c: char) {
    '\n' <= c <= '\r' || '\U{1C}' <= c <= '\U{1E}' || c in {'\U{85}', '\U{2028}', '\U{2029}'}
  }

  /** A line that survives splitting and stripping unchanged. */
  predicate OneLine(line: string) {
    && line != ""
    && !Text.IsSpace(line[0]) && !Text.IsSpace(Last(line))
    && forall i | 0 <= i < |line| :: !Breaks(line[i])
  }

  /** What is assumed of the codec on a value: it is written as one line and
      read back. (Not of every value: reals outnumber strings.) */
  ghost predicate Faithful(codec: Codec, v: Value) {
    codec.loads(codec.dumps(v)) == Some(v) && OneLine(codec.dumps(v))
  }

  /** Where the first line of a text ends. */
  function LineEnd(text: string): (n: nat)
    ensures n <= |text|
    ensures forall i | 0 <= i < n :: !Breaks(text[i])
    ensures n < |text| ==> Breaks(text[n])
  {
    if text == "" || Breaks(text[0]) then 0 else 1 + LineEnd(text[1..])
  }

  /** `str.splitlines`; "\r\n" is one break. */
  function SplitLines(text: string): seq<string> {
    if text == "" then []
    else
      var n := LineEnd(text);
      if n == |text| then [text]
      else
        var skip := if text[n] == '\r' && n + 1 < |text| && text[n + 1] == '\n' then 2 else 1;
        [text[..n]] + SplitLines(text[n + skip..])
  }

  /** `str.strip`. */
  function Strip(text: string): string {
    if text == "" then ""
    else if Text.IsSpace(text[0]) then Strip(text[1..])
    else if Text.IsSpace(Last(text)) then Strip(DropLast(text))
    else text
  }

  /** The characters that break a line. */
  lemma BreaksExact(c: char)
    ensures Breaks(c)
            <==> c in {'\n', '\U{0B}', '\U{0C}', '\r', '\U{1C}', '\U{1D}', '\U{1E}', '\U{85}', '\U{2028}', '\U{2029}'}
  {
    var n := c as int;
    assert c == n as char;
  }

  /** sep, before rest, is one line break: a breaking character, or "\r\n". */
  predicate IsBreak(sep: string, rest: string) {
    || sep == "\r\n"
    || (|sep| == 1 && Breaks(sep[0]) && !(sep == "\r" && rest != "" && rest[0] == '\n'))
  }

  /** A line ends at its first break, and the rest is split alike. */
  lemma FirstBreak(line: string, sep: string, rest: string)
    requires forall i | 0 <= i < |line| :: !Breaks(line[i])
    requires IsBreak(sep, rest)
    ensures SplitLines(line + sep + rest) == [line] + SplitLines(rest)
  {
    hide Breaks;
    var text := line + sep + rest;
    assert Breaks(sep[0]) by { BreaksExact(sep[0]); }
    assert text[|line|] == sep[0];
    assert forall i | 0 <= i < |line| :: text[i] == line[i];
    var n := LineEnd(text);
    assert n == |line|;
    assert text[..n] == line && text[n + |sep|..] == rest;
    assert n + 1 < |text| ==> text[n + 1] == (if |sep| == 2 then sep[1] else rest[0]);
  }

  lemma FirstLine(line: string, rest: string)
    requires forall i | 0 <= i < |line| :: !Breaks(line[i])
    ensures SplitLines(line + "\n" + rest) == [line] + SplitLines(rest)
  {
    FirstBreak(line, "\n", rest);
  }

  /** A text without a break is one line. */
  lemma OnlyLine(text: string)
    requires text != ""
    requires forall i | 0 <= i < |text| :: !Breaks(text[i])
    ensures SplitLines(text) == [text]
  {
    hide Breaks;
    var n := LineEnd(text);
    assert n == |text|;
  }

  /** `str.strip` takes all white space off both ends, and nothing else. */
  lemma {:induction false} StripExact(left: string, text: string, right: string)
    requires Text.Blank(left) && Text.Blank(right)
    requires text != "" && !Text.IsSpace(text[0]) && !Text.IsSpace(Last(text))
    ensures Strip(left + text + right) == text
    decreases |left| + |right|
  {
    hide Text.IsSpace;
    var whole := left + text + right;
    if left != "" {
      assert whole[1..] == left[1..] + text + right;
      StripExact(left[1..], text, right);
    } else if right != "" {
      assert whole == text + right && DropLast(whole) == left + text + DropLast(right);
      StripExact(left, text, DropLast(right));
    } else {
      assert whole == text;
    }
  }

  lemma {:induction false} BlankStripsToNothing(text: string)
    requires Text.Blank(text)
    ensures Strip(text) == ""
  {
    hide Text.IsSpace;
    if text != "" {
      BlankStripsToNothing(text[1..]);
    }
  }
}
