/** The trajectory writer (`termiclaw/trajectory.py`) and the ATIF reader
    (`termiclaw/atif.py`), and the round trip between them. */
module Atif {
  import opened Prelude
  import opened Json
  import opened RunState
  import Text

  // Writer ---------------------------------------------------------------------

  function ScalarValue(s: Scalar): Value {
    match s
    case IntValue(n) => Int(n)
    case FloatValue(x) => Float(x)
    case TextValue(t) => Str(t)
  }

  /** `dict(step.metrics)`: a later pair replaces an earlier one. */
  function MetricsDict(metrics: seq<(string, Scalar)>): map<string, Value> {
    if metrics == [] then map[]
    else MetricsDict(DropLast(metrics))[Last(metrics).0 := ScalarValue(Last(metrics).1)]
  }

  const MARK_COMPLETE := Obj(map["function_name" := Str("mark_task_complete"), "arguments" := Obj(map[])])

  function CommandCall(c: ParsedCommand): Value {
    Obj(map["function_name" := Str("bash_command"),
            "arguments" := Obj(map["keystrokes" := Str(c.keystrokes), "duration" := Float(c.duration)])])
  }

  function CommandCalls(commands: seq<ParsedCommand>): seq<Value> {
    if commands == [] then [] else CommandCalls(DropLast(commands)) + [CommandCall(Last(commands))]
  }

  function ToolCalls(step: StepRecord): seq<Value> {
    if step.taskComplete then [MARK_COMPLETE]
    else CommandCalls(step.commands)
  }

  /** `_step_to_dict`. */
  function StepToDict(step: StepRecord): Value {
    Obj(map[
      "step_id" := Str(step.stepId),
      "timestamp" := Str(step.timestamp),
      "source" := Str(step.source),
      "message" := Str(if step.analysis.Some? then step.analysis.value else ""),
      "tool_calls" := Arr(ToolCalls(step)),
      "observation" := Obj(map["terminal_output" := Str(step.observation)]),
      "metrics" := Obj(MetricsDict(step.metrics)),
      "is_copied_context" := Bool(step.isCopiedContext),
      "error" := if step.error.Some? then Str(step.error.value) else Null])
  }

  /** The text of trajectory.jsonl after writing the steps. */
  function Written(codec: Codec, steps: seq<StepRecord>): string {
    if steps == [] then "" else codec.dumps(StepToDict(steps[0])) + "\n" + Written(codec, steps[1..])
  }

  class TrajectoryFile {
    var text: string

    constructor ()
      ensures text == ""
    {
      text := "";
    }

    /** `append_step`. */
    method AppendStep(codec: Codec, ghost steps: seq<StepRecord>, step: StepRecord)
      requires text == Written(codec, steps)
      modifies this
      ensures text == Written(codec, steps + [step])
    {
      text := text + codec.dumps(StepToDict(step)) + "\n";
      WrittenSnoc(codec, steps, step);
    }
  }

  lemma {:induction false} WrittenSnoc(codec: Codec, steps: seq<StepRecord>, step: StepRecord)
    ensures Written(codec, steps + [step]) == Written(codec, steps) + codec.dumps(StepToDict(step)) + "\n"
  {
    hide StepToDict;
    if steps == [] {
      assert ([] + [step])[1..] == [];
    } else {
      assert (steps + [step])[1..] == steps[1..] + [step];
      WrittenSnoc(codec, steps[1..], step);
    }
  }

  // Reader ---------------------------------------------------------------------

  datatype AtifToolCall = AtifToolCall(functionName: string, arguments: map<string, Value>)

  datatype AtifMetrics = AtifMetrics(
    promptTokens: int, inputTokens: int, outputTokens: int, costUsd: real, plannerDurationMs: int)

  datatype AtifStep = AtifStep(
    stepId: string, timestamp: string, source: string, message: string,
    toolCalls: seq<AtifToolCall>, terminalOutput: string, metrics: AtifMetrics,
    isCopiedContext: bool, error: Option<string>)

  predicate IsScalar(v: Value) {
    v.Str? || v.Int? || v.Float? || v.Bool?
  }

  function ScalarFields(d: map<string, Value>): map<string, Value> {
    map k | k in d && IsScalar(d[k]) :: d[k]
  }

  function ReadCall(d: map<string, Value>): AtifToolCall {
    var fn := Get(d, "function_name", Str(""));
    var args := Get(d, "arguments", Null);
    AtifToolCall(if fn.Str? then fn.text else "", if args.Obj? then ScalarFields(args.fields) else map[])
  }

  /** The calls of a list of JSON values; what is not an object is skipped. */
  function ReadCalls(items: seq<Value>): seq<AtifToolCall> {
    if items == [] then []
    else ReadCalls(DropLast(items)) + if Last(items).Obj? then [ReadCall(Last(items).fields)] else []
  }

  /** `_parse_tool_calls`. */
  method ParseToolCalls(raw: Value) returns (calls: seq<AtifToolCall>)
    ensures calls == if raw.Arr? then ReadCalls(raw.items) else []
  {
    calls := [];
    if !raw.Arr? {
      return;
    }
    for i := 0 to |raw.items|
      invariant calls == ReadCalls(raw.items[..i])
    {
      assert DropLast(raw.items[..i + 1]) == raw.items[..i];
      if raw.items[i].Obj? {
        calls := calls + [ReadCall(raw.items[i].fields)];
      }
    }
    assert raw.items[..|raw.items|] == raw.items;
  }

  /** Python's `int(x)` on a float truncates towards zero. */
  function Truncate(x: real): int {
    if x >= 0.0 then x.Floor else -((-x).Floor)
  }

  function AsInt(v: Value): int {
    match v
    case Int(n) => n
    case Float(x) => Truncate(x)
    case Bool(b) => if b then 1 else 0
    case _ => 0
  }

  function AsFloat(v: Value): real {
    match v
    case Int(n) => n as real
    case Float(x) => x
    case Bool(b) => if b then 1.0 else 0.0
    case _ => 0.0
  }

  function ParseMetrics(raw: Value): AtifMetrics {
    if !raw.Obj? then AtifMetrics(0, 0, 0, 0.0, 0)
    else
      AtifMetrics(AsInt(Get(raw.fields, "prompt_tokens", Null)),
                  AsInt(Get(raw.fields, "input_tokens", Null)),
                  AsInt(Get(raw.fields, "output_tokens", Null)),
                  AsFloat(Get(raw.fields, "cost_usd", Null)),
                  AsInt(Get(raw.fields, "planner_duration_ms", Null)))
  }

  function ParseObservation(raw: Value): string {
    if !raw.Obj? then ""
    else
      var terminal := Get(raw.fields, "terminal_output", Null);
      if terminal.Str? then terminal.text else ""
  }

  /** `_entry_to_step`. */
  function EntryToStep(codec: Codec, entry: map<string, Value>): AtifStep {
    var calls := Get(entry, "tool_calls", Null);
    var message := Get(entry, "message", Str(""));
    var error := Get(entry, "error", Null);
    AtifStep(
      StrOf(codec, Get(entry, "step_id", Str(""))),
      StrOf(codec, Get(entry, "timestamp", Str(""))),
      StrOf(codec, Get(entry, "source", Str(""))),
      if Truthy(message) then StrOf(codec, message) else "",
      if calls.Arr? then ReadCalls(calls.items) else [],
      ParseObservation(Get(entry, "observation", Null)),
      ParseMetrics(Get(entry, "metrics", Null)),
      Truthy(Get(entry, "is_copied_context", Bool(false))),
      if Truthy(error) then Some(StrOf(codec, error)) else None)
  }

  /** The step of one raw line, if it holds one. */
  function ReadLine(codec: Codec, raw: string): Option<AtifStep> {
    var line := Strip(raw);
    if line == "" then None
    else
      match codec.loads(line)
      case Some(Obj(fields)) => Some(EntryToStep(codec, fields))
      case _ => None
  }

  function ReadLines(codec: Codec, lines: seq<string>): seq<AtifStep> {
    if lines == [] then []
    else (match ReadLine(codec, lines[0]) case Some(s) => [s] case None => []) + ReadLines(codec, lines[1..])
  }

  function Load(codec: Codec, text: string): seq<AtifStep> {
    ReadLines(codec, SplitLines(text))
  }

  /** `_load_trajectory`. */
  method LoadTrajectory(codec: Codec, text: string) returns (steps: seq<AtifStep>)
    ensures steps == Load(codec, text)
  {
    steps := [];
    var lines := SplitLines(text);
    hide ReadLine;
    for i := 0 to |lines|
      invariant steps + ReadLines(codec, lines[i..]) == ReadLines(codec, lines)
    {
      assert lines[i..][1..] == lines[i + 1..];
      var read := ReadLine(codec, lines[i]);
      if read.Some? {
        steps := steps + [read.value];
      }
    }
  }

  // Round trip -----------------------------------------------------------------

  /** The last value a metrics list gives a key. */
  function Metric(metrics: seq<(string, Scalar)>, key: string): Value {
    if metrics == [] then Null
    else if Last(metrics).0 == key then ScalarValue(Last(metrics).1)
    else Metric(DropLast(metrics), key)
  }

  /** A written step as a reader sees it: completion replaces the commands by
      one `mark_task_complete` call, an absent analysis is an empty message, an
      empty error is no error, and five metrics are kept. */
  function Normal(step: StepRecord): AtifStep {
    AtifStep(
      step.stepId, step.timestamp, step.source,
      if step.analysis.Some? then step.analysis.value else "",
      if step.taskComplete then [AtifToolCall("mark_task_complete", map[])] else NormalCalls(step.commands),
      step.observation,
      AtifMetrics(AsInt(Metric(step.metrics, "prompt_tokens")),
                  AsInt(Metric(step.metrics, "input_tokens")),
                  AsInt(Metric(step.metrics, "output_tokens")),
                  AsFloat(Metric(step.metrics, "cost_usd")),
                  AsInt(Metric(step.metrics, "planner_duration_ms"))),
      step.isCopiedContext,
      if step.error == Some("") then None else step.error)
  }

  function NormalCall(c: ParsedCommand): AtifToolCall {
    AtifToolCall("bash_command", map["keystrokes" := Str(c.keystrokes), "duration" := Float(c.duration)])
  }

  function NormalCalls(commands: seq<ParsedCommand>): seq<AtifToolCall> {
    seq(|commands|, i requires 0 <= i < |commands| => NormalCall(commands[i]))
  }

  function Normals(steps: seq<StepRecord>): seq<AtifStep> {
    seq(|steps|, i requires 0 <= i < |steps| => Normal(steps[i]))
  }

  /** Every step's entry survives the codec. */
  ghost predicate Storable(codec: Codec, steps: seq<StepRecord>) {
    forall i | 0 <= i < |steps| :: Faithful(codec, StepToDict(steps[i]))
  }

  lemma {:induction false} MetricsKept(metrics: seq<(string, Scalar)>, key: string)
    ensures Get(MetricsDict(metrics), key, Null) == Metric(metrics, key)
  {
    if metrics != [] {
      MetricsKept(DropLast(metrics), key);
    }
  }

  lemma CallKept(c: ParsedCommand)
    ensures CommandCall(c).Obj?
    ensures ReadCall(CommandCall(c).fields) == NormalCall(c)
  {
    var args := map["keystrokes" := Str(c.keystrokes), "duration" := Float(c.duration)];
    assert ScalarFields(args) == args;
  }

  lemma {:induction false} CallsKept(commands: seq<ParsedCommand>)
    ensures ReadCalls(CommandCalls(commands)) == NormalCalls(commands)
  {
    hide CommandCall, ReadCall, NormalCall;
    if commands != [] {
      var front, c := DropLast(commands), Last(commands);
      CallsKept(front);
      CallKept(c);
      assert DropLast(CommandCalls(commands)) == CommandCalls(front);
      assert NormalCalls(commands) == NormalCalls(front) + [NormalCall(c)];
    }
  }

  lemma ToolCallsKept(step: StepRecord)
    ensures ReadCalls(ToolCalls(step)) == Normal(step).toolCalls
  {
    hide ParseMetrics, Metric, AsInt, AsFloat, CommandCalls;
    CallsKept(step.commands);
    if step.taskComplete {
      assert DropLast([MARK_COMPLETE]) == [];
      assert ScalarFields(map[]) == map[];
    }
  }

  /** What the reader finds under each key the writer wrote. */
  lemma TextFields(step: StepRecord)
    ensures var d := StepToDict(step).fields;
            && Get(d, "step_id", Str("")) == Str(step.stepId)
            && Get(d, "timestamp", Str("")) == Str(step.timestamp)
            && Get(d, "source", Str("")) == Str(step.source)
            && Get(d, "message", Str("")) == Str(Normal(step).message)
  {
    hide ToolCalls, MetricsDict, ParseMetrics, Metric, AsInt, AsFloat;
  }

  lemma OtherFields(step: StepRecord)
    ensures var d := StepToDict(step).fields;
            && Get(d, "tool_calls", Null) == Arr(ToolCalls(step))
            && Get(d, "observation", Null) == Obj(map["terminal_output" := Str(step.observation)])
            && Get(d, "metrics", Null) == Obj(MetricsDict(step.metrics))
            && Get(d, "is_copied_context", Bool(false)) == Bool(step.isCopiedContext)
            && Get(d, "error", Null) == if step.error.Some? then Str(step.error.value) else Null
  {
    hide ToolCalls, MetricsDict;
  }

  lemma MetricsRead(metrics: seq<(string, Scalar)>)
    ensures ParseMetrics(Obj(MetricsDict(metrics)))
         == AtifMetrics(AsInt(Metric(metrics, "prompt_tokens")),
                        AsInt(Metric(metrics, "input_tokens")),
                        AsInt(Metric(metrics, "output_tokens")),
                        AsFloat(Metric(metrics, "cost_usd")),
                        AsInt(Metric(metrics, "planner_duration_ms")))
  {
    hide Get, MetricsDict, Metric, AsInt, AsFloat;
    MetricsKept(metrics, "prompt_tokens");
    MetricsKept(metrics, "input_tokens");
    MetricsKept(metrics, "output_tokens");
    MetricsKept(metrics, "cost_usd");
    MetricsKept(metrics, "planner_duration_ms");
  }

  /** The last value a step gives a metric. */
  function LastMetric(metrics: seq<(string, Scalar)>, key: string): Option<Scalar> {
    if metrics == [] then None
    else if Last(metrics).0 == key then Some(Last(metrics).1)
    else LastMetric(DropLast(metrics), key)
  }

  /** n is the metric as an integer: itself, a float cut towards zero, 0 for a
      text or nothing. */
  predicate ReadAsInt(metric: Option<Scalar>, n: int) {
    match metric
    case Some(IntValue(k)) => n == k
    case Some(FloatValue(x)) => if x >= 0.0 then n as real <= x < (n + 1) as real else (n - 1) as real < x <= n as real
    case _ => n == 0
  }

  predicate ReadAsFloat(metric: Option<Scalar>, x: real) {
    match metric
    case Some(IntValue(k)) => x == k as real
    case Some(FloatValue(y)) => x == y
    case _ => x == 0.0
  }

  lemma {:induction false} MetricRead(metrics: seq<(string, Scalar)>, key: string)
    ensures ReadAsInt(LastMetric(metrics, key), AsInt(Metric(metrics, key)))
    ensures ReadAsFloat(LastMetric(metrics, key), AsFloat(Metric(metrics, key)))
  {
    if metrics != [] {
      MetricRead(DropLast(metrics), key);
    }
  }

  /** The metrics of a step in normal form, in the step's own values. */
  lemma NormalMetrics(step: StepRecord)
    ensures var m := Normal(step).metrics;
            && ReadAsInt(LastMetric(step.metrics, "prompt_tokens"), m.promptTokens)
            && ReadAsInt(LastMetric(step.metrics, "input_tokens"), m.inputTokens)
            && ReadAsInt(LastMetric(step.metrics, "output_tokens"), m.outputTokens)
            && ReadAsFloat(LastMetric(step.metrics, "cost_usd"), m.costUsd)
            && ReadAsInt(LastMetric(step.metrics, "planner_duration_ms"), m.plannerDurationMs)
  {
    hide Metric, AsInt, AsFloat, ReadAsInt, ReadAsFloat, LastMetric, NormalCalls;
    MetricRead(step.metrics, "prompt_tokens");
    MetricRead(step.metrics, "input_tokens");
    MetricRead(step.metrics, "output_tokens");
    MetricRead(step.metrics, "cost_usd");
    MetricRead(step.metrics, "planner_duration_ms");
  }

  lemma StepKept(codec: Codec, step: StepRecord)
    ensures StepToDict(step).Obj?
    ensures EntryToStep(codec, StepToDict(step).fields) == Normal(step)
  {
    hide Get, ToolCalls, ReadCalls, MetricsDict, ParseMetrics, ParseObservation, Metric, AsInt, AsFloat, NormalCalls;
    TextFields(step);
    OtherFields(step);
    ToolCallsKept(step);
    MetricsRead(step.metrics);
    ObservationKept(step.observation);
  }

  lemma ObservationKept(text: string)
    ensures ParseObservation(Obj(map["terminal_output" := Str(text)])) == text
  {
  }

  lemma LineKept(codec: Codec, step: StepRecord)
    requires Faithful(codec, StepToDict(step))
    ensures ReadLine(codec, codec.dumps(StepToDict(step))) == Some(Normal(step))
  {
    StepKept(codec, step);
    hide StepToDict, Normal, EntryToStep;
    var line := codec.dumps(StepToDict(step));
    assert Strip(line) == line;
  }

  /** White space around an entry does not matter, and a blank line is no entry. */
  lemma PaddedLineKept(codec: Codec, step: StepRecord, left: string, right: string)
    requires Faithful(codec, StepToDict(step)) && Text.Blank(left) && Text.Blank(right)
    ensures ReadLine(codec, left + codec.dumps(StepToDict(step)) + right) == Some(Normal(step))
    ensures ReadLine(codec, left) == None
  {
    StepKept(codec, step);
    hide StepToDict, Normal, EntryToStep, Strip;
    StripExact(left, codec.dumps(StepToDict(step)), right);
    BlankStripsToNothing(left);
  }

  lemma {:induction false} LoadAppended(codec: Codec, steps: seq<StepRecord>, rest: string)
    requires Storable(codec, steps)
    ensures Load(codec, Written(codec, steps) + rest) == Normals(steps) + Load(codec, rest)
  {
    hide StepToDict, Normal, ReadLine, SplitLines, Breaks;
    if steps == [] {
      assert Written(codec, steps) + rest == rest;
    } else {
      assert Faithful(codec, StepToDict(steps[0]));
      var line := codec.dumps(StepToDict(steps[0]));
      var tail := Written(codec, steps[1..]) + rest;
      assert Written(codec, steps) + rest == line + "\n" + tail;
      FirstLine(line, tail);
      LineKept(codec, steps[0]);
      LoadAppended(codec, steps[1..], rest);
      assert ([line] + SplitLines(tail))[1..] == SplitLines(tail);
      assert Normals(steps) == [Normal(steps[0])] + Normals(steps[1..]);
    }
  }

  /** Round trip: exporting a written trajectory gives back every step, in
      order, each in normal form. */
  lemma RoundTrip(codec: Codec, steps: seq<StepRecord>)
    requires Storable(codec, steps)
    ensures Load(codec, Written(codec, steps)) == Normals(steps)
  {
    hide Load, Written, Normals;
    LoadAppended(codec, steps, "");
    assert Written(codec, steps) + "" == Written(codec, steps);
    assert Load(codec, "") == [] by { NothingLoaded(codec); }
  }

  lemma NothingLoaded(codec: Codec)
    ensures Load(codec, "") == []
  {
  }

  lemma MalformedSkipped(codec: Codec, raw: string)
    requires codec.loads(Strip(raw)) == None
    ensures ReadLines(codec, [raw]) == []
  {
    hide Strip, EntryToStep;
    assert [raw][1..] == [];
  }

  lemma TornLoadsNothing(codec: Codec, torn: string)
    requires forall i | 0 <= i < |torn| :: !Breaks(torn[i])
    requires codec.loads(Strip(torn)) == None
    ensures Load(codec, torn) == []
  {
    hide ReadLines, ReadLine, SplitLines, Breaks, Strip;
    if torn == "" {
      NothingLoaded(codec);
    } else {
      OnlyLine(torn);
      MalformedSkipped(codec, torn);
    }
  }

  /** A torn last write loses that step only. */
  lemma TornWriteSkipped(codec: Codec, steps: seq<StepRecord>, torn: string)
    requires Storable(codec, steps)
    requires forall i | 0 <= i < |torn| :: !Breaks(torn[i])
    requires codec.loads(Strip(torn)) == None
    ensures Load(codec, Written(codec, steps) + torn) == Normals(steps)
  {
    hide Storable, Written, Normals, Load, Breaks, Strip;
    LoadAppended(codec, steps, torn);
    TornLoadsNothing(codec, torn);
  }

  lemma MalformedLineLoadsNothing(codec: Codec, bad: string, rest: string)
    requires forall i | 0 <= i < |bad| :: !Breaks(bad[i])
    requires codec.loads(Strip(bad)) == None
    ensures Load(codec, bad + "\n" + rest) == Load(codec, rest)
  {
    hide ReadLine, SplitLines, Breaks, Strip;
    FirstLine(bad, rest);
    var lines := [bad] + SplitLines(rest);
    assert lines[1..] == SplitLines(rest);
    assert ReadLine(codec, bad) == None by {
      MalformedSkipped(codec, bad);
      assert ReadLines(codec, [bad]) == [];
    }
  }

  /** A malformed line in the middle costs nothing of what surrounds it. */
  lemma MalformedLineSkipped(codec: Codec, before: seq<StepRecord>, bad: string, rest: seq<StepRecord>)
    requires Storable(codec, before) && Storable(codec, rest)
    requires forall i | 0 <= i < |bad| :: !Breaks(bad[i])
    requires codec.loads(Strip(bad)) == None
    ensures Load(codec, Written(codec, before) + (bad + "\n" + Written(codec, rest)))
         == Normals(before) + Normals(rest)
  {
    hide Storable, Written, Normals, Load, Breaks, Strip;
    LoadAppended(codec, before, bad + "\n" + Written(codec, rest));
    MalformedLineLoadsNothing(codec, bad, Written(codec, rest));
    RoundTrip(codec, rest);
  }
}
