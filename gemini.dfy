/**
 * The Gemini CLI adapter (`GeminiCLIAdapter`): it reads OpenTelemetry metric
 * events from the CLI's telemetry log. Token-usage events go to the session
 * totals at once (when positive) and also into a pending buffer; the next
 * MCP tool-call event takes the pending input, output and cache amounts as
 * its own usage (so a positive amount of those kinds reaches the session
 * totals a second time) and resets the buffer. Pending thought amounts are
 * dropped at that point, so they reach the session once. Latency events park a
 * duration per function name until that function's next call pops it.
 *
 * Events arrive already decoded. `name` is the event's `name` ("" when absent
 * or empty), `metricName` its `metric_name` ("" when absent), and an absent
 * attribute reads as "".
 */
module Gemini {
  import opened Wrappers
  import opened Text
  import opened Ledger
  import Naming
  import Tracking
  import opened Batches

  const MetricTokenUsage := "gemini_cli.token.usage"
  const MetricToolCallCount := "gemini_cli.tool.call.count"
  const MetricToolCallLatency := "gemini_cli.tool.call.latency"

  const UnknownModel := "Unknown Model"

  /** `MODEL_DISPLAY_NAMES`: human-readable names of the Gemini models. */
  const DisplayNames: map<string, string> := map[
    "gemini-3-pro-preview" := "Gemini 3 Pro Preview",
    "gemini-2.5-pro" := "Gemini 2.5 Pro",
    "gemini-2.5-pro-preview" := "Gemini 2.5 Pro Preview",
    "gemini-2.5-flash" := "Gemini 2.5 Flash",
    "gemini-2.5-flash-preview" := "Gemini 2.5 Flash Preview",
    "gemini-2.5-flash-lite" := "Gemini 2.5 Flash Lite",
    "gemini-2.0-flash" := "Gemini 2.0 Flash",
    "gemini-2.0-flash-lite" := "Gemini 2.0 Flash Lite"
  ]

  function DisplayName(id: string): string {
    if id in DisplayNames then DisplayNames[id] else id
  }

  datatype Event = Event(name: string, metricName: string, attributes: map<string, string>, value: int)

  /** One telemetry line and, when its text is valid JSON, its decoded event. */
  datatype Line = Line(text: string, decoded: Option<Event>)

  /** What `parse_event` returns: the `"__session__"` sentinel with a delta, or an MCP call. */
  datatype Parsed =
    | SessionUsage(usage: Usage)
    | ToolCall(name: string, usage: Usage, durationMs: int)

  /** `_pending_tokens`: tokens seen since the last attributed tool call. */
  datatype Pending = Pending(input: int, output: int, cache: int, thought: int)

  const NoPending := Pending(0, 0, 0, 0)

  /** The adapter's parsing state. */
  datatype State = State(pending: Pending, latencies: map<string, int>, thoughtsTokens: int, detectedModel: Option<string>)

  const Initial := State(NoPending, map[], 0, None)

  /** A parser's new state and what it returned. */
  type Step = Stepped<State, Parsed>

  function Attr(ev: Event, key: string): string {
    if key in ev.attributes then ev.attributes[key] else ""
  }

  /** `data.get("name") or data.get("metric_name", "")`. */
  function MetricOf(ev: Event): string {
    if ev.name != "" then ev.name else ev.metricName
  }

  // ---------------------------------------------------------------- pure parsers

  /**
   * `_parse_tool_call_count`: an MCP call takes the pending tokens (cache
   * as cache read) and its parked latency; the buffer is reset and the
   * latency removed. Anything else changes nothing.
   */
  function ToolCallCount(s: State, ev: Event): (r: Step)
    ensures r.result.Some? <==> Attr(ev, "tool_type") == "mcp" && StartsWith(Attr(ev, "function_name"), Naming.McpPrefix)
    ensures r.result.None? ==> r.state == s
    ensures r.result.Some? ==>
              var f := Attr(ev, "function_name");
              && r.result.value == ToolCall(f, Usage(s.pending.input, s.pending.output, 0, s.pending.cache),
                                            if f in s.latencies then s.latencies[f] else 0)
              && r.state == s.(pending := NoPending, latencies := s.latencies - {f})
  {
    var f := Attr(ev, "function_name");
    if Attr(ev, "tool_type") != "mcp" || !StartsWith(f, Naming.McpPrefix) then Stepped(s, None)
    else
      var duration := if f in s.latencies then s.latencies[f] else 0;
      var u := Usage(s.pending.input, s.pending.output, 0, s.pending.cache);
      Stepped(s.(pending := NoPending, latencies := s.latencies - {f}), Some(ToolCall(f, u, duration)))
  }

  /** The delta one token event reports: "thought" counts as output, "cache" as cache read. */
  function TypedUsage(tokenType: string, v: int): Usage {
    if tokenType == "input" then Usage(v, 0, 0, 0)
    else if tokenType == "output" || tokenType == "thought" then Usage(0, v, 0, 0)
    else if tokenType == "cache" then Usage(0, 0, 0, v)
    else NoUsage
  }

  /** The pending buffer after one token event of the given type. */
  function AddPending(p: Pending, tokenType: string, v: int): Pending {
    if tokenType == "input" then p.(input := p.input + v)
    else if tokenType == "output" then p.(output := p.output + v)
    else if tokenType == "thought" then p.(thought := p.thought + v)
    else if tokenType == "cache" then p.(cache := p.cache + v)
    else p
  }

  /** The model the adapter knows after an event naming `model`: the first non-empty one wins. */
  function ModelAfter(d: Option<string>, model: string): Option<string> {
    if model != "" && !Tracking.Detected(d) then Some(model) else d
  }

  /**
   * `_parse_token_usage`: the value goes to the pending counter of its type
   * (thought tokens also to `thoughts_tokens`), the model is detected once,
   * and the sentinel is returned when the value is positive.
   */
  function TokenUsageEvent(s: State, ev: Event): (r: Step)
    ensures r.result.Some? <==> ev.value > 0
    ensures r.result.Some? ==> r.result.value == SessionUsage(TypedUsage(Attr(ev, "type"), ev.value))
    ensures r.state.latencies == s.latencies
    ensures r.state.detectedModel == ModelAfter(s.detectedModel, Attr(ev, "model"))
  {
    var t := Attr(ev, "type");
    var v := ev.value;
    var thoughts := if t == "thought" then s.thoughtsTokens + v else s.thoughtsTokens;
    var st := State(AddPending(s.pending, t, v), s.latencies, thoughts, ModelAfter(s.detectedModel, Attr(ev, "model")));
    Stepped(st, if v > 0 then Some(SessionUsage(TypedUsage(t, v))) else None)
  }

  /** `_parse_tool_latency`: parks the value under a non-empty function name; the last one wins. */
  function ToolLatency(s: State, ev: Event): (r: State)
    ensures Attr(ev, "function_name") != "" ==> r == s.(latencies := s.latencies[Attr(ev, "function_name") := ev.value])
    ensures Attr(ev, "function_name") == "" ==> r == s
  {
    var f := Attr(ev, "function_name");
    if f != "" then s.(latencies := s.latencies[f := ev.value]) else s
  }

  /** `parse_event` on a decoded event: dispatch by substring, in the source's order. */
  function EventStep(s: State, ev: Event): Step {
    var m := MetricOf(ev);
    if Contains(m, MetricToolCallCount) then ToolCallCount(s, ev)
    else if Contains(m, MetricTokenUsage) then TokenUsageEvent(s, ev)
    else if Contains(m, MetricToolCallLatency) then Stepped(ToolLatency(s, ev), None)
    else Stepped(s, None)
  }

  /** One line of the batch: blank or undecodable lines yield nothing. */
  function LineStep(s: State, line: Line): Step {
    if IsBlank(line.text) || line.decoded.None? then Stepped(s, None) else EventStep(s, line.decoded.value)
  }

  /** A batch of lines: the final state and every non-None result, in order. */
  function RunLines(s: State, lines: seq<Line>): Run<State, Parsed> {
    RunAll(LineStep, s, lines)
  }

  /** The ledger input of a parsed event (Gemini calls carry no content hash). */
  function EntryOf(p: Parsed): Entry {
    match p
    case SessionUsage(u) => SessionDelta(u)
    case ToolCall(name, u, d) => Recorded(name, u, d, None)
  }

  function Entries(ps: seq<Parsed>): seq<Entry> {
    if |ps| == 0 then [] else Entries(ps[..|ps| - 1]) + [EntryOf(ps[|ps| - 1])]
  }

  /** One more line of a batch: the state, the results and the ledger inputs move on together. */
  lemma {:induction false} BatchStep(s: State, lines: seq<Line>, i: int, e0: seq<Entry>, before: seq<Entry>,
                                     after: State, r: Option<Parsed>, entries: seq<Entry>)
    requires 0 <= i < |lines|
    requires before == e0 + Entries(RunLines(s, lines[..i]).results)
    requires Stepped(after, r) == LineStep(RunLines(s, lines[..i]).state, lines[i])
    requires entries == before + (if r.Some? then [EntryOf(r.value)] else [])
    ensures after == RunLines(s, lines[..i + 1]).state
    ensures entries == e0 + Entries(RunLines(s, lines[..i + 1]).results)
    ensures |RunLines(s, lines[..i + 1]).results| > 0 <==> |RunLines(s, lines[..i]).results| > 0 || r.Some?
  {
    var run := RunLines(s, lines[..i]);
    RunAllStep(LineStep, s, lines, i);
    if r.Some? {
      EntriesAppend(run.results, r.value);
      assert e0 + Entries(run.results) + [EntryOf(r.value)] == e0 + (Entries(run.results) + [EntryOf(r.value)]);
    } else {
      assert run.results + [] == run.results;
    }
  }

  lemma {:induction false} EntriesAppend(ps: seq<Parsed>, p: Parsed)
    ensures Entries(ps + [p]) == Entries(ps) + [EntryOf(p)]
  {
    assert (ps + [p])[..|ps|] == ps;
  }

  // ---------------------------------------------------------------- properties

  /** A latency event and an unknown metric return nothing; an unknown metric changes nothing. */
  lemma QuietMetrics(s: State, ev: Event)
    requires !Contains(MetricOf(ev), MetricToolCallCount) && !Contains(MetricOf(ev), MetricTokenUsage)
    ensures EventStep(s, ev).result.None?
    ensures !Contains(MetricOf(ev), MetricToolCallLatency) ==> EventStep(s, ev).state == s
  {
  }

  /** The tool-call-count name is matched first: a metric naming both is a tool call. */
  lemma CountBeforeUsage(s: State, ev: Event)
    requires Contains(MetricOf(ev), MetricToolCallCount) && Contains(MetricOf(ev), MetricTokenUsage)
    ensures EventStep(s, ev) == ToolCallCount(s, ev)
  {
  }

  /** Each token type feeds its own pending counter; an unknown type touches none. */
  lemma TokenTypes(s: State, ev: Event)
    ensures var r := TokenUsageEvent(s, ev).state; var v := ev.value;
      match Attr(ev, "type")
      case "input" => r.pending == s.pending.(input := s.pending.input + v) && r.thoughtsTokens == s.thoughtsTokens
      case "output" => r.pending == s.pending.(output := s.pending.output + v) && r.thoughtsTokens == s.thoughtsTokens
      case "thought" => r.pending == s.pending.(thought := s.pending.thought + v) && r.thoughtsTokens == s.thoughtsTokens + v
      case "cache" => r.pending == s.pending.(cache := s.pending.cache + v) && r.thoughtsTokens == s.thoughtsTokens
      case _ => r.pending == s.pending && r.thoughtsTokens == s.thoughtsTokens
  {
  }

  /** The last latency event for a function is the one its next call takes, and the call removes it. */
  lemma LatestLatencyWins(s: State, first: Event, second: Event, call: Event)
    requires Attr(first, "function_name") == Attr(second, "function_name") == Attr(call, "function_name")
    requires Attr(call, "tool_type") == "mcp" && StartsWith(Attr(call, "function_name"), Naming.McpPrefix)
    ensures var t := ToolCallCount(ToolLatency(ToolLatency(s, first), second), call);
      && t.result.Some? && t.result.value.durationMs == second.value
      && Attr(call, "function_name") !in t.state.latencies
  {
    var f := Attr(call, "function_name");
    var s2 := ToolLatency(ToolLatency(s, first), second);
    assert f in s2.latencies && s2.latencies[f] == second.value;
  }

  /** A call with no parked latency gets duration 0. */
  lemma MissingLatencyIsZero(s: State, call: Event)
    requires Attr(call, "function_name") !in s.latencies
    requires ToolCallCount(s, call).result.Some?
    ensures ToolCallCount(s, call).result.value.durationMs == 0
  {
  }

  /**
   * Tokens are counted twice: an input-token event goes to the session
   * totals through the sentinel, and the MCP call after it carries the same
   * tokens into `record_tool_call`, which adds them to the session totals
   * again.
   */
  lemma {:induction false} TokensCountedTwice(s: State, usage: Event, call: Event, before: seq<Entry>)
    requires s.pending == NoPending
    requires MetricOf(usage) == MetricTokenUsage && Attr(usage, "type") == "input" && usage.value > 0
    requires MetricOf(call) == MetricToolCallCount
    requires Attr(call, "tool_type") == "mcp" && StartsWith(Attr(call, "function_name"), Naming.McpPrefix)
    ensures var a := EventStep(s, usage); var b := EventStep(a.state, call);
      && a.result.Some? && b.result.Some?
      && Replay(before + [EntryOf(a.result.value), EntryOf(b.result.value)]).tokenUsage.input
         == Replay(before).tokenUsage.input + 2 * usage.value
  {
    var v := usage.value;
    ContainsItself(MetricTokenUsage);
    ContainsItself(MetricToolCallCount);
    ContainsNeedsRoom(MetricTokenUsage, MetricToolCallCount);
    var a := EventStep(s, usage);
    assert a == TokenUsageEvent(s, usage);
    assert a.state.pending == Pending(v, 0, 0, 0);
    var b := EventStep(a.state, call);
    assert b == ToolCallCount(a.state, call);
    var e1, e2 := EntryOf(a.result.value), EntryOf(b.result.value);
    assert e1.EntryUsage() == Usage(v, 0, 0, 0) && e2.EntryUsage() == Usage(v, 0, 0, 0);
    TwoEntries(before, e1, e2);
  }

  /**
   * A thought amount reaches the session once: as output through the
   * sentinel path; the next MCP call takes no thought amount with it.
   */
  lemma {:induction false} ThoughtCountedOnce(s: State, usage: Event, call: Event, before: seq<Entry>)
    requires s.pending == NoPending
    requires MetricOf(usage) == MetricTokenUsage && Attr(usage, "type") == "thought" && usage.value > 0
    requires MetricOf(call) == MetricToolCallCount
    requires Attr(call, "tool_type") == "mcp" && StartsWith(Attr(call, "function_name"), Naming.McpPrefix)
    ensures var a := EventStep(s, usage); var b := EventStep(a.state, call);
      && a.result.Some? && b.result.Some?
      && var after := Replay(before + [EntryOf(a.result.value), EntryOf(b.result.value)]).tokenUsage;
         after.output == Replay(before).tokenUsage.output + usage.value
         && after.input == Replay(before).tokenUsage.input && after.cacheRead == Replay(before).tokenUsage.cacheRead
  {
    var v := usage.value;
    ThoughtSteps(s, usage, call);
    var a := EventStep(s, usage);
    var b := EventStep(a.state, call);
    var e1, e2 := EntryOf(a.result.value), EntryOf(b.result.value);
    TwoEntries(before, e1, e2);
    var x, y := Replay(before).tokenUsage, Replay(before + [e1, e2]).tokenUsage;
    assert y.Counts() == x.Counts().Plus(Usage(0, v, 0, 0)).Plus(NoUsage);
  }

  /** The two events' steps: the sentinel carries the thought amount as output, the call carries nothing. */
  lemma ThoughtSteps(s: State, usage: Event, call: Event)
    requires s.pending == NoPending
    requires MetricOf(usage) == MetricTokenUsage && Attr(usage, "type") == "thought" && usage.value > 0
    requires MetricOf(call) == MetricToolCallCount
    requires Attr(call, "tool_type") == "mcp" && StartsWith(Attr(call, "function_name"), Naming.McpPrefix)
    ensures var a := EventStep(s, usage); var b := EventStep(a.state, call);
      && a.result.Some? && b.result.Some?
      && EntryOf(a.result.value).EntryUsage() == Usage(0, usage.value, 0, 0)
      && EntryOf(b.result.value).EntryUsage() == NoUsage
  {
    var v := usage.value;
    ThoughtTyped(v);
    ContainsItself(MetricTokenUsage);
    ContainsItself(MetricToolCallCount);
    ContainsNeedsRoom(MetricTokenUsage, MetricToolCallCount);
    var a := EventStep(s, usage);
    assert a == TokenUsageEvent(s, usage);
    assert a.state.pending == Pending(0, 0, 0, v);
    var b := EventStep(a.state, call);
    assert b == ToolCallCount(a.state, call);
  }

  lemma ThoughtTyped(v: int)
    ensures TypedUsage("thought", v) == Usage(0, v, 0, 0)
    ensures AddPending(NoPending, "thought", v) == Pending(0, 0, 0, v)
  {
    assert "thought" != "input" && "thought" != "output";
  }

  lemma {:induction false} TwoEntries(before: seq<Entry>, e1: Entry, e2: Entry)
    ensures Replay(before + [e1, e2]).tokenUsage.Counts()
         == Replay(before).tokenUsage.Counts().Plus(e1.EntryUsage()).Plus(e2.EntryUsage())
  {
    var mid := before + [e1];
    assert before + [e1, e2] == mid + [e2];
    ReplayAppend(before, e1);
    ReplayAppend(mid, e2);
    var st0 := Replay(before);
    var st1 := Replay(mid);
    ApplyCounts(st0, e1);
    ApplyCounts(st1, e2);
    assert st1.tokenUsage.Counts() == st0.tokenUsage.Counts().Plus(e1.EntryUsage());
  }

  /** `thoughts_tokens` grows by exactly the thought-typed token values of the batch. */
  function ThoughtValue(line: Line): int {
    if IsBlank(line.text) || line.decoded.None? then 0
    else
      var ev := line.decoded.value;
      var m := MetricOf(ev);
      if !Contains(m, MetricToolCallCount) && Contains(m, MetricTokenUsage) && Attr(ev, "type") == "thought" then ev.value
      else 0
  }

  function ThoughtSum(lines: seq<Line>): int {
    if |lines| == 0 then 0 else ThoughtSum(lines[..|lines| - 1]) + ThoughtValue(lines[|lines| - 1])
  }

  lemma {:induction false} ThoughtsAccumulate(s: State, lines: seq<Line>)
    ensures RunLines(s, lines).state.thoughtsTokens == s.thoughtsTokens + ThoughtSum(lines)
  {
    if |lines| > 0 {
      ThoughtsAccumulate(s, lines[..|lines| - 1]);
      ThoughtStep(RunLines(s, lines[..|lines| - 1]).state, lines[|lines| - 1]);
    }
  }

  lemma {:induction false} ThoughtStep(s: State, line: Line)
    ensures LineStep(s, line).state.thoughtsTokens == s.thoughtsTokens + ThoughtValue(line)
  {
  }

  /** A batch produced results exactly when some line, parsed in the state before it, produced one. */
  lemma HadEventsIffSomeLine(s: State, lines: seq<Line>)
    ensures |RunLines(s, lines).results| > 0 <==> exists i :: 0 <= i < |lines| && Produces(LineStep, s, lines, i)
  {
    ResultsIffSomeLine(LineStep, s, lines);
  }

  // ---------------------------------------------------------------- the adapter

  class GeminiAdapter {
    var pendingTokens: Pending
    var pendingLatencies: map<string, int>
    var thoughtsTokens: int
    var detectedModel: Option<string>
    var modelName: string
    /** `_telemetry_had_events`. */
    var telemetryHadEvents: bool
    /** The shared tracker this adapter extends. */
    const ledger: Tracking.BaseTracker

    function Current(): State
      reads this
    {
      State(pendingTokens, pendingLatencies, thoughtsTokens, detectedModel)
    }

    /** The ledger replays its inputs, and the display name and `session.model` follow the detected model. */
    ghost predicate Valid()
      reads this, ledger
    {
      ledger.Valid()
      && (detectedModel.None? ==> modelName == UnknownModel && ledger.model.None?)
      && (detectedModel.Some? ==> Tracking.Detected(detectedModel) && modelName == DisplayName(detectedModel.value)
                                  && ledger.model == detectedModel)
    }

    constructor ()
      ensures Valid() && fresh(ledger)
      ensures Current() == Initial && !telemetryHadEvents && ledger.entries == []
    {
      pendingTokens := NoPending;
      pendingLatencies := map[];
      thoughtsTokens := 0;
      detectedModel := None;
      modelName := UnknownModel;
      telemetryHadEvents := false;
      ledger := new Tracking.BaseTracker();
    }

    method ParseToolCallCount(ev: Event) returns (r: Option<Parsed>)
      requires Valid()
      modifies this
      ensures Valid() && Stepped(Current(), r) == ToolCallCount(old(Current()), ev)
      ensures modelName == old(modelName) && telemetryHadEvents == old(telemetryHadEvents)
    {
      ghost var s := Current();
      var toolType := Attr(ev, "tool_type");
      if toolType != "mcp" {
        return None;
      }
      var f := Attr(ev, "function_name");
      if !StartsWith(f, Naming.McpPrefix) {
        return None;
      }
      var duration := 0;
      if f in pendingLatencies {
        duration := pendingLatencies[f];
        pendingLatencies := pendingLatencies - {f};
      } else {
        assert pendingLatencies - {f} == pendingLatencies;
      }
      var u := Usage(pendingTokens.input, pendingTokens.output, 0, pendingTokens.cache);
      pendingTokens := NoPending;
      r := Some(ToolCall(f, u, duration));
      assert Current() == s.(pending := NoPending, latencies := s.latencies - {f});
    }

    method ParseTokenUsage(ev: Event) returns (r: Option<Parsed>)
      requires Valid()
      modifies this, ledger
      ensures Valid() && Stepped(Current(), r) == TokenUsageEvent(old(Current()), ev)
      ensures telemetryHadEvents == old(telemetryHadEvents)
      ensures ledger.entries == old(ledger.entries) && ledger.Snapshot() == old(ledger.Snapshot())
    {
      ghost var s := Current();
      var v := ev.value;
      var u := AddTyped(Attr(ev, "type"), v);
      DetectModel(Attr(ev, "model"));
      assert Current() == TokenUsageEvent(s, ev).state;
      if v > 0 {
        return Some(SessionUsage(u));
      }
      return None;
    }

    /** The typed accumulation of `_parse_token_usage`: the pending bucket, and the thought total. */
    method AddTyped(t: string, v: int) returns (u: Usage)
      requires Valid()
      modifies this
      ensures Valid() && u == TypedUsage(t, v)
      ensures pendingTokens == AddPending(old(pendingTokens), t, v)
      ensures thoughtsTokens == if t == "thought" then old(thoughtsTokens) + v else old(thoughtsTokens)
      ensures pendingLatencies == old(pendingLatencies) && detectedModel == old(detectedModel)
      ensures modelName == old(modelName) && telemetryHadEvents == old(telemetryHadEvents)
    {
      u := NoUsage;
      if t == "input" {
        pendingTokens := pendingTokens.(input := pendingTokens.input + v);
        u := u.(input := v);
      } else if t == "output" {
        pendingTokens := pendingTokens.(output := pendingTokens.output + v);
        u := u.(output := v);
      } else if t == "thought" {
        pendingTokens := pendingTokens.(thought := pendingTokens.thought + v);
        thoughtsTokens := thoughtsTokens + v;
        u := u.(output := v);
      } else if t == "cache" {
        pendingTokens := pendingTokens.(cache := pendingTokens.cache + v);
        u := u.(cacheRead := v);
      }
    }

    /** The model detection of `_parse_token_usage`: only the first non-empty model is taken. */
    method DetectModel(model: string)
      requires Valid()
      modifies this, ledger
      ensures Valid() && detectedModel == ModelAfter(old(detectedModel), model)
      ensures pendingTokens == old(pendingTokens) && pendingLatencies == old(pendingLatencies)
      ensures thoughtsTokens == old(thoughtsTokens) && telemetryHadEvents == old(telemetryHadEvents)
      ensures ledger.entries == old(ledger.entries) && ledger.Snapshot() == old(ledger.Snapshot())
    {
      if model != "" && !(detectedModel.Some? && detectedModel.value != "") {
        detectedModel := Some(model);
        modelName := DisplayName(model);
        ledger.SetModel(model);
      }
    }

    method ParseToolLatency(ev: Event)
      modifies this
      ensures Current() == ToolLatency(old(Current()), ev)
      ensures modelName == old(modelName) && telemetryHadEvents == old(telemetryHadEvents)
    {
      var f := Attr(ev, "function_name");
      if f != "" {
        pendingLatencies := pendingLatencies[f := ev.value];
      }
    }

    /** `parse_event`. */
    method ParseEvent(line: Line) returns (r: Option<Parsed>)
      requires Valid()
      modifies this, ledger
      ensures Valid() && Stepped(Current(), r) == LineStep(old(Current()), line)
      ensures telemetryHadEvents == old(telemetryHadEvents)
      ensures ledger.entries == old(ledger.entries)
    {
      if IsBlank(line.text) || line.decoded.None? {
        return None;
      }
      var ev := line.decoded.value;
      var m := MetricOf(ev);
      if Contains(m, MetricToolCallCount) {
        r := ParseToolCallCount(ev);
        return;
      }
      if Contains(m, MetricTokenUsage) {
        r := ParseTokenUsage(ev);
        return;
      }
      if Contains(m, MetricToolCallLatency) {
        ParseToolLatency(ev);
        return None;
      }
      return None;
    }

    /** `_process_tool_call`: the sentinel goes to the session totals only, a call to `record_tool_call`. */
    method ProcessToolCall(p: Parsed)
      requires Valid()
      modifies ledger
      ensures Valid()
      ensures ledger.entries == old(ledger.entries) + [EntryOf(p)]
    {
      var u := p.usage;
      if p.SessionUsage? {
        ledger.AddSessionUsage(u.input, u.output, u.cacheCreated, u.cacheRead);
        return;
      }
      ledger.RecordToolCall(p.name, u.input, u.output, u.cacheCreated, u.cacheRead, p.durationMs, None);
    }

    /** One iteration of that loop: a non-blank line is parsed and its result, if any, processed. */
    method HandleLine(line: Line) returns (r: Option<Parsed>)
      requires Valid()
      modifies this, ledger
      ensures Valid() && Stepped(Current(), r) == LineStep(old(Current()), line)
      ensures telemetryHadEvents == (old(telemetryHadEvents) || r.Some?)
      ensures ledger.entries == old(ledger.entries) + (if r.Some? then [EntryOf(r.value)] else [])
    {
      r := None;
      if !IsBlank(line.text) {
        r := ParseEvent(line);
        if r.Some? {
          telemetryHadEvents := true;
          ProcessToolCall(r.value);
        }
      }
    }

    /**
     * The per-line loop of `_process_new_telemetry`: every line is parsed in
     * order and every result is processed; the flag records whether any
     * line produced one.
     */
    method ProcessLines(lines: seq<Line>)
      requires Valid()
      modifies this, ledger
      ensures Valid()
      ensures Current() == RunLines(old(Current()), lines).state
      ensures ledger.entries == old(ledger.entries) + Entries(RunLines(old(Current()), lines).results)
      ensures telemetryHadEvents == (old(telemetryHadEvents) || |RunLines(old(Current()), lines).results| > 0)
    {
      ghost var s0, e0, h0 := Current(), ledger.entries, telemetryHadEvents;
      var i := 0;
      while i < |lines|
        invariant 0 <= i <= |lines|
        invariant Valid()
        invariant Current() == RunLines(s0, lines[..i]).state
        invariant ledger.entries == e0 + Entries(RunLines(s0, lines[..i]).results)
        invariant telemetryHadEvents == (h0 || |RunLines(s0, lines[..i]).results| > 0)
      {
        ghost var before := ledger.entries;
        var r := HandleLine(lines[i]);
        BatchStep(s0, lines, i, e0, before, Current(), r, ledger.entries);
        i := i + 1;
      }
      assert lines[..|lines|] == lines;
    }
  }
}
