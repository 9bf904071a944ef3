/**
 * The Codex CLI adapter (`CodexCLIAdapter`): it reads JSONL events from the
 * CLI's output, detects the model from the first `turn_context`, turns each
 * `token_count` into a session-only delta and each `mcp__` function call
 * into a recorded tool call with no tokens of its own.
 *
 * Events arrive already decoded: a line carries its text and, when that text
 * is valid JSON, the decoded event. Only well-typed object events are
 * modelled: an absent string field is "", an absent object is the empty map
 * and an absent counter is 0, which is how the adapter's
 * `.get(key, default)` reads a missing key.
 */
module Codex {
  import opened Wrappers
  import opened Text
  import opened Ledger
  import Naming
  import Tracking

  /** Decoded tool arguments; each value is kept as its JSON text. */
  type Params = map<string, string>

  const UnknownModel := "Unknown Model"

  /** `MODEL_DISPLAY_NAMES`: human-readable names of the OpenAI models. */
  const DisplayNames: map<string, string> := map[
    "gpt-5.1" := "GPT-5.1",
    "gpt-5-mini" := "GPT-5 Mini",
    "gpt-5-nano" := "GPT-5 Nano",
    "gpt-5-pro" := "GPT-5 Pro",
    "gpt-4.1" := "GPT-4.1",
    "gpt-4.1-mini" := "GPT-4.1 Mini",
    "gpt-4.1-nano" := "GPT-4.1 Nano",
    "o4-mini" := "O4 Mini",
    "o3-mini" := "O3 Mini",
    "o1-preview" := "O1 Preview",
    "o1-mini" := "O1 Mini",
    "gpt-4o" := "GPT-4o",
    "gpt-4o-mini" := "GPT-4o Mini"
  ]

  function DisplayName(id: string): string {
    if id in DisplayNames then DisplayNames[id] else id
  }

  /**
   * An event payload. `kind` is `payload.type`; `info` maps
   * `last_token_usage` / `total_token_usage` to their counters; `arguments`
   * is the decoded `arguments` object, or None when that text is not valid
   * JSON (an absent `arguments` decodes as `"{}"`, the empty map).
   */
  datatype Payload = Payload(kind: string, model: string, info: map<string, map<string, int>>,
                             name: string, arguments: Option<Params>, callId: Option<string>)

  datatype Event = Event(eventType: string, payload: Payload)

  /** One output line and, when its text is valid JSON, its decoded event. */
  datatype Line = Line(text: string, decoded: Option<Event>)

  /** What `parse_event` returns: the `"__session__"` sentinel with a delta, or an MCP call. */
  datatype Parsed =
    | SessionUsage(usage: Usage)
    | ToolCall(name: string, usage: Usage, params: Params, callId: Option<string>)

  // ---------------------------------------------------------------- pure parsers

  function Field(counters: map<string, int>, key: string): int {
    if key in counters then counters[key] else 0
  }

  /** `last_token_usage` when it is non-empty, else `total_token_usage`, else nothing. */
  function SelectedUsage(info: map<string, map<string, int>>): map<string, int> {
    if "last_token_usage" in info && info["last_token_usage"] != map[] then info["last_token_usage"]
    else if "total_token_usage" in info then info["total_token_usage"]
    else map[]
  }

  /** Codex's counters as a delta: reasoning output counts as output, cached input as cache read. */
  function DeltaOf(counters: map<string, int>): (u: Usage)
    ensures u.cacheCreated == 0
    ensures u.Total() == Field(counters, "input_tokens") + Field(counters, "output_tokens")
                         + Field(counters, "reasoning_output_tokens") + Field(counters, "cached_input_tokens")
  {
    Usage(Field(counters, "input_tokens"),
          Field(counters, "output_tokens") + Field(counters, "reasoning_output_tokens"),
          0,
          Field(counters, "cached_input_tokens"))
  }

  /** `_parse_token_count`. */
  function ParseTokenCount(p: Payload): (r: Option<Parsed>)
    ensures r.Some? ==> r.value.SessionUsage? && r.value.usage.cacheCreated == 0 && r.value.usage.Total() > 0
    ensures p.info == map[] ==> r.None?
  {
    if p.info == map[] then None
    else
      var counters := SelectedUsage(p.info);
      if counters == map[] then None
      else
        var u := DeltaOf(counters);
        if u.Total() > 0 then Some(SessionUsage(u)) else None
  }

  /** `_parse_function_call`: only `mcp__` names, unnormalized and with no tokens. */
  function ParseFunctionCall(p: Payload): (r: Option<Parsed>)
    ensures r.Some? <==> StartsWith(p.name, Naming.McpPrefix)
    ensures r.Some? ==> r.value.ToolCall? && r.value.name == p.name && r.value.usage == NoUsage
    ensures r.Some? ==> r.value.callId == p.callId
    ensures r.Some? ==> r.value.params == p.arguments.GetOr(map[])
  {
    if !StartsWith(p.name, Naming.McpPrefix) then None
    else Some(ToolCall(p.name, NoUsage, p.arguments.GetOr(map[]), p.callId))
  }

  /** What `parse_event` returns for a line; it does not depend on the adapter's state. */
  function Result(line: Line): Option<Parsed> {
    if IsBlank(line.text) || line.decoded.None? then None
    else
      var ev := line.decoded.value;
      if ev.eventType == "turn_context" then None
      else if ev.eventType == "event_msg" && ev.payload.kind == "token_count" then ParseTokenCount(ev.payload)
      else if ev.eventType == "response_item" && ev.payload.kind == "function_call" then ParseFunctionCall(ev.payload)
      else None
  }

  /** `_parse_turn_context`: the first non-empty model wins. */
  function TurnModel(d: Option<string>, p: Payload): Option<string> {
    if Tracking.Detected(d) || p.model == "" then d else Some(p.model)
  }

  /** A line that carries a model (a non-empty `turn_context` model). */
  predicate CarriesModel(line: Line) {
    !IsBlank(line.text) && line.decoded.Some? && line.decoded.value.eventType == "turn_context"
    && line.decoded.value.payload.model != ""
  }

  function LineModel(line: Line): string
    requires line.decoded.Some?
  {
    line.decoded.value.payload.model
  }

  /** The detected model after `parse_event` saw the line. */
  function ModelAfter(d: Option<string>, line: Line): Option<string> {
    if IsBlank(line.text) || line.decoded.None? || line.decoded.value.eventType != "turn_context" then d
    else TurnModel(d, line.decoded.value.payload)
  }

  function ModelsAfter(d: Option<string>, lines: seq<Line>): Option<string> {
    if |lines| == 0 then d else ModelAfter(ModelsAfter(d, lines[..|lines| - 1]), lines[|lines| - 1])
  }

  /** The ledger input of a parsed event, with `hash` standing for `compute_content_hash`. */
  function EntryOf(p: Parsed, hash: Params -> string): Entry {
    match p
    case SessionUsage(u) => SessionDelta(u)
    case ToolCall(name, u, params, _) => Recorded(name, u, 0, if params != map[] then Some(hash(params)) else None)
  }

  /** The ledger inputs one line produces. */
  function LineEntries(line: Line, hash: Params -> string): seq<Entry> {
    if Result(line).Some? then [EntryOf(Result(line).value, hash)] else []
  }

  function LinesEntries(lines: seq<Line>, hash: Params -> string): seq<Entry> {
    if |lines| == 0 then [] else LinesEntries(lines[..|lines| - 1], hash) + LineEntries(lines[|lines| - 1], hash)
  }

  // ---------------------------------------------------------------- properties

  /** A blank or undecodable line, and an unknown event type, yield nothing and leave the model alone. */
  lemma IgnoredLines(d: Option<string>, line: Line)
    requires IsBlank(line.text) || line.decoded.None?
             || line.decoded.value.eventType !in {"turn_context", "event_msg", "response_item"}
    ensures Result(line).None? && ModelAfter(d, line) == d
  {
  }

  /** `turn_context` returns nothing; it sets the model only when none is detected yet. */
  lemma TurnContextRule(d: Option<string>, line: Line)
    requires !IsBlank(line.text) && line.decoded.Some? && line.decoded.value.eventType == "turn_context"
    ensures Result(line).None?
    ensures Tracking.Detected(d) ==> ModelAfter(d, line) == d
    ensures !Tracking.Detected(d) && CarriesModel(line) ==> ModelAfter(d, line) == Some(LineModel(line))
  {
  }

  /** A non-empty `last_token_usage` decides the delta; `total_token_usage` is then ignored. */
  lemma LastTokenUsageWins(p: Payload, total: map<string, int>)
    requires "last_token_usage" in p.info && p.info["last_token_usage"] != map[]
    ensures ParseTokenCount(p.(info := p.info["total_token_usage" := total])) == ParseTokenCount(p)
  {
    var q := p.(info := p.info["total_token_usage" := total]);
    assert q.info["last_token_usage"] == p.info["last_token_usage"];
  }

  /** Without a non-empty `last_token_usage`, `total_token_usage` is read as if it were the delta. */
  lemma TotalTokenUsageFallback(p: Payload)
    requires "last_token_usage" !in p.info || p.info["last_token_usage"] == map[]
    requires "total_token_usage" in p.info
    ensures ParseTokenCount(p) == ParseTokenCount(p.(info := map["last_token_usage" := p.info["total_token_usage"]]))
  {
    var q := p.(info := map["last_token_usage" := p.info["total_token_usage"]]);
    assert SelectedUsage(q.info) == SelectedUsage(p.info);
  }

  /** A `token_count` event yields a delta exactly when the selected counters are present and sum to more than 0. */
  lemma TokenCountRule(p: Payload)
    ensures ParseTokenCount(p).Some? <==> p.info != map[] && DeltaOf(SelectedUsage(p.info)).Total() > 0
    ensures ParseTokenCount(p).Some? ==> ParseTokenCount(p).value.usage == DeltaOf(SelectedUsage(p.info))
  {
  }

  /** The delta of the sample `token_count` event: 300 in, 150 + 50 out, 1500 cached. */
  lemma TokenCountExample()
    ensures ParseTokenCount(Payload("token_count", "", map["last_token_usage" := map["input_tokens" := 300,
              "output_tokens" := 150, "reasoning_output_tokens" := 50, "cached_input_tokens" := 1500]],
              "", None, None))
         == Some(SessionUsage(Usage(300, 200, 0, 1500)))
  {
    var c := map["input_tokens" := 300, "output_tokens" := 150, "reasoning_output_tokens" := 50, "cached_input_tokens" := 1500];
    assert SelectedUsage(map["last_token_usage" := c]) == c;
    assert Field(c, "input_tokens") == 300;
    assert Field(c, "output_tokens") == 150;
    assert Field(c, "reasoning_output_tokens") == 50;
    assert Field(c, "cached_input_tokens") == 1500;
  }

  /**
   * A Codex call is recorded under its raw name with no tokens and duration
   * 0; it carries a content hash exactly when its arguments are non-empty.
   */
  lemma CallEntry(p: Payload, hash: Params -> string)
    requires ParseFunctionCall(p).Some?
    ensures EntryOf(ParseFunctionCall(p).value, hash).Recorded?
    ensures EntryOf(ParseFunctionCall(p).value, hash).tool == p.name
    ensures EntryOf(ParseFunctionCall(p).value, hash).usage == NoUsage
    ensures EntryOf(ParseFunctionCall(p).value, hash).durationMs == 0
    ensures EntryOf(ParseFunctionCall(p).value, hash).contentHash.Some? <==> p.arguments.Some? && p.arguments.value != map[]
  {
  }

  /** Every call a Codex stream records carries no tokens. */
  lemma {:induction false} StreamCallsCarryNoTokens(lines: seq<Line>, hash: Params -> string)
    ensures forall i :: 0 <= i < |LinesEntries(lines, hash)| && LinesEntries(lines, hash)[i].Recorded?
              ==> LinesEntries(lines, hash)[i].usage == NoUsage && LinesEntries(lines, hash)[i].durationMs == 0
  {
    if |lines| > 0 {
      var init, last := lines[..|lines| - 1], lines[|lines| - 1];
      StreamCallsCarryNoTokens(init, hash);
      var es := LinesEntries(lines, hash);
      assert es == LinesEntries(init, hash) + LineEntries(last, hash);
      forall i | 0 <= i < |es| && es[i].Recorded? ensures es[i].usage == NoUsage && es[i].durationMs == 0 {
        if i >= |LinesEntries(init, hash)| {
          var ev := last.decoded.value;
          assert Result(last).Some?;
          assert Result(last) == ParseFunctionCall(ev.payload);
        }
      }
    }
  }

  /**
   * So the session totals of a Codex session are exactly the sum of its
   * `token_count` deltas: tool calls add nothing.
   */
  lemma SessionTokensAreDeltas(lines: seq<Line>, hash: Params -> string)
    ensures Replay(LinesEntries(lines, hash)).tokenUsage.Counts() == DeltasUsage(LinesEntries(lines, hash))
  {
    var es := LinesEntries(lines, hash);
    StreamCallsCarryNoTokens(lines, hash);
    SessionCounts(es);
    EntriesSplit(es);
    NoTokenCalls(es);
  }

  lemma {:induction false} NoTokenCalls(es: seq<Entry>)
    requires forall i :: 0 <= i < |es| && es[i].Recorded? ==> es[i].usage == NoUsage
    ensures CallsUsage(Calls(es)) == NoUsage
  {
    if |es| > 0 {
      NoTokenCalls(es[..|es| - 1]);
      CallsUsageStep(es);
    }
  }

  /**
   * Over a stream, starting with no model, the detected model is the model
   * of the first line that carries one, and none when no line does.
   */
  lemma {:induction false} FirstModelWins(lines: seq<Line>)
    ensures ModelsAfter(None, lines).None? <==> forall i :: 0 <= i < |lines| ==> !CarriesModel(lines[i])
    ensures ModelsAfter(None, lines).Some? ==>
              exists i :: 0 <= i < |lines| && CarriesModel(lines[i]) && ModelsAfter(None, lines).value == LineModel(lines[i])
                          && forall j :: 0 <= j < i ==> !CarriesModel(lines[j])
  {
    if |lines| > 0 {
      var init, last := lines[..|lines| - 1], lines[|lines| - 1];
      FirstModelWins(init);
      var d := ModelsAfter(None, init);
      if d.Some? {
        var i :| 0 <= i < |init| && CarriesModel(init[i]) && d.value == LineModel(init[i])
                 && forall j :: 0 <= j < i ==> !CarriesModel(init[j]);
        assert lines[i] == init[i];
        assert Tracking.Detected(d);
        assert forall j :: 0 <= j < i ==> lines[j] == init[j];
      } else {
        assert forall j :: 0 <= j < |init| ==> lines[j] == init[j];
        if CarriesModel(last) {
          assert ModelsAfter(None, lines) == Some(LineModel(last));
        }
      }
    }
  }

  // ---------------------------------------------------------------- the adapter

  class CodexAdapter {
    var detectedModel: Option<string>
    var modelName: string
    /** `_has_received_events`. */
    var hasReceivedEvents: bool
    /** The shared tracker this adapter extends. */
    const ledger: Tracking.BaseTracker

    /** The ledger replays its inputs, and the display name and `session.model` follow the detected model. */
    ghost predicate Valid()
      reads this, ledger
    {
      ledger.Valid()
      && (detectedModel.None? ==> modelName == UnknownModel && ledger.model.None?)
      && (detectedModel.Some? ==> Tracking.Detected(detectedModel) && modelName == DisplayName(detectedModel.value)
                                  && ledger.model == detectedModel)
    }

    constructor ()
      ensures Valid() && fresh(ledger)
      ensures detectedModel.None? && !hasReceivedEvents && ledger.entries == []
    {
      detectedModel := None;
      modelName := UnknownModel;
      hasReceivedEvents := false;
      ledger := new Tracking.BaseTracker();
    }

    /** `_parse_turn_context`. */
    method ParseTurnContext(p: Payload)
      requires Valid()
      modifies this, ledger
      ensures Valid() && detectedModel == TurnModel(old(detectedModel), p)
      ensures hasReceivedEvents == old(hasReceivedEvents)
      ensures ledger.entries == old(ledger.entries) && ledger.Snapshot() == old(ledger.Snapshot())
    {
      if detectedModel.Some? && detectedModel.value != "" {
        return;
      }
      if p.model != "" {
        detectedModel := Some(p.model);
        modelName := DisplayName(p.model);
        ledger.SetModel(p.model);
      }
    }

    /** `parse_event`: what it returns, and the single state change it can make. */
    method ParseEvent(line: Line) returns (r: Option<Parsed>)
      requires Valid()
      modifies this, ledger
      ensures Valid() && r == Result(line) && detectedModel == ModelAfter(old(detectedModel), line)
      ensures hasReceivedEvents == old(hasReceivedEvents)
      ensures ledger.entries == old(ledger.entries) && ledger.Snapshot() == old(ledger.Snapshot())
    {
      if IsBlank(line.text) || line.decoded.None? {
        return None;
      }
      var ev := line.decoded.value;
      if ev.eventType == "turn_context" {
        ParseTurnContext(ev.payload);
        return None;
      }
      if ev.eventType == "event_msg" && ev.payload.kind == "token_count" {
        return ParseTokenCount(ev.payload);
      }
      if ev.eventType == "response_item" && ev.payload.kind == "function_call" {
        return ParseFunctionCall(ev.payload);
      }
      return None;
    }

    /**
     * `_process_tool_call`: the sentinel adds its delta to the session
     * totals only; a call goes to `record_tool_call` with duration 0 and a
     * content hash when its arguments are non-empty.
     */
    method ProcessToolCall(p: Parsed, hash: Params -> string)
      requires Valid()
      modifies this, ledger
      ensures Valid() && detectedModel == old(detectedModel) && hasReceivedEvents == old(hasReceivedEvents)
      ensures ledger.entries == old(ledger.entries) + [EntryOf(p, hash)]
    {
      var u := p.usage;
      if p.SessionUsage? {
        ledger.AddSessionUsage(u.input, u.output, u.cacheCreated, u.cacheRead);
        return;
      }
      var contentHash := None;
      if p.params != map[] {
        contentHash := Some(hash(p.params));
      }
      ledger.RecordToolCall(p.name, u.input, u.output, u.cacheCreated, u.cacheRead, 0, contentHash);
    }

    /** The body of the output loop: parse the line and process what it yields. */
    method HandleLine(line: Line, hash: Params -> string)
      requires Valid()
      modifies this, ledger
      ensures Valid() && detectedModel == ModelAfter(old(detectedModel), line)
      ensures hasReceivedEvents == (old(hasReceivedEvents) || Result(line).Some?)
      ensures ledger.entries == old(ledger.entries) + LineEntries(line, hash)
    {
      var r := ParseEvent(line);
      if r.Some? {
        hasReceivedEvents := true;
        ProcessToolCall(r.value, hash);
      }
    }
  }
}
