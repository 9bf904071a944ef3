# mcp-audit usage accounting, modelled in Dafny

mcp-audit watches an AI coding assistant's session and counts MCP tool calls
and the tokens they use. Each platform adapter turns the assistant's output
(Codex CLI JSONL events, Gemini CLI OpenTelemetry metrics) into tool calls or
session-only token deltas. The shared tracker (`BaseTracker`) files these into
a session ledger and derives the end-of-session report. A terminal display
renders the ledger with a fixed line budget. This project models that
pipeline and proves what its code and tests promise about it.

Modules, in dependency order:

- `Wrappers` (wrappers.dfy) is the `Option` type.
- `Text` (text.dfy) holds Python's whitespace test, prefix and substring tests, and integer-to-text conversion with its round trip.
- `Ordering` (ordering.dfy) is a stable insertion sort by an integer key, top-N selection and filtering by key. Python's `list.sort` and `sorted` are stable, and the model keeps that.
- `Naming` (naming.dfy) is `normalize_server_name` and `normalize_tool_name`.
- `Ledger` (ledger.dfy) is the session ledger as pure values: token usage, per-tool `ToolStats`, per-server sessions and content-hash buckets. `Replay` folds a log of inputs into that ledger, and the lemmas relate the ledger to the recorded calls.
- `Analysis` (analysis.dfy) holds the finalize-time analysers: the MCP summary, redundancy, anomalies and cache classification.
- `Tracking` (tracker.dfy) is `BaseTracker` as a class whose fields are updated in place. Its ghost log of inputs makes every `Ledger` lemma a statement about its fields.
- `Codex` (codex.dfy) is the Codex CLI event parser and the `CodexAdapter` class.
- `Batches` (batches.dfy) feeds a batch of lines through a stateful parser.
- `Gemini` (gemini.dfy) is the Gemini CLI metric parser with its pending buffers, and the `GeminiAdapter` class.
- `Display` (display.dfy) is the presentation arithmetic of `rich_display.py` and the `RichDisplay` class.

`base_tracker.py` is not part of this model's sources. The tracker is modelled from the assertions of
`tests/test_base_tracker.py` and from how the two adapters call it. Where
those assertions leave a choice open, the model picks one:

- normalization splits at the first `__` after `mcp__`, and strips one trailing `-mcp` from the server segment;
- duration statistics count only calls with a positive duration;
- `avg_duration_ms` is the duration total over all calls of the tool;
- a content-hash bucket holds the calls themselves;
- `most_called` lists the five tools with the most calls;
- the anomaly thresholds are strictly more than 10 calls and strictly more than 500000 average tokens;
- cache classification uses the session's cache totals;
- the top cache creators and readers are the three tools with a positive count;
- a call's `total_tokens` includes its cache creation and cache read tokens (`Ledger.SumTokensIsTotal`);
- redundancy is `None` when no content hash repeats;
- the cache ratio is 0.0 when no cache tokens were created;
- `unique_tools` counts distinct (server, tool) pairs: two servers can file a tool under one normalized name (`Naming.SharedToolName`);
- the cache summary and recommendation are the model's own sentences, one per classification case, each carrying the phrase the tests look for.

A decoded JSON line is a datatype: `Line(text, decoded)`, where `decoded == None` stands for a line that is not valid JSON.

The `"__session__"` sentinel is a tagged variant (`SessionUsage`, `SessionDelta`), not a magic tool name.

Gemini can add a `token.usage` amount to the session totals twice. This holds for a positive input, output or cache amount that a later MCP call picks up from the pending buffer:

1. it is added once at once, through the sentinel path;
2. it is added again when the next MCP call takes it as its own usage, because `record_tool_call` adds a call's tokens to the session as well.

The model keeps this double counting, and `Gemini.TokensCountedTwice` states it. Other amounts reach the session at most once:

- thought amounts are never passed to the call (`Gemini.ThoughtCountedOnce`);
- amounts with no later MCP call stay pending;
- a non-positive amount skips the sentinel and reaches the session only through the call.

## Model

| member | source | states |
|---|---|---|
| Naming.Decompose | tests/test_base_tracker.py:219-257 | an `mcp__` name is `mcp__` + server segment + remainder; the segment has no `__`, and the remainder is empty or starts with `__` |
| Naming.ZenExamples | tests/test_base_tracker.py:219-257 | `mcp__zen__chat` gives server `zen` and keeps its tool name; `mcp__zen-mcp__chat` gives `zen` and `mcp__zen__chat` |
| Naming.BraveSearchExamples | tests/test_base_tracker.py:235-241 | a hyphen inside the server name is kept (`brave-search`), and only a trailing `-mcp` is stripped |
| Naming.NonMcpExample | tests/test_base_tracker.py:259-266 | a name without the `mcp__` prefix has server `unknown` and is kept as the tool name |
| Naming.PlainNameIsCanonical | tests/test_base_tracker.py:219-249 | for any server without `__`, a trailing `_` or a trailing `-mcp`, `mcp__<server>__<tool>` normalizes to that server and to itself |
| Naming.AliasCollapses | tests/test_base_tracker.py:227-257 | for any such server, `mcp__<server>-mcp__<tool>` normalizes to `<server>` and to `mcp__<server>__<tool>` |
| Naming.SharedToolName | tests/test_base_tracker.py:219-257 | `mcp__a_-mcp__b` and `mcp__a___b` normalize to the same tool name `mcp__a___b` but to the different servers `a_` and `a` |
| Naming.NormalizeIdempotent | tests/test_base_tracker.py:243-257 | normalizing a normalized tool name changes nothing, and it keeps the server |
| Ledger.AddUsage | tests/test_base_tracker.py:277-294 | adding a usage grows each of the four session counters by its field and the total by their sum; it keeps total consistent; the efficiency is read/(input+created+read) when that base is positive and is otherwise unchanged |
| Ledger.EfficiencyInRange | tests/test_base_tracker.py:390-406 | with non-negative counters and a positive base, `cache_efficiency` lies in [0, 1] |
| Ledger.StatsCounts | tests/test_base_tracker.py:317-330 | a tool's `calls`, `call_history` and `total_tokens` are the count, the list and the token sum of its calls, and `avg_tokens` is total/calls |
| Ledger.StatsCacheCounts | tests/test_base_tracker.py:702-724 | a tool's cache-created and cache-read sums are those of its calls |
| Ledger.StatsDurations | tests/test_base_tracker.py:344-377 | duration total, min and max are the sum and extremes of the positive durations; avg is total/calls; all four are unset while no call had a duration |
| Ledger.AddCallDurations | tests/test_base_tracker.py:358-377 | filing one call keeps the duration fields those of the positive durations so far |
| Ledger.MinMaxBound | tests/test_base_tracker.py:374-377 | the minimum and maximum of the durations are among them and bound all of them |
| Ledger.ServerCounts | tests/test_base_tracker.py:296-303 | a server session carries its own name, its call count and its token sum |
| Ledger.ServerTools | tests/test_base_tracker.py:305-342 | a server has a tool entry exactly for each tool among its calls, holding the aggregates of that tool's calls |
| Ledger.ToolsRecord | tests/test_base_tracker.py:317-330 | filing a call under its tool keeps every tool entry equal to the aggregates of that tool's calls |
| Ledger.ServerToolOrder | tests/test_base_tracker.py:305-315 | a server's tool order lists each of its tools exactly once |
| Ledger.CallIndices | tests/test_base_tracker.py:651-653 | the recorded calls are numbered 1..N in order across servers, and N is the call count |
| Ledger.ReplayRecorded | tests/test_base_tracker.py:277-294 | recording one more call gives the ledger one `record_tool_call` step on the call under the next index |
| Ledger.ReplayDelta | src/mcp_audit/codex_cli_adapter.py:306-325 | a session-only delta changes only the session token usage |
| Ledger.SessionCounts | tests/test_base_tracker.py:277-294 | the four session counters are the sums of every input's usage, calls and deltas alike |
| Ledger.SessionTotalConsistent | tests/test_base_tracker.py:290-294 | the session total always equals input + output + cache created + cache read |
| Ledger.SessionEfficiencyFresh | tests/test_base_tracker.py:390-406 | after any input, `cache_efficiency` is read/(input+created+read) whenever that base is positive |
| Ledger.EntriesSplit | tests/test_base_tracker.py:277-294 | the session counters split into the usage of the recorded calls plus the usage of the session-only deltas |
| Ledger.ServersAreAggregates | tests/test_base_tracker.py:296-342 | the server map has an entry exactly for each server among the calls, and each entry is the session built from that server's calls |
| Ledger.ServersRecord | tests/test_base_tracker.py:296-303 | recording a call keeps the server map that of the calls recorded so far |
| Ledger.ServerOrderListsServers | tests/test_base_tracker.py:655-663 | the server order lists each server of the map exactly once |
| Ledger.BucketsAreHashGroups | tests/test_base_tracker.py:379-388 | a bucket exists exactly for each content hash among the calls, and holds exactly the calls with that hash, in order |
| Ledger.HashOrderListsBuckets | tests/test_base_tracker.py:379-388 | the hash order lists each bucket exactly once |
| Analysis.ReplayWellOrdered | tests/test_base_tracker.py:445-454 | in a replayed ledger every server session carries its own key, and the orders list exactly the servers and tools present |
| Analysis.AllRowsAreTools | tests/test_base_tracker.py:430-443 | the per-tool rows are exactly the (server, tool, stats) entries of the ledger |
| Analysis.Labels | tests/test_base_tracker.py:443 | each `most_called` label is `<tool> (<n> calls)` for its row |
| Analysis.MostCalledLabels | tests/test_base_tracker.py:430-443 | `most_called` has min(5, number of tools) labels, one per selected row |
| Analysis.MostCalledDescending | tests/test_base_tracker.py:430-443 | the selected rows are rows of the ledger, in non-increasing call order |
| Analysis.MostCalledBest | tests/test_base_tracker.py:430-443 | no tool left out of `most_called` has more calls than one listed |
| Analysis.TotalCallsIsCallCount | tests/test_base_tracker.py:430-441 | the summary's total calls, summed over servers, equals the number of recorded calls |
| Analysis.UniqueToolsCount | tests/test_base_tracker.py:625-665 | `unique_tools` of a replayed ledger is the number of distinct (server, tool) pairs among the recorded calls |
| Analysis.UniqueServersCount | tests/test_base_tracker.py:625-665 | `unique_servers` of a replayed ledger is the number of distinct servers among the recorded calls |
| Analysis.DuplicatesAreRepeats | tests/test_base_tracker.py:456-481 | `duplicate_calls` is the number of calls after the first in each bucket, and `potential_savings` sums their tokens |
| Analysis.RedundancyPresent | tests/test_base_tracker.py:456-481 | there are duplicates exactly when some bucket holds more than one call |
| Analysis.DuplicatesOfReplay | tests/test_base_tracker.py:456-481 | `duplicate_calls` equals the number of hashed calls minus the number of distinct hashes |
| Analysis.RowAnomaliesRaise | tests/test_base_tracker.py:483-516 | a tool raises `high_frequency` with its calls exactly when calls > 10, and `high_avg_tokens` with its average exactly when avg > 500000 |
| Analysis.AnomaliesExactly | tests/test_base_tracker.py:483-516 | the anomaly list holds exactly the anomalies some tool raises |
| Analysis.RowAnomaliesOrder | tests/test_base_tracker.py:483-516 | a tool within both thresholds raises nothing; a tool over both lists frequency first |
| Analysis.ClassifyRule | tests/test_base_tracker.py:726-808 | the cache status is neutral iff both are 0; inefficient iff creation > 0 and read/creation < 0.1; efficient iff read/creation >= 0.1 or only reads; no reuse iff creation > 0 and read == 0 |
| Analysis.TopCacheBounded | tests/test_base_tracker.py:810-864 | at most three top creators or readers, each with a positive count, in non-increasing order, and no tool with a positive count left out has more than one listed |
| Analysis.TopCacheBest | tests/test_base_tracker.py:810-864 | a tool with a positive count left out of a top list has no more than any listed entry, and each entry names its row's tool |
| Analysis.TopCacheComplete | tests/test_base_tracker.py:810-864 | while fewer than three are listed, every tool with a positive count is listed |
| Analysis.CacheTexts | tests/test_base_tracker.py:735-808 | no cache activity gives a summary with "No cache activity" and no recommendation; creation without reads gives "no reuse" and a recommendation mentioning batching; a ratio below 0.1 gives "low reuse"; an efficient cache gives "Cache saved" and "efficiently" (the last three case-insensitively) |
| Tracking.BaseTracker.constructor | tests/test_base_tracker.py:197-208 | a new tracker has an empty ledger and no model |
| Tracking.BaseTracker.RecordToolCall | tests/test_base_tracker.py:277-342 | `record_tool_call` appends one call to the log, numbers it, and keeps the fields equal to the replay of the log |
| Tracking.BaseTracker.FileCall | tests/test_base_tracker.py:296-388 | the in-place updates of one call give exactly the ledger step `RecordCall` |
| Tracking.BaseTracker.FileUnderServer | tests/test_base_tracker.py:296-342 | the call is filed under its server, which is created and listed on first use |
| Tracking.BaseTracker.FileUnderHash | tests/test_base_tracker.py:379-388 | a hashed call is appended to its bucket, which is created and listed on first use |
| Tracking.BaseTracker.AddSessionUsage | src/mcp_audit/codex_cli_adapter.py:306-325 | the sentinel path adds the delta to the session totals and leaves servers, buckets and call count unchanged |
| Tracking.BaseTracker.AddedSessionUsage | src/mcp_audit/gemini_cli_adapter.py:413-431 | the field-by-field `+=` and the guarded efficiency update equal the ledger's `AddUsage` |
| Tracking.BaseTracker.SetModel | src/mcp_audit/codex_cli_adapter.py:192 | setting `session.model` leaves the ledger untouched |
| Tracking.BaseTracker.FinalizeSession | tests/test_base_tracker.py:414-516 | the report counts every recorded call; redundancy is absent exactly when no hash repeats; anomalies are exactly those the tools raise |
| Codex.DeltaOf | src/mcp_audit/codex_cli_adapter.py:220-227 | the delta has no cache creation, and its sum is input + output + reasoning output + cached input |
| Codex.ParseTokenCount | src/mcp_audit/codex_cli_adapter.py:196-233 | a result is a session delta with a positive sum and no cache creation; a missing or empty `info` gives none |
| Codex.TokenCountRule | src/mcp_audit/codex_cli_adapter.py:209-233 | `token_count` yields a result exactly when `info` is non-empty and the selected fields sum above 0, and the result is that delta |
| Codex.LastTokenUsageWins | src/mcp_audit/codex_cli_adapter.py:213-215 | a non-empty `last_token_usage` is used whatever `total_token_usage` holds |
| Codex.TotalTokenUsageFallback | src/mcp_audit/codex_cli_adapter.py:213-215 | without a non-empty `last_token_usage`, `total_token_usage` is read as if it were the last usage |
| Codex.TokenCountExample | tests/test_codex_cli_adapter.py:204-217 | input 300, output 150 + reasoning 50, cached 1500 give the delta (300, 200, 0, 1500) |
| Codex.ParseFunctionCall | src/mcp_audit/codex_cli_adapter.py:235-271 | a result exists exactly for names starting with `mcp__`; it keeps the raw name and the call id, has zero tokens, and has `{}` as arguments when they failed to parse |
| Codex.IgnoredLines | src/mcp_audit/codex_cli_adapter.py:146-174 | blank lines, undecodable lines and unknown event types give nothing and leave the model unchanged |
| Codex.TurnContextRule | src/mcp_audit/codex_cli_adapter.py:176-194 | `turn_context` gives nothing; a detected model is kept; otherwise a non-empty payload model becomes the model |
| Codex.FirstModelWins | src/mcp_audit/codex_cli_adapter.py:183-192 | over a stream, no model is detected iff no turn context carries one; otherwise the model is that of the first one that does |
| Codex.CallEntry | src/mcp_audit/codex_cli_adapter.py:327-347 | an MCP call is recorded under its raw name with zero tokens and duration 0, with a content hash exactly when its arguments are non-empty |
| Codex.StreamCallsCarryNoTokens | src/mcp_audit/codex_cli_adapter.py:260-269 | every call a Codex stream records has zero tokens and duration 0 |
| Codex.SessionTokensAreDeltas | src/mcp_audit/codex_cli_adapter.py:306-325 | after a Codex stream, the session counters are exactly the sum of the `token_count` deltas |
| Codex.CodexAdapter.constructor | src/mcp_audit/codex_cli_adapter.py:49-74 | a new adapter has no detected model, has received no events, and has an empty ledger |
| Codex.CodexAdapter.ParseTurnContext | src/mcp_audit/codex_cli_adapter.py:176-194 | the model is set once, with the display name from the table or the raw id; the ledger is unchanged |
| Codex.CodexAdapter.ParseEvent | src/mcp_audit/codex_cli_adapter.py:130-174 | `parse_event` returns the dispatch result of the line and only updates the model |
| Codex.CodexAdapter.ProcessToolCall | src/mcp_audit/codex_cli_adapter.py:291-347 | the sentinel goes to the session totals and a call goes to `record_tool_call`, as one new ledger input |
| Codex.CodexAdapter.HandleLine | src/mcp_audit/codex_cli_adapter.py:113-119 | the loop body parses the line, sets the received-events flag exactly on a result, and records what the line yields |
| Gemini.ToolCallCount | src/mcp_audit/gemini_cli_adapter.py:270-302 | a result exists exactly for `tool_type == "mcp"` and an `mcp__` name; it carries the pending input, output and cache (as cache read) and the popped latency (0 if absent); the pending counters are then reset |
| Gemini.TokenUsageEvent | src/mcp_audit/gemini_cli_adapter.py:304-354 | a session delta of the typed amount is returned exactly when value > 0; latencies are untouched; the model is set only on first sight |
| Gemini.TokenTypes | src/mcp_audit/gemini_cli_adapter.py:327-340 | input, output and cache add to their pending counter; `thought` adds to pending thought and to `thoughts_tokens`; an unknown type changes nothing |
| Gemini.ToolLatency | src/mcp_audit/gemini_cli_adapter.py:356-367 | a latency is stored under a non-empty function name, and an empty name changes nothing |
| Gemini.LatestLatencyWins | src/mcp_audit/gemini_cli_adapter.py:294 | of two latencies for one function the later is the call's duration, and the entry is removed |
| Gemini.MissingLatencyIsZero | src/mcp_audit/gemini_cli_adapter.py:294 | a call with no stored latency has duration 0 |
| Gemini.QuietMetrics | src/mcp_audit/gemini_cli_adapter.py:245-250 | latency and unknown metrics return nothing, and unknown metrics change no state |
| Gemini.CountBeforeUsage | src/mcp_audit/gemini_cli_adapter.py:236-243 | a metric name containing both names is handled as a tool-call count |
| Gemini.TokensCountedTwice | src/mcp_audit/gemini_cli_adapter.py:289-297 | an input token amount followed by an MCP call adds twice that amount to the session input |
| Gemini.ThoughtCountedOnce | src/mcp_audit/gemini_cli_adapter.py:286-354 | a positive thought amount followed by an MCP call adds that amount once to the session output and leaves session input and cache read unchanged |
| Gemini.ThoughtsAccumulate | src/mcp_audit/gemini_cli_adapter.py:333-335 | after a batch, `thoughts_tokens` has grown by the sum of the thought amounts of its lines |
| Gemini.HadEventsIffSomeLine | src/mcp_audit/gemini_cli_adapter.py:384-391 | a batch produced events exactly when some line, in the state before it, returned a result |
| Batches.ResultsIffSomeLine | src/mcp_audit/gemini_cli_adapter.py:384-391 | a stateful per-line loop returns some result exactly when some line returns one |
| Gemini.GeminiAdapter.constructor | src/mcp_audit/gemini_cli_adapter.py:84-110 | a new adapter has empty pending buffers, no detected model, no events and an empty ledger |
| Gemini.GeminiAdapter.ParseToolCallCount | src/mcp_audit/gemini_cli_adapter.py:270-302 | the in-place pop and reset give exactly the step `ToolCallCount` |
| Gemini.GeminiAdapter.ParseTokenUsage | src/mcp_audit/gemini_cli_adapter.py:304-354 | the in-place updates give exactly the step `TokenUsageEvent`, and the ledger is unchanged |
| Gemini.GeminiAdapter.AddTyped | src/mcp_audit/gemini_cli_adapter.py:317-340 | the typed `+=` updates the pending counters and `thoughts_tokens` as `AddPending` says and returns the typed usage |
| Gemini.GeminiAdapter.DetectModel | src/mcp_audit/gemini_cli_adapter.py:342-349 | the model and its display name are set only when none is detected yet |
| Gemini.GeminiAdapter.ParseToolLatency | src/mcp_audit/gemini_cli_adapter.py:356-367 | the in-place store gives exactly the step `ToolLatency` |
| Gemini.GeminiAdapter.ParseEvent | src/mcp_audit/gemini_cli_adapter.py:219-254 | `parse_event` is the dispatch step of the line, and the ledger log is unchanged |
| Gemini.GeminiAdapter.ProcessToolCall | src/mcp_audit/gemini_cli_adapter.py:397-454 | the sentinel goes to the session totals and a call goes to `record_tool_call` without a hash, as one ledger input |
| Gemini.GeminiAdapter.HandleLine | src/mcp_audit/gemini_cli_adapter.py:385-391 | one line is stepped; the events flag is set exactly on a result; that result is recorded |
| Gemini.GeminiAdapter.ProcessLines | src/mcp_audit/gemini_cli_adapter.py:383-391 | after a batch the state is that of the batch step, every result was recorded in order, and the flag says whether there was one |
| Display.RoundedThousands | src/mcp_audit/display/rich_display.py:347-348 | the K figure is the integer nearest to tokens/1000, ties to even |
| Display.NearestThousandsUnique | src/mcp_audit/display/rich_display.py:347-348 | that nearest figure is unique |
| Display.FormatTokens | src/mcp_audit/display/rich_display.py:343-350 | plain exactly below 1000 (the value itself), K exactly in 1000..999999 (nearest thousands, 1..1000), M exactly from 1000000 |
| Display.KiloLabelReachesThousand | src/mcp_audit/display/rich_display.py:347-348 | 999500 and 999999 tokens render as `1000K` |
| Display.FormatTokensCorrected | src/mcp_audit/display/rich_display.py:343-350 | as intended: K exactly in 1000..999499 with a figure in 1..999, M from 999500 |
| Display.CorrectedAgreesBelow | src/mcp_audit/display/rich_display.py:343-350 | the corrected label equals the written one below 999500 |
| Display.Trunc | src/mcp_audit/display/rich_display.py:405 | `int(seconds)` truncates toward zero |
| Display.Clock | src/mcp_audit/display/rich_display.py:405-406 | hours, minutes and seconds recombine to the total, with minutes and seconds in 0..59 |
| Display.ClockUnique | src/mcp_audit/display/rich_display.py:405-406 | that split is the only one with minutes and seconds in 0..59 |
| Display.Pad2RoundTrip | src/mcp_audit/display/rich_display.py:407 | a `:02d` field reads back as its number and is two characters wide for 0..99 |
| Display.FormatDurationRoundTrip | src/mcp_audit/display/rich_display.py:403-407 | `HH:MM:SS` has its colons in place, and its three fields read back to the truncated seconds |
| Display.HumanParts | src/mcp_audit/display/rich_display.py:409-431 | below 60 s one seconds part; otherwise the non-omitted h/m/s parts of the clock split, in descending units, first and last non-zero; the parts always denote the truncated seconds |
| Display.ClockParts | src/mcp_audit/display/rich_display.py:417-431 | the branch table keeps exactly the parts it shows, in unit order, each equal to its clock field, and they add up to the total |
| Display.HumanExamplesShort | src/mcp_audit/display/rich_display.py:412-415 | 5 s gives `5s`, 59.9 s gives `59s`, 150 s gives `2m 30s` |
| Display.HumanExampleHour | src/mcp_audit/display/rich_display.py:425-426 | 3600 s gives `1h` |
| Display.HumanExampleHourMinutes | src/mcp_audit/display/rich_display.py:423-424 | 4500 s gives `1h 15m` |
| Display.HumanExampleFull | src/mcp_audit/display/rich_display.py:421-422 | 9015 s gives `2h 30m 15s` |
| Display.HumanExampleZeroMinutes | src/mcp_audit/display/rich_display.py:420-422 | 3605 s gives `1h 0m 5s`: with seconds shown, zero minutes are shown too |
| Display.HintFollowsClassification | src/mcp_audit/display/rich_display.py:352-372 | each hint corresponds exactly to one cache classification reason: no reuse, low reuse, creation > savings, no activity, and none |
| Display.LowReuseHintRule | src/mcp_audit/display/rich_display.py:363-366 | the low-reuse hint is given exactly when both are positive and read*10 < created |
| Display.RatioBelowTenth | src/mcp_audit/display/rich_display.py:364-365 | for positive creation, read/created < 0.1 exactly when read*10 < created |
| Display.FlattenCounts | src/mcp_audit/display/rich_display.py:246-248 | the flat list has one header per server and one line per tool |
| Display.TotalToolsSorted | src/mcp_audit/display/rich_display.py:257-260 | sorting the servers keeps their number and the total tool count |
| Display.PinnedFirst | src/mcp_audit/display/rich_display.py:256-260 | with pins, the order is the pinned servers then the others, each group in its original order, and a permutation of the list |
| Display.WalkEndsAtShownCount | src/mcp_audit/display/rich_display.py:263-310 | the loop stops exactly at the budget point of the flat list, and `truncated` says whether anything is left |
| Display.HeaderHasRoom | src/mcp_audit/display/rich_display.py:266-270 | a shown server header uses at most line 8, so a tool line fits under it |
| Display.RemainingAreHeldBack | src/mcp_audit/display/rich_display.py:312-315 | total minus shown servers and tools are exactly the servers and tools not shown |
| Display.ShowTools | src/mcp_audit/display/rich_display.py:291-307 | the tool loop keeps lines used == servers shown + tools shown within the budget, and stops only at the budget |
| Display.ShowServer | src/mcp_audit/display/rich_display.py:263-310 | one server iteration emits a header only with two lines left, then its tools, keeping the counts and the budget |
| Display.WalkServers | src/mcp_audit/display/rich_display.py:262-310 | the lines shown are the budgeted prefix of the flat list; `truncated` iff something was skipped; the counters count them |
| Display.TopServers | src/mcp_audit/display/rich_display.py:499-504 | min(3, n) servers, in non-increasing token order, drawn from the hierarchy, with no unselected server above a selected one |
| Display.TopSummary | src/mcp_audit/display/rich_display.py:494-505 | the top line appears exactly when there are calls and servers, one `name(calls)` label per top server |
| Display.LastN | src/mcp_audit/display/rich_display.py:45 | the window is the last min(5, n) events |
| Display.LastNAppend | src/mcp_audit/display/rich_display.py:77-79 | appending to a full window drops its oldest event |
| Display.RichDisplay.constructor | src/mcp_audit/display/rich_display.py:32-47 | the pinned set is the set of the given names, and the feed is empty |
| Display.RichDisplay.OnEvent | src/mcp_audit/display/rich_display.py:77-79 | the feed stays the last five events of the history, in arrival order |
| Display.RichDisplay.BuildTools | src/mcp_audit/display/rich_display.py:236-335 | no servers gives the placeholder; otherwise the budgeted prefix of the pinned-first flat list, lines used == servers + tools <= 9, truncated iff cut, the note from the remainders, and token columns iff the server tokens sum above 0 |
| Ordering.SortBy | src/mcp_audit/display/rich_display.py:257-260 | the sort result is a permutation of its input, ordered by the key |
| Ordering.SortByStable | src/mcp_audit/display/rich_display.py:259-260 | the sort keeps the original order of the elements that share a key |
| Ordering.TopByFacts | src/mcp_audit/display/rich_display.py:501-503 | taking the first n after a descending sort gives min(n, |s|) elements, in descending key order, drawn from s, and dominating the rest |
| Text.IntToStringRoundTrip | tests/test_base_tracker.py:443 | the decimal text of a count reads back as that count |

## Left out

- Process and file I/O is not modelled: the Codex `subprocess` loop and the Gemini file tailing, seeking and polling. Each adapter's per-line loop body is modelled over given lines.
- Configuration discovery from environment variables and `settings.json` is not modelled.
- JSON text is not modelled. A line is already decoded, and a decode failure is `decoded == None`.
- Only well-typed object events are modelled: an absent field takes its `.get` default, but neither adapter's null or ill-typed fields are. A `payload: null`, a JSON value that is not an object, a null function name or a null or non-integer counter makes the source raise `AttributeError` or `TypeError`. The Codex handler catches only `JSONDecodeError`, `KeyError` and `ValueError`, and the Gemini handler only `JSONDecodeError` and `KeyError`, so the error ends the read loop. The model has no such events.
- Codex tool arguments are an already-decoded map, with `{}` for arguments that failed to parse.
- `compute_content_hash` is a function parameter of the Codex model.
- Analysis.CacheTexts: the wording of the cache summary and recommendation is not part of this model's sources. The model's sentences are its own; only the phrases the tests assert are promised, and the net savings figure is not rendered into them.
- Pricing, `PricingConfig`, costs, exchange rates and `net_savings` arithmetic are left out. The net savings value is passed through unchanged.
- `save_session`, the schema header, session ids and timestamps are left out because they are file I/O and clock reads.
- Warnings (`handle_unrecognized_line`) are not modelled because they change no state.
- Rich rendering is left out: `Live`, panels, styles, the pin marker, average and percentage columns, `_build_tokens`, and the rest of the final summary.
- Display.FormatTokens: the M label is the token count itself, because the one-decimal float formatting of `tokens / 1_000_000` is Python float formatting. The K label's rounding is modelled exactly as half-even rounding to an integer. That is exact here because every tie `x.5` is a representable float.
- The feed's timestamps are opaque integers. Local-time conversion is left out.
- `platform_data` is not modelled. That covers the Codex model metadata, Gemini `success`, `decision` and the per-call thought tokens.
- The float `cache_efficiency` and `avg_tokens` are exact reals, and Python float rounding is not modelled.
- Token counts and durations are unbounded integers. Gemini's `int(value)` on latencies is modelled by taking integer metric values.
- `pinned_servers=None` is modelled as an empty list, which gives an empty pin set, as in the source.
- Gemini's `thoughts_tokens` is modelled as state, and its use in `get_platform_metadata` is left out.
- Object aliasing between the adapters and the tracker is not modelled. Each adapter owns its tracker through a `const` field.

## Findings

| source | as written | input that shows it | evidently intended | confidence | as-written member | corrected member |
|---|---|---|---|---|---|---|
| src/mcp_audit/display/rich_display.py:345-348 | the M suffix starts at 1000000 tokens, but `.0f` rounds 999500..999999 tokens / 1000 up to 1000, so they render as `1000K` | 999500 tokens renders `1000K` | switch to the M suffix once the rounded K figure would reach 1000, so K figures stay within 1..999 | not executed | Display.KiloLabelReachesThousand | Display.FormatTokensCorrected |
