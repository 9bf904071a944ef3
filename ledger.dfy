/**
 * The usage ledger every platform adapter feeds: session-wide token totals,
 * per-server and per-tool aggregates, the ordered call log and the
 * content-hash buckets used to find repeated calls.
 *
 * The ledger is a value here (`LedgerState`); `Replay` folds a log of ledger
 * entries into it, and the lemmas below say what every aggregate of a
 * replayed ledger is in terms of the calls recorded so far. The class in
 * tracker.dfy keeps its fields equal to the replay of the entries it has
 * been given.
 */
module Ledger {
  import opened Wrappers
  import opened Ordering
  import Naming

  /** The four token counts an event or a call reports. */
  datatype Usage = Usage(input: int, output: int, cacheCreated: int, cacheRead: int) {
    function Total(): int {
      input + output + cacheCreated + cacheRead
    }

    function Plus(other: Usage): Usage {
      Usage(input + other.input, output + other.output, cacheCreated + other.cacheCreated, cacheRead + other.cacheRead)
    }
  }

  const NoUsage := Usage(0, 0, 0, 0)

  /** The session's running totals (`token_usage`). */
  datatype TokenUsage = TokenUsage(input: int, output: int, cacheCreated: int, cacheRead: int, total: int, cacheEfficiency: real) {
    function Counts(): Usage {
      Usage(input, output, cacheCreated, cacheRead)
    }

    /** The tokens a cache could have served: `input + cache_created + cache_read`. */
    function CacheBase(): int {
      input + cacheCreated + cacheRead
    }

    /** The total is the sum of the four counters. */
    predicate Consistent() {
      total == input + output + cacheCreated + cacheRead
    }

    /** Whenever the base is positive, `cache_efficiency` is the share of it read from cache. */
    predicate EfficiencyFresh() {
      CacheBase() > 0 ==> cacheEfficiency == cacheRead as real / CacheBase() as real
    }
  }

  const NoTokens := TokenUsage(0, 0, 0, 0, 0, 0.0)

  /**
   * Adds a delta to the session totals: each counter grows by its field, the
   * total by the delta's sum, and `cache_efficiency` is recomputed only when
   * its base is positive (otherwise the old value stays).
   */
  function AddUsage(t: TokenUsage, u: Usage): (r: TokenUsage)
    ensures r.Counts() == t.Counts().Plus(u)
    ensures r.total == t.total + u.Total()
    ensures t.Consistent() ==> r.Consistent()
    ensures r.EfficiencyFresh()
    ensures r.CacheBase() <= 0 ==> r.cacheEfficiency == t.cacheEfficiency
  {
    var n := TokenUsage(t.input + u.input, t.output + u.output, t.cacheCreated + u.cacheCreated,
                        t.cacheRead + u.cacheRead, t.total + u.Total(), t.cacheEfficiency);
    if n.CacheBase() > 0 then n.(cacheEfficiency := n.cacheRead as real / n.CacheBase() as real) else n
  }

  /** With non-negative counters, a fresh `cache_efficiency` lies between 0 and 1. */
  lemma {:induction false} EfficiencyInRange(t: TokenUsage)
    requires t.EfficiencyFresh() && t.CacheBase() > 0
    requires t.input >= 0 && t.cacheCreated >= 0 && t.cacheRead >= 0
    ensures 0.0 <= t.cacheEfficiency <= 1.0
  {
    var base := t.CacheBase() as real;
    assert t.cacheEfficiency * base == t.cacheRead as real;
    assert t.cacheRead as real <= base;
  }

  /** One recorded tool invocation (`Call`); its hash is absent when the caller gave none. */
  datatype Call = Call(index: nat, tool: string, server: string, usage: Usage, durationMs: int, contentHash: Option<string>) {
    function TotalTokens(): int {
      usage.Total()
    }
  }

  function ServerKey(c: Call): string { c.server }
  function ToolKey(c: Call): string { c.tool }
  function HashKey(c: Call): Option<string> { c.contentHash }

  /** The component-wise sum of the calls' usages. */
  function CallsUsage(h: seq<Call>): Usage {
    if |h| == 0 then NoUsage else CallsUsage(h[..|h| - 1]).Plus(h[|h| - 1].usage)
  }

  function SumTokens(h: seq<Call>): int {
    if |h| == 0 then 0 else SumTokens(h[..|h| - 1]) + h[|h| - 1].TotalTokens()
  }

  /** The positive durations of the calls, in call order: the only ones duration statistics see. */
  function Timed(h: seq<Call>): seq<int> {
    if |h| == 0 then [] else Timed(h[..|h| - 1]) + (if h[|h| - 1].durationMs > 0 then [h[|h| - 1].durationMs] else [])
  }

  function SumInts(xs: seq<int>): int {
    if |xs| == 0 then 0 else SumInts(xs[..|xs| - 1]) + xs[|xs| - 1]
  }

  function MinInt(xs: seq<int>): int
    requires |xs| > 0
  {
    if |xs| == 1 then xs[0]
    else
      var m := MinInt(xs[..|xs| - 1]);
      if m <= xs[|xs| - 1] then m else xs[|xs| - 1]
  }

  function MaxInt(xs: seq<int>): int
    requires |xs| > 0
  {
    if |xs| == 1 then xs[0]
    else
      var m := MaxInt(xs[..|xs| - 1]);
      if m >= xs[|xs| - 1] then m else xs[|xs| - 1]
  }

  /** The least and the greatest element are elements and bound all the others. */
  lemma {:induction false} MinMaxBound(xs: seq<int>)
    requires |xs| > 0
    ensures MinInt(xs) in xs && MaxInt(xs) in xs
    ensures forall x :: x in xs ==> MinInt(xs) <= x <= MaxInt(xs)
  {
    if |xs| > 1 {
      var init := xs[..|xs| - 1];
      MinMaxBound(init);
      assert xs == init + [xs[|xs| - 1]];
    }
  }

  /** Per-tool aggregates (`ToolStats`). Duration statistics stay absent until a call reports one. */
  datatype ToolStats = ToolStats(
    calls: nat, totalTokens: int, avgTokens: real, cacheCreated: int, cacheRead: int,
    totalDurationMs: Option<int>, avgDurationMs: Option<real>, minDurationMs: Option<int>, maxDurationMs: Option<int>,
    callHistory: seq<Call>)

  const NoStats := ToolStats(0, 0, 0.0, 0, 0, None, None, None, None, [])

  /** Folds one call into a tool's aggregates. */
  function AddCall(ts: ToolStats, c: Call): ToolStats {
    var calls := ts.calls + 1;
    var tokens := ts.totalTokens + c.TotalTokens();
    var d := c.durationMs;
    var durationTotal := if d > 0 then Some(ts.totalDurationMs.GetOr(0) + d) else ts.totalDurationMs;
    ToolStats(
      calls, tokens, tokens as real / calls as real,
      ts.cacheCreated + c.usage.cacheCreated, ts.cacheRead + c.usage.cacheRead,
      durationTotal,
      if durationTotal.Some? then Some(durationTotal.value as real / calls as real) else None,
      if d <= 0 then ts.minDurationMs
      else if ts.minDurationMs.Some? && ts.minDurationMs.value <= d then ts.minDurationMs else Some(d),
      if d <= 0 then ts.maxDurationMs
      else if ts.maxDurationMs.Some? && ts.maxDurationMs.value >= d then ts.maxDurationMs else Some(d),
      ts.callHistory + [c])
  }

  /** The aggregates of a tool whose calls were `h`, in order. */
  function StatsOf(h: seq<Call>): ToolStats {
    if |h| == 0 then NoStats else AddCall(StatsOf(h[..|h| - 1]), h[|h| - 1])
  }

  /** A tool's count, history, token sum, average and cache sums are those of its calls. */
  lemma {:induction false} StatsCounts(h: seq<Call>)
    ensures StatsOf(h).calls == |h| && StatsOf(h).callHistory == h
    ensures StatsOf(h).totalTokens == SumTokens(h)
    ensures |h| > 0 ==> StatsOf(h).avgTokens == SumTokens(h) as real / |h| as real
    ensures StatsOf(h).cacheCreated == CallsUsage(h).cacheCreated && StatsOf(h).cacheRead == CallsUsage(h).cacheRead
  {
    StatsCallCounts(h);
    StatsTokenCounts(h);
    StatsCacheCounts(h);
  }

  lemma SplitLast<T>(s: seq<T>)
    requires |s| > 0
    ensures s == s[..|s| - 1] + [s[|s| - 1]]
  {
  }

  lemma {:induction false} StatsCallCounts(h: seq<Call>)
    ensures StatsOf(h).calls == |h| && StatsOf(h).callHistory == h
  {
    if |h| > 0 {
      var init := h[..|h| - 1];
      StatsCallCounts(init);
      SplitLast(h);
    }
  }

  lemma {:induction false} StatsTokenCounts(h: seq<Call>)
    ensures StatsOf(h).totalTokens == SumTokens(h)
    ensures |h| > 0 ==> StatsOf(h).avgTokens == SumTokens(h) as real / |h| as real
  {
    if |h| > 0 {
      StatsTokenCounts(h[..|h| - 1]);
      StatsCallCounts(h[..|h| - 1]);
    }
  }

  lemma {:induction false} StatsCacheCounts(h: seq<Call>)
    ensures StatsOf(h).cacheCreated == CallsUsage(h).cacheCreated && StatsOf(h).cacheRead == CallsUsage(h).cacheRead
  {
    if |h| > 0 {
      StatsCacheCounts(h[..|h| - 1]);
    }
  }

  /**
   * A tool's duration statistics are absent when none of its calls reported
   * a positive duration, and otherwise are the total, the average over all
   * its calls, the least and the greatest of those durations.
   */
  ghost predicate DurationsSummarize(h: seq<Call>) {
    DurationsMatch(StatsOf(h), Timed(h), |h|)
  }

  /** Duration fields `ts` summarize the positive durations `t` of `n` calls. */
  ghost predicate DurationsMatch(ts: ToolStats, t: seq<int>, n: nat) {
    if t == [] then
      ts.totalDurationMs == None && ts.avgDurationMs == None && ts.minDurationMs == None && ts.maxDurationMs == None
    else
      n > 0 && ts.totalDurationMs == Some(SumInts(t)) && ts.avgDurationMs == Some(SumInts(t) as real / n as real)
      && ts.minDurationMs == Some(MinInt(t)) && ts.maxDurationMs == Some(MaxInt(t))
  }

  lemma {:induction false} StatsDurations(h: seq<Call>)
    ensures DurationsSummarize(h)
  {
    if |h| > 0 {
      StatsDurations(h[..|h| - 1]);
      StatsDurationsStep(h);
    }
  }

  lemma {:induction false} StatsDurationsStep(h: seq<Call>)
    requires |h| > 0 && DurationsSummarize(h[..|h| - 1])
    ensures DurationsSummarize(h)
  {
    var init, c := h[..|h| - 1], h[|h| - 1];
    var p := StatsOf(init);
    assert StatsOf(h) == AddCall(p, c);
    StatsCounts(init);
    var t := Timed(init);
    assert Timed(h) == t + (if c.durationMs > 0 then [c.durationMs] else []);
    AddCallDurations(p, c, t);
  }

  /** Folding in one call extends the duration summary by its duration when it is positive. */
  lemma {:induction false} AddCallDurations(p: ToolStats, c: Call, t: seq<int>)
    requires DurationsMatch(p, t, p.calls)
    ensures DurationsMatch(AddCall(p, c), t + (if c.durationMs > 0 then [c.durationMs] else []), p.calls + 1)
  {
    var d := c.durationMs;
    if d > 0 {
      var t' := t + [d];
      assert t'[..|t'| - 1] == t && t'[|t'| - 1] == d;
      if t == [] {
        assert t' == [d];
      } else {
        assert SumInts(t') == SumInts(t) + d;
      }
    } else {
      assert t + [] == t;
    }
  }

  /** Tokens always count in full toward a tool: `total_tokens` includes both cache counts. */
  lemma {:induction false} SumTokensIsTotal(h: seq<Call>)
    ensures SumTokens(h) == CallsUsage(h).Total()
  {
    if |h| > 0 {
      SumTokensIsTotal(h[..|h| - 1]);
    }
  }

  /** Per-server aggregates (`ServerSession`); `toolOrder` is the insertion order of `tools`. */
  datatype ServerSession = ServerSession(server: string, totalCalls: nat, totalTokens: int,
                                         tools: map<string, ToolStats>, toolOrder: seq<string>)

  function NewServer(name: string): ServerSession {
    ServerSession(name, 0, 0, map[], [])
  }

  /** Files a call under its tool, creating the tool's aggregates on first use. */
  function AddToServer(ss: ServerSession, c: Call): ServerSession {
    var ts := if c.tool in ss.tools then ss.tools[c.tool] else NoStats;
    ServerSession(ss.server, ss.totalCalls + 1, ss.totalTokens + c.TotalTokens(),
                  ss.tools[c.tool := AddCall(ts, c)],
                  if c.tool in ss.tools then ss.toolOrder else ss.toolOrder + [c.tool])
  }

  /** The session of server `name` after its calls `h`. */
  function ServerOf(name: string, h: seq<Call>): ServerSession {
    if |h| == 0 then NewServer(name) else AddToServer(ServerOf(name, h[..|h| - 1]), h[|h| - 1])
  }

  /** A server's name, call count and token sum are those of its calls. */
  lemma {:induction false} ServerCounts(name: string, h: seq<Call>)
    ensures ServerOf(name, h).server == name
    ensures ServerOf(name, h).totalCalls == |h| && ServerOf(name, h).totalTokens == SumTokens(h)
  {
    if |h| > 0 {
      ServerCounts(name, h[..|h| - 1]);
    }
  }

  /** The tool map holds exactly the tools of the calls `h`, each with the aggregates of its own calls. */
  ghost predicate ToolsOfLog(tools: map<string, ToolStats>, h: seq<Call>) {
    (forall t :: t in tools <==> FilterBy(h, ToolKey, t) != [])
    && (forall t :: t in tools ==> tools[t] == StatsOf(FilterBy(h, ToolKey, t)))
  }

  /**
   * A server has one tool entry exactly for each tool among its calls, each
   * holding the aggregates of that tool's calls.
   */
  lemma {:induction false} ServerTools(name: string, h: seq<Call>)
    ensures ToolsOfLog(ServerOf(name, h).tools, h)
  {
    if |h| > 0 {
      var init, c := h[..|h| - 1], h[|h| - 1];
      ServerTools(name, init);
      var ss := ServerOf(name, init);
      ToolsRecord(ss, init, c);
      SplitLast(h);
      assert ServerOf(name, h) == AddToServer(ss, c);
    }
  }

  /** The aggregates of a history one call longer: the last call joins its own tool's aggregates. */
  lemma {:induction false} StatsOfAppend(f: seq<Call>, c: Call)
    ensures StatsOf(f + [c]) == AddCall(StatsOf(f), c)
  {
    assert (f + [c])[..|f|] == f;
  }

  /** Filing a call under its tool keeps the tool map that of the server's calls so far. */
  lemma {:induction false} ToolsRecord(ss: ServerSession, h: seq<Call>, c: Call)
    requires ToolsOfLog(ss.tools, h)
    ensures ToolsOfLog(AddToServer(ss, c).tools, h + [c])
  {
    var tools := AddToServer(ss, c).tools;
    forall t
      ensures t in tools <==> FilterBy(h + [c], ToolKey, t) != []
      ensures t in tools ==> tools[t] == StatsOf(FilterBy(h + [c], ToolKey, t))
    {
      ToolRecordAt(ss, h, c, t);
    }
  }

  /** The step of `ToolsRecord` for one tool name `t`. */
  lemma {:induction false} ToolRecordAt(ss: ServerSession, h: seq<Call>, c: Call, t: string)
    requires t in ss.tools <==> FilterBy(h, ToolKey, t) != []
    requires t in ss.tools ==> ss.tools[t] == StatsOf(FilterBy(h, ToolKey, t))
    ensures var tools := AddToServer(ss, c).tools; var f := FilterBy(h + [c], ToolKey, t);
      (t in tools <==> f != []) && (t in tools ==> tools[t] == StatsOf(f))
  {
    var f0 := FilterBy(h, ToolKey, t);
    FilterByAppend(h, c, ToolKey, t);
    if t == c.tool {
      StatsOfAppend(f0, c);
      assert t !in ss.tools ==> f0 + [c] == [c];
    } else {
      assert f0 + [] == f0;
    }
  }

  /** A server's tool order lists each of its tools exactly once. */
  lemma {:induction false} ServerToolOrder(name: string, h: seq<Call>)
    ensures Distinct(ServerOf(name, h).toolOrder)
    ensures forall t :: t in ServerOf(name, h).toolOrder <==> t in ServerOf(name, h).tools
  {
    if |h| > 0 {
      ServerToolOrder(name, h[..|h| - 1]);
    }
  }

  /** One ledger input: a tool invocation as the adapters pass it, or a session-only token delta. */
  datatype Entry =
    | Recorded(tool: string, usage: Usage, durationMs: int, contentHash: Option<string>)
    | SessionDelta(delta: Usage)
  {
    function EntryUsage(): Usage {
      match this
      case Recorded(_, u, _, _) => u
      case SessionDelta(u) => u
    }

    /** The usage this entry files under a call (none for a session-only delta). */
    function CallPart(): Usage {
      if Recorded? then usage else NoUsage
    }

    /** The usage this entry adds to the session only (none for a call). */
    function DeltaPart(): Usage {
      if SessionDelta? then delta else NoUsage
    }
  }

  /** The whole ledger; `serverOrder` and `hashOrder` are the insertion orders of the two maps. */
  datatype LedgerState = LedgerState(
    tokenUsage: TokenUsage,
    servers: map<string, ServerSession>, serverOrder: seq<string>,
    contentHashes: map<string, seq<Call>>, hashOrder: seq<string>,
    callCount: nat)

  const EmptyLedger := LedgerState(NoTokens, map[], [], map[], [], 0)

  /** `record_tool_call` builds the call under its normalized names and the next index. */
  function MakeCall(index: nat, tool: string, u: Usage, durationMs: int, contentHash: Option<string>): Call {
    Call(index, Naming.NormalizeToolName(tool), Naming.NormalizeServerName(tool), u, durationMs, contentHash)
  }

  function AddToBuckets(buckets: map<string, seq<Call>>, c: Call): map<string, seq<Call>> {
    match c.contentHash
    case None => buckets
    case Some(k) => buckets[k := (if k in buckets then buckets[k] else []) + [c]]
  }

  /** Files a built call: session totals, its server and tool, its hash bucket, the call count. */
  function RecordCall(st: LedgerState, c: Call): LedgerState {
    var known := c.server in st.servers;
    var ss := if known then st.servers[c.server] else NewServer(c.server);
    LedgerState(
      AddUsage(st.tokenUsage, c.usage),
      st.servers[c.server := AddToServer(ss, c)],
      if known then st.serverOrder else st.serverOrder + [c.server],
      AddToBuckets(st.contentHashes, c),
      if c.contentHash.Some? && c.contentHash.value !in st.contentHashes then st.hashOrder + [c.contentHash.value] else st.hashOrder,
      st.callCount + 1)
  }

  /** One ledger step: `record_tool_call`, or the adapters' session-only path. */
  function Apply(st: LedgerState, e: Entry): LedgerState {
    match e
    case Recorded(tool, u, d, h) => RecordCall(st, MakeCall(st.callCount + 1, tool, u, d, h))
    case SessionDelta(u) => st.(tokenUsage := AddUsage(st.tokenUsage, u))
  }

  /** The ledger after the entries `es`, starting empty. */
  function Replay(es: seq<Entry>): LedgerState {
    if |es| == 0 then EmptyLedger else Apply(Replay(es[..|es| - 1]), es[|es| - 1])
  }

  /** The calls the entries record, numbered from 1 in order. */
  function Calls(es: seq<Entry>): seq<Call> {
    if |es| == 0 then []
    else
      var log := Calls(es[..|es| - 1]);
      var e := es[|es| - 1];
      if e.Recorded? then log + [MakeCall(|log| + 1, e.tool, e.usage, e.durationMs, e.contentHash)] else log
  }

  /** The sum of every entry's usage, calls and session-only deltas alike. */
  function EntriesUsage(es: seq<Entry>): Usage {
    if |es| == 0 then NoUsage else EntriesUsage(es[..|es| - 1]).Plus(es[|es| - 1].EntryUsage())
  }

  /** The sum of the session-only deltas. */
  function DeltasUsage(es: seq<Entry>): Usage {
    if |es| == 0 then NoUsage
    else DeltasUsage(es[..|es| - 1]).Plus(es[|es| - 1].DeltaPart())
  }

  /** Call indices run 1, 2, 3, ... in recording order, and the ledger's call count is their number. */
  lemma {:induction false} CallIndices(es: seq<Entry>)
    ensures Replay(es).callCount == |Calls(es)|
    ensures forall i :: 0 <= i < |Calls(es)| ==> Calls(es)[i].index == i + 1
  {
    if |es| > 0 {
      CallIndices(es[..|es| - 1]);
    }
  }

  /** The calls recorded by one more entry: the log grows by exactly the call it records. */
  lemma {:induction false} CallsAppend(es: seq<Entry>, e: Entry)
    ensures Calls(es + [e]) == Calls(es) + (if e.Recorded? then [MakeCall(|Calls(es)| + 1, e.tool, e.usage, e.durationMs, e.contentHash)] else [])
  {
    assert (es + [e])[..|es|] == es;
  }

  /** Replaying one more entry applies it to the replayed ledger. */
  lemma {:induction false} ReplayAppend(es: seq<Entry>, e: Entry)
    ensures Replay(es + [e]) == Apply(Replay(es), e)
  {
    assert (es + [e])[..|es|] == es;
  }

  /** Replaying one more recorded call files it under the next index. */
  lemma {:induction false} ReplayRecorded(es: seq<Entry>, st: LedgerState, e: Entry, c: Call)
    requires st == Replay(es) && e.Recorded?
    requires c == MakeCall(st.callCount + 1, e.tool, e.usage, e.durationMs, e.contentHash)
    ensures Replay(es + [e]) == RecordCall(st, c)
  {
    ReplayAppend(es, e);
    ApplyRecorded(st, e, c);
  }

  lemma ApplyRecorded(st: LedgerState, e: Entry, c: Call)
    requires e.Recorded? && c == MakeCall(st.callCount + 1, e.tool, e.usage, e.durationMs, e.contentHash)
    ensures Apply(st, e) == RecordCall(st, c)
  {
  }

  /** Every entry adds its usage to the session counters. */
  lemma {:induction false} ReplayDelta(es: seq<Entry>, st: LedgerState, e: Entry)
    requires st == Replay(es) && e.SessionDelta?
    ensures Replay(es + [e]) == st.(tokenUsage := AddUsage(st.tokenUsage, e.delta))
  {
    assert (es + [e])[..|es|] == es;
  }

  lemma {:induction false} ApplyCounts(st: LedgerState, e: Entry)
    ensures Apply(st, e).tokenUsage.Counts() == st.tokenUsage.Counts().Plus(e.EntryUsage())
  {
    if e.Recorded? {
      assert Apply(st, e).tokenUsage == AddUsage(st.tokenUsage, e.usage);
    }
  }

  /** Regrouping a sum of four usages. */
  lemma {:induction false} Regroup(a: Usage, b: Usage, x: Usage, y: Usage)
    ensures a.Plus(b).Plus(x.Plus(y)) == a.Plus(x).Plus(b.Plus(y))
  {
  }

  /** Every session counter is the sum over all entries. */
  lemma {:induction false} SessionCounts(es: seq<Entry>)
    ensures Replay(es).tokenUsage.Counts() == EntriesUsage(es)
  {
    if |es| > 0 {
      var init := es[..|es| - 1];
      var e := es[|es| - 1];
      SessionCounts(init);
      var t := Replay(init).tokenUsage;
      assert EntriesUsage(es) == EntriesUsage(init).Plus(e.EntryUsage());
      if e.Recorded? {
        var c := MakeCall(Replay(init).callCount + 1, e.tool, e.usage, e.durationMs, e.contentHash);
        assert Replay(es).tokenUsage == AddUsage(t, c.usage);
      } else {
        assert Replay(es).tokenUsage == AddUsage(t, e.delta);
      }
    }
  }

  /** The session total stays the sum of the four session counters. */
  lemma {:induction false} SessionTotalConsistent(es: seq<Entry>)
    ensures Replay(es).tokenUsage.Consistent()
  {
    if |es| > 0 {
      var init := es[..|es| - 1];
      var e := es[|es| - 1];
      SessionTotalConsistent(init);
      var t := Replay(init).tokenUsage;
      if e.Recorded? {
        var c := MakeCall(Replay(init).callCount + 1, e.tool, e.usage, e.durationMs, e.contentHash);
        assert Replay(es).tokenUsage == AddUsage(t, c.usage);
      } else {
        assert Replay(es).tokenUsage == AddUsage(t, e.delta);
      }
    }
  }

  /** After any entry, `cache_efficiency` is the cache-read share of the current base (when that is positive). */
  lemma {:induction false} SessionEfficiencyFresh(es: seq<Entry>)
    requires |es| > 0
    ensures Replay(es).tokenUsage.EfficiencyFresh()
  {
    var init := es[..|es| - 1];
    var e := es[|es| - 1];
    var t := Replay(init).tokenUsage;
    if e.Recorded? {
      var c := MakeCall(Replay(init).callCount + 1, e.tool, e.usage, e.durationMs, e.contentHash);
      assert Replay(es).tokenUsage == AddUsage(t, c.usage);
    } else {
      assert Replay(es).tokenUsage == AddUsage(t, e.delta);
    }
  }

  /** The sum over all entries is the sum over the recorded calls plus the session-only deltas. */
  lemma {:induction false} EntriesSplit(es: seq<Entry>)
    ensures EntriesUsage(es) == CallsUsage(Calls(es)).Plus(DeltasUsage(es))
  {
    if |es| > 0 {
      var init, e := es[..|es| - 1], es[|es| - 1];
      EntriesSplit(init);
      CallsUsageStep(es);
      Regroup(CallsUsage(Calls(init)), DeltasUsage(init), e.CallPart(), e.DeltaPart());
    }
  }

  lemma {:induction false} CallsUsageAppend(log: seq<Call>, c: Call)
    ensures CallsUsage(log + [c]) == CallsUsage(log).Plus(c.usage)
  {
    assert (log + [c])[..|log|] == log;
  }

  /** One more entry adds its call part to the usage of the recorded calls. */
  lemma {:induction false} CallsUsageStep(es: seq<Entry>)
    requires |es| > 0
    ensures CallsUsage(Calls(es)) == CallsUsage(Calls(es[..|es| - 1])).Plus(es[|es| - 1].CallPart())
    ensures es[|es| - 1].EntryUsage() == es[|es| - 1].CallPart().Plus(es[|es| - 1].DeltaPart())
  {
    var init, e := es[..|es| - 1], es[|es| - 1];
    var log := Calls(init);
    if e.Recorded? {
      var c := MakeCall(|log| + 1, e.tool, e.usage, e.durationMs, e.contentHash);
      assert Calls(es) == log + [c];
      CallsUsageAppend(log, c);
    } else {
      assert Calls(es) == log;
    }
  }

  /** The server map holds exactly the servers of the calls `log`, each with the aggregates of its own calls. */
  ghost predicate ServersOfLog(servers: map<string, ServerSession>, log: seq<Call>) {
    (forall s :: s in servers <==> FilterBy(log, ServerKey, s) != [])
    && (forall s :: s in servers ==> servers[s] == ServerOf(s, FilterBy(log, ServerKey, s)))
  }

  /** The server map of a replayed ledger is that of its recorded calls. */
  lemma {:induction false} ServersAreAggregates(es: seq<Entry>)
    ensures ServersOfLog(Replay(es).servers, Calls(es))
  {
    if |es| > 0 {
      var init, e := es[..|es| - 1], es[|es| - 1];
      ServersAreAggregates(init);
      CallIndices(init);
      var st := Replay(init);
      if e.Recorded? {
        var c := MakeCall(st.callCount + 1, e.tool, e.usage, e.durationMs, e.contentHash);
        assert Replay(es) == RecordCall(st, c);
        assert Calls(es) == Calls(init) + [c];
        ServersRecord(st, Calls(init), c);
      } else {
        assert Replay(es).servers == st.servers;
        assert Calls(es) == Calls(init);
      }
    }
  }

  lemma {:induction false} ServerOfAppend(name: string, f: seq<Call>, c: Call)
    ensures ServerOf(name, f + [c]) == AddToServer(ServerOf(name, f), c)
  {
    assert (f + [c])[..|f|] == f;
  }

  /** Recording a call keeps the server map that of the calls recorded so far. */
  lemma {:induction false} ServersRecord(st: LedgerState, log: seq<Call>, c: Call)
    requires ServersOfLog(st.servers, log)
    ensures ServersOfLog(RecordCall(st, c).servers, log + [c])
  {
    var servers := RecordCall(st, c).servers;
    forall s
      ensures s in servers <==> FilterBy(log + [c], ServerKey, s) != []
      ensures s in servers ==> servers[s] == ServerOf(s, FilterBy(log + [c], ServerKey, s))
    {
      ServerRecordAt(st, log, c, s);
    }
  }

  /** The step of `ServersRecord` for one server name `s`. */
  lemma {:induction false} ServerRecordAt(st: LedgerState, log: seq<Call>, c: Call, s: string)
    requires s in st.servers <==> FilterBy(log, ServerKey, s) != []
    requires s in st.servers ==> st.servers[s] == ServerOf(s, FilterBy(log, ServerKey, s))
    ensures var servers := RecordCall(st, c).servers; var f := FilterBy(log + [c], ServerKey, s);
      (s in servers <==> f != []) && (s in servers ==> servers[s] == ServerOf(s, f))
  {
    var f0 := FilterBy(log, ServerKey, s);
    var ss := if c.server in st.servers then st.servers[c.server] else NewServer(c.server);
    var servers := RecordCall(st, c).servers;
    assert servers == st.servers[c.server := AddToServer(ss, c)];
    FilterByAppend(log, c, ServerKey, s);
    if s == c.server {
      ServerOfAppend(s, f0, c);
      if s !in st.servers {
        assert f0 == [] && ServerOf(s, f0) == NewServer(s);
      }
      assert ss == ServerOf(s, f0);
    } else {
      assert f0 + [] == f0;
      assert s in servers <==> s in st.servers;
    }
  }

  /** The server order lists each server of the map exactly once. */
  lemma {:induction false} ServerOrderListsServers(es: seq<Entry>)
    ensures Distinct(Replay(es).serverOrder)
    ensures forall s :: s in Replay(es).serverOrder <==> s in Replay(es).servers
  {
    if |es| > 0 {
      ServerOrderListsServers(es[..|es| - 1]);
    }
  }

  /** Each content-hash bucket holds exactly the calls carrying that hash, in order. */
  ghost predicate BucketsGroup(es: seq<Entry>) {
    var buckets := Replay(es).contentHashes;
    var log := Calls(es);
    (forall k :: k in buckets <==> FilterBy(log, HashKey, Some(k)) != [])
    && (forall k :: k in buckets ==> buckets[k] == FilterBy(log, HashKey, Some(k)))
  }

  lemma {:induction false} BucketsAreHashGroups(es: seq<Entry>)
    ensures BucketsGroup(es)
  {
    if |es| > 0 {
      BucketsAreHashGroups(es[..|es| - 1]);
      BucketsStep(es);
    }
  }

  lemma {:induction false} BucketsStep(es: seq<Entry>)
    requires |es| > 0 && BucketsGroup(es[..|es| - 1])
    ensures BucketsGroup(es)
  {
    var init, e := es[..|es| - 1], es[|es| - 1];
    var st := Replay(init);
    var log := Calls(init);
    CallIndices(init);
    if e.Recorded? {
      var c := MakeCall(st.callCount + 1, e.tool, e.usage, e.durationMs, e.contentHash);
      assert Replay(es) == RecordCall(st, c);
      assert Calls(es) == log + [c];
      var buckets := Replay(es).contentHashes;
      forall k
        ensures FilterBy(log + [c], HashKey, Some(k)) == FilterBy(log, HashKey, Some(k)) + (if c.contentHash == Some(k) then [c] else [])
      {
        FilterByAppend(log, c, HashKey, Some(k));
      }
    } else {
      assert Replay(es).contentHashes == st.contentHashes;
      assert Calls(es) == log;
    }
  }

  /** The hash order lists each bucket exactly once. */
  lemma {:induction false} HashOrderListsBuckets(es: seq<Entry>)
    ensures Distinct(Replay(es).hashOrder)
    ensures forall k :: k in Replay(es).hashOrder <==> k in Replay(es).contentHashes
  {
    if |es| > 0 {
      HashOrderListsBuckets(es[..|es| - 1]);
    }
  }
}
