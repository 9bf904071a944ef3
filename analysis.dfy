/**
 * The analysers `finalize_session` runs over a ledger: the MCP call summary,
 * redundancy from the content-hash buckets, per-tool anomalies and the cache
 * classification. They read the ledger and change nothing, so finalizing
 * twice gives the same report.
 */
module Analysis {
  import opened Wrappers
  import opened Text
  import opened Ordering
  import opened Ledger

  /** One tool's aggregates together with the server that files it. */
  datatype ToolRow = ToolRow(server: string, tool: string, stats: ToolStats)

  /** The server's tools, in the order `order` lists them (names without aggregates are skipped). */
  function ToolRows(ss: ServerSession, order: seq<string>): seq<ToolRow> {
    if |order| == 0 then []
    else
      var t := order[|order| - 1];
      ToolRows(ss, order[..|order| - 1]) + (if t in ss.tools then [ToolRow(ss.server, t, ss.tools[t])] else [])
  }

  /** Every tool of every server, servers in `order`, each server's tools in its own insertion order. */
  function Rows(servers: map<string, ServerSession>, order: seq<string>): seq<ToolRow> {
    if |order| == 0 then []
    else
      var s := order[|order| - 1];
      Rows(servers, order[..|order| - 1]) + (if s in servers then ToolRows(servers[s], servers[s].toolOrder) else [])
  }

  function AllRows(st: LedgerState): seq<ToolRow> {
    Rows(st.servers, st.serverOrder)
  }

  /** The orders list exactly the keys of their maps, and every server is filed under its own name. */
  ghost predicate WellOrdered(st: LedgerState) {
    (forall s :: s in st.serverOrder <==> s in st.servers)
    && (forall s :: s in st.servers ==> st.servers[s].server == s)
    && (forall s, t :: s in st.servers ==> (t in st.servers[s].toolOrder <==> t in st.servers[s].tools))
  }

  /** Every replayed ledger is well ordered. */
  lemma {:induction false} ReplayWellOrdered(es: seq<Entry>)
    ensures WellOrdered(Replay(es))
  {
    var st := Replay(es);
    ServerOrderListsServers(es);
    ServersAreAggregates(es);
    forall s | s in st.servers
      ensures st.servers[s].server == s
      ensures forall t :: t in st.servers[s].toolOrder <==> t in st.servers[s].tools
    {
      ServerCounts(s, FilterBy(Calls(es), ServerKey, s));
      ServerToolOrder(s, FilterBy(Calls(es), ServerKey, s));
    }
  }

  lemma {:induction false} ToolRowsMembers(ss: ServerSession, order: seq<string>)
    ensures forall r :: r in ToolRows(ss, order) <==>
      r.server == ss.server && r.tool in order && r.tool in ss.tools && r.stats == ss.tools[r.tool]
  {
    if |order| > 0 {
      ToolRowsMembers(ss, order[..|order| - 1]);
      assert order == order[..|order| - 1] + [order[|order| - 1]];
    }
  }

  lemma {:induction false} RowsMembers(servers: map<string, ServerSession>, order: seq<string>)
    requires forall s :: s in servers ==> servers[s].server == s
    ensures forall r :: r in Rows(servers, order) <==>
      r.server in order && r.server in servers && r in ToolRows(servers[r.server], servers[r.server].toolOrder)
  {
    if |order| > 0 {
      var init, s := order[..|order| - 1], order[|order| - 1];
      RowsMembers(servers, init);
      assert order == init + [s];
      if s in servers {
        ToolRowsMembers(servers[s], servers[s].toolOrder);
      }
    }
  }

  /** The rows of a well-ordered ledger are exactly its per-tool aggregates, each under its server. */
  lemma AllRowsAreTools(st: LedgerState)
    requires WellOrdered(st)
    ensures forall r :: r in AllRows(st) <==>
      r.server in st.servers && r.tool in st.servers[r.server].tools && r.stats == st.servers[r.server].tools[r.tool]
  {
    RowsMembers(st.servers, st.serverOrder);
    forall s | s in st.servers {
      ToolRowsMembers(st.servers[s], st.servers[s].toolOrder);
    }
  }

  // ---------------------------------------------------------------- MCP summary

  /** The summary of MCP tool use (`MCPToolCalls` plus the servers used). */
  datatype McpSummary = McpSummary(totalCalls: int, uniqueTools: nat, uniqueServers: nat,
                                   serversUsed: seq<string>, mostCalled: seq<string>)

  const MostCalledCount := 5

  /** The sum of the servers' call counts, servers listed by `order`. */
  function ServerCallsSum(servers: map<string, ServerSession>, order: seq<string>): int {
    if |order| == 0 then 0
    else (if order[0] in servers then servers[order[0]].totalCalls else 0) + ServerCallsSum(servers, order[1..])
  }

  function CallsOf(r: ToolRow): int { r.stats.calls }

  /** `"<tool> (<n> calls)"`. */
  function CallsLabel(r: ToolRow): string {
    r.tool + " (" + IntToString(r.stats.calls) + " calls)"
  }

  function Labels(rows: seq<ToolRow>): (r: seq<string>)
    ensures |r| == |rows| && forall i :: 0 <= i < |rows| ==> r[i] == CallsLabel(rows[i])
  {
    if |rows| == 0 then [] else [CallsLabel(rows[0])] + Labels(rows[1..])
  }

  /** The tools with the most calls, most first, ties in row order. */
  function MostCalledRows(st: LedgerState): seq<ToolRow> {
    TopBy(AllRows(st), CallsOf, MostCalledCount)
  }

  function Summarize(st: LedgerState): McpSummary {
    McpSummary(ServerCallsSum(st.servers, st.serverOrder), |AllRows(st)|, |st.serverOrder|,
               st.serverOrder, Labels(MostCalledRows(st)))
  }

  /** `most_called` holds one label per chosen tool, five unless fewer tools were used. */
  lemma MostCalledLabels(st: LedgerState)
    ensures |Summarize(st).mostCalled| == if |AllRows(st)| < MostCalledCount then |AllRows(st)| else MostCalledCount
    ensures forall i :: 0 <= i < |MostCalledRows(st)| ==> Summarize(st).mostCalled[i] == CallsLabel(MostCalledRows(st)[i])
  {
    TopByFacts(AllRows(st), CallsOf, MostCalledCount);
  }

  /** The chosen tools are tools of the ledger, in descending call count. */
  lemma MostCalledDescending(st: LedgerState)
    ensures forall r :: r in MostCalledRows(st) ==> r in AllRows(st)
    ensures forall i, j :: 0 <= i < j < |MostCalledRows(st)| ==> MostCalledRows(st)[i].stats.calls >= MostCalledRows(st)[j].stats.calls
  {
    TopByFacts(AllRows(st), CallsOf, MostCalledCount);
    var top := MostCalledRows(st);
    forall r | r in top ensures r in AllRows(st) {
      assert r in multiset(top);
    }
  }

  /** No tool left out of `most_called` has more calls than one chosen. */
  lemma MostCalledBest(st: LedgerState)
    ensures forall r, c :: r in AllRows(st) && r !in MostCalledRows(st) && c in MostCalledRows(st) ==> r.stats.calls <= c.stats.calls
  {
    var top := MostCalledRows(st);
    TopByFacts(AllRows(st), CallsOf, MostCalledCount);
    forall r, c | r in AllRows(st) && r !in top && c in top ensures r.stats.calls <= c.stats.calls {
      assert r in multiset(AllRows(st)) - multiset(top);
      var i :| 0 <= i < |top| && top[i] == c;
      assert CallsOf(r) <= CallsOf(top[i]);
    }
  }

  /** The (server, tool) pair each row stands for. */
  function RowKeys(rows: seq<ToolRow>): (r: seq<(string, string)>)
    ensures |r| == |rows| && forall i :: 0 <= i < |rows| ==> r[i] == (rows[i].server, rows[i].tool)
  {
    if |rows| == 0 then [] else [(rows[0].server, rows[0].tool)] + RowKeys(rows[1..])
  }

  lemma {:induction false} RowKeysAppend(a: seq<ToolRow>, b: seq<ToolRow>)
    ensures RowKeys(a + b) == RowKeys(a) + RowKeys(b)
  {
    var l, r := RowKeys(a + b), RowKeys(a) + RowKeys(b);
    assert |l| == |r|;
    forall i | 0 <= i < |l| ensures l[i] == r[i] {
      if i >= |a| {
        assert (a + b)[i] == b[i - |a|];
      }
    }
  }

  lemma {:induction false} ToolRowsDistinct(ss: ServerSession, order: seq<string>)
    requires Distinct(order)
    ensures Distinct(RowKeys(ToolRows(ss, order)))
    decreases |order|
  {
    if |order| > 0 {
      var init, t := order[..|order| - 1], order[|order| - 1];
      ToolRowsDistinct(ss, init);
      ToolRowsMembers(ss, init);
      var a := ToolRows(ss, init);
      var b := if t in ss.tools then [ToolRow(ss.server, t, ss.tools[t])] else [];
      assert ToolRows(ss, order) == a + b;
      RowKeysAppend(a, b);
      assert t !in init;
      forall k | k in RowKeys(a) ensures k !in RowKeys(b) {
        var i :| 0 <= i < |a| && RowKeys(a)[i] == k;
        assert a[i] in a;
      }
      DistinctConcat(RowKeys(a), RowKeys(b));
    }
  }

  lemma {:induction false} RowsDistinct(servers: map<string, ServerSession>, order: seq<string>)
    requires Distinct(order)
    requires forall s :: s in servers ==> servers[s].server == s && Distinct(servers[s].toolOrder)
    ensures Distinct(RowKeys(Rows(servers, order)))
    decreases |order|
  {
    if |order| > 0 {
      var init, s := order[..|order| - 1], order[|order| - 1];
      RowsDistinct(servers, init);
      RowsMembers(servers, init);
      var a := Rows(servers, init);
      if s in servers {
        var b := ToolRows(servers[s], servers[s].toolOrder);
        ToolRowsDistinct(servers[s], servers[s].toolOrder);
        ToolRowsMembers(servers[s], servers[s].toolOrder);
        RowKeysAppend(a, b);
        assert s !in init;
        forall k | k in RowKeys(b) ensures k.0 == s {
          var j :| 0 <= j < |b| && RowKeys(b)[j] == k;
          assert b[j] in b;
        }
        forall k | k in RowKeys(a) ensures k !in RowKeys(b) {
          var i :| 0 <= i < |a| && RowKeys(a)[i] == k;
          assert a[i] in a;
        }
        DistinctConcat(RowKeys(a), RowKeys(b));
      }
    }
  }

  /** A server is in the order of a replayed ledger exactly when some recorded call is filed under it. */
  lemma ServerOrderOfCalls(es: seq<Entry>)
    ensures forall s :: s in Replay(es).serverOrder <==> exists c :: c in Calls(es) && c.server == s
  {
    var log := Calls(es);
    ServerOrderListsServers(es);
    ServersAreAggregates(es);
    forall s ensures s in Replay(es).serverOrder <==> exists c :: c in log && c.server == s {
      FilterByElements(log, ServerKey, s);
      if s in Replay(es).servers {
        assert FilterBy(log, ServerKey, s)[0] in FilterBy(log, ServerKey, s);
      }
    }
  }

  /** A row of a replayed ledger exists for a (server, tool) pair exactly when some recorded call has it. */
  lemma RowKeysOfCalls(es: seq<Entry>)
    ensures forall k :: k in RowKeys(AllRows(Replay(es))) <==> exists c :: c in Calls(es) && (c.server, c.tool) == k
  {
    var st := Replay(es);
    ReplayWellOrdered(es);
    AllRowsAreTools(st);
    ServersAreAggregates(es);
    forall k ensures k in RowKeys(AllRows(st)) <==> exists c :: c in Calls(es) && (c.server, c.tool) == k {
      RowKeyAt(st, Calls(es), k.0, k.1);
    }
  }

  /** The step of `RowKeysOfCalls` for one pair. */
  lemma RowKeyAt(st: LedgerState, log: seq<Call>, s: string, t: string)
    requires forall r :: r in AllRows(st) <==>
      r.server in st.servers && r.tool in st.servers[r.server].tools && r.stats == st.servers[r.server].tools[r.tool]
    requires s in st.servers <==> FilterBy(log, ServerKey, s) != []
    requires s in st.servers ==> st.servers[s] == ServerOf(s, FilterBy(log, ServerKey, s))
    ensures (s, t) in RowKeys(AllRows(st)) <==> exists c :: c in log && (c.server, c.tool) == (s, t)
  {
    var keys := RowKeys(AllRows(st));
    var f := FilterBy(log, ServerKey, s);
    FilterByElements(log, ServerKey, s);
    ServerTools(s, f);
    FilterByElements(f, ToolKey, t);
    if (s, t) in keys {
      var i :| 0 <= i < |keys| && keys[i] == (s, t);
      assert AllRows(st)[i] in AllRows(st);
      assert FilterBy(f, ToolKey, t)[0] in FilterBy(f, ToolKey, t);
    }
    if exists c :: c in log && (c.server, c.tool) == (s, t) {
      var c :| c in log && (c.server, c.tool) == (s, t);
      assert c in f && c in FilterBy(f, ToolKey, t);
      var r := ToolRow(s, t, st.servers[s].tools[t]);
      assert r in AllRows(st);
      var i :| 0 <= i < |AllRows(st)| && AllRows(st)[i] == r;
      assert keys[i] == (s, t);
    }
  }

  /** Every server of a replayed ledger is filed under its own name and repeats none of its tools. */
  lemma ReplayServersShape(es: seq<Entry>)
    ensures forall s :: s in Replay(es).servers ==> Replay(es).servers[s].server == s && Distinct(Replay(es).servers[s].toolOrder)
  {
    var st := Replay(es);
    ServersAreAggregates(es);
    forall s | s in st.servers ensures st.servers[s].server == s && Distinct(st.servers[s].toolOrder) {
      ServerCounts(s, FilterBy(Calls(es), ServerKey, s));
      ServerToolOrder(s, FilterBy(Calls(es), ServerKey, s));
    }
  }

  /** `unique_tools` counts the distinct (server, tool) pairs among the recorded calls. */
  lemma UniqueToolsCount(es: seq<Entry>)
    ensures Summarize(Replay(es)).uniqueTools == |set c | c in Calls(es) :: (c.server, c.tool)|
  {
    var st := Replay(es);
    var keys := RowKeys(AllRows(st));
    ServerOrderListsServers(es);
    ReplayServersShape(es);
    RowsDistinct(st.servers, st.serverOrder);
    DistinctCard(keys);
    RowKeysOfCalls(es);
    assert (set k | k in keys) == (set c | c in Calls(es) :: (c.server, c.tool));
  }

  /** `unique_servers` counts the distinct servers among the recorded calls. */
  lemma UniqueServersCount(es: seq<Entry>)
    ensures Summarize(Replay(es)).uniqueServers == |set c | c in Calls(es) :: c.server|
  {
    var st := Replay(es);
    ServerOrderListsServers(es);
    DistinctCard(st.serverOrder);
    ServerOrderOfCalls(es);
    assert (set s | s in st.serverOrder) == (set c | c in Calls(es) :: c.server);
  }

  lemma {:induction false} ServerCallsAreCounts(servers: map<string, ServerSession>, order: seq<string>, log: seq<Call>)
    requires forall s :: s in order ==> s in servers && servers[s].totalCalls == |FilterBy(log, ServerKey, s)|
    ensures ServerCallsSum(servers, order) == SumCounts(log, ServerKey, order)
  {
    if |order| > 0 {
      ServerCallsAreCounts(servers, order[1..], log);
    }
  }

  /** A replayed ledger's summary counts every recorded call once: `total_calls` is the length of the call log. */
  lemma TotalCallsIsCallCount(es: seq<Entry>)
    ensures Summarize(Replay(es)).totalCalls == |Calls(es)|
    ensures Summarize(Replay(es)).totalCalls == Replay(es).callCount
  {
    var st := Replay(es);
    var log := Calls(es);
    ServerOrderListsServers(es);
    ServersAreAggregates(es);
    CallIndices(es);
    forall s | s in st.serverOrder
      ensures s in st.servers && st.servers[s].totalCalls == |FilterBy(log, ServerKey, s)|
    {
      ServerCounts(s, FilterBy(log, ServerKey, s));
    }
    ServerCallsAreCounts(st.servers, st.serverOrder, log);
    PartitionCounts(log, ServerKey, st.serverOrder);
    forall y | y in log ensures ServerKey(y) in st.serverOrder {
      FilterByElements(log, ServerKey, y.server);
      assert y in FilterBy(log, ServerKey, y.server);
    }
    CountKeysInAll(log, ServerKey, st.serverOrder);
  }

  // ---------------------------------------------------------------- redundancy

  /** `redundancy_analysis`: repeated calls with identical content and the tokens the repeats cost. */
  datatype Redundancy = Redundancy(duplicateCalls: int, potentialSavings: int)

  /** The repeats of the buckets listed by `order`: every call after a bucket's first. */
  function Repeats(buckets: map<string, seq<Call>>, order: seq<string>): seq<Call> {
    if |order| == 0 then []
    else (if order[0] in buckets && |buckets[order[0]]| > 1 then buckets[order[0]][1..] else []) + Repeats(buckets, order[1..])
  }

  function DuplicateCount(buckets: map<string, seq<Call>>, order: seq<string>): int {
    if |order| == 0 then 0
    else (if order[0] in buckets && |buckets[order[0]]| > 1 then |buckets[order[0]]| - 1 else 0) + DuplicateCount(buckets, order[1..])
  }

  /** Absent when no content hash was seen twice. */
  function RedundancyOf(st: LedgerState): Option<Redundancy> {
    var dup := DuplicateCount(st.contentHashes, st.hashOrder);
    if dup == 0 then None else Some(Redundancy(dup, SumTokens(Repeats(st.contentHashes, st.hashOrder))))
  }

  /** The duplicate count is the number of repeats, so the savings are the tokens of exactly the counted calls. */
  lemma {:induction false} DuplicatesAreRepeats(buckets: map<string, seq<Call>>, order: seq<string>)
    ensures DuplicateCount(buckets, order) == |Repeats(buckets, order)|
  {
    if |order| > 0 {
      DuplicatesAreRepeats(buckets, order[1..]);
    }
  }

  /** There is a redundancy result exactly when some bucket holds more than one call. */
  lemma {:induction false} RedundancyPresent(buckets: map<string, seq<Call>>, order: seq<string>)
    ensures DuplicateCount(buckets, order) >= 0
    ensures DuplicateCount(buckets, order) > 0 <==> exists k :: k in order && k in buckets && |buckets[k]| > 1
  {
    if |order| > 0 {
      RedundancyPresent(buckets, order[1..]);
      assert forall k :: k in order <==> k == order[0] || k in order[1..];
    }
  }

  function Somes(ks: seq<string>): (r: seq<Option<string>>)
    ensures |r| == |ks| && forall i :: 0 <= i < |ks| ==> r[i] == Some(ks[i])
  {
    if |ks| == 0 then [] else [Some(ks[0])] + Somes(ks[1..])
  }

  /** The calls that carry a content hash. */
  function HashedCount(log: seq<Call>): nat {
    if |log| == 0 then 0 else HashedCount(log[..|log| - 1]) + (if log[|log| - 1].contentHash.Some? then 1 else 0)
  }

  lemma {:induction false} DuplicatesAreBucketExcess(buckets: map<string, seq<Call>>, order: seq<string>, log: seq<Call>)
    requires forall k :: k in order ==> k in buckets && buckets[k] == FilterBy(log, HashKey, Some(k)) && buckets[k] != []
    ensures DuplicateCount(buckets, order) == SumCounts(log, HashKey, Somes(order)) - |order|
  {
    if |order| > 0 {
      DuplicatesAreBucketExcess(buckets, order[1..], log);
      assert Somes(order)[1..] == Somes(order[1..]);
    }
  }

  lemma {:induction false} HashedAreListed(log: seq<Call>, keys: seq<Option<string>>)
    requires forall y :: y in log && y.contentHash.Some? ==> y.contentHash in keys
    requires None !in keys
    ensures CountKeysIn(log, HashKey, keys) == HashedCount(log)
  {
    if |log| > 0 {
      HashedAreListed(log[..|log| - 1], keys);
    }
  }

  lemma SomesDistinct(ks: seq<string>)
    requires Distinct(ks)
    ensures Distinct(Somes(ks)) && None !in Somes(ks)
    ensures forall k :: Some(k) in Somes(ks) <==> k in ks
  {
  }

  /**
   * In a replayed ledger the duplicate count is the number of calls that
   * carried a hash minus the number of distinct hashes: every call beyond
   * the first of its hash is one duplicate.
   */
  lemma DuplicatesOfReplay(es: seq<Entry>)
    ensures DuplicateCount(Replay(es).contentHashes, Replay(es).hashOrder) == HashedCount(Calls(es)) - |Replay(es).hashOrder|
  {
    var st := Replay(es);
    var log := Calls(es);
    BucketsAreHashGroups(es);
    HashOrderListsBuckets(es);
    DuplicatesAreBucketExcess(st.contentHashes, st.hashOrder, log);
    SomesDistinct(st.hashOrder);
    PartitionCounts(log, HashKey, Somes(st.hashOrder));
    forall y | y in log && y.contentHash.Some? ensures y.contentHash in Somes(st.hashOrder) {
      FilterByElements(log, HashKey, y.contentHash);
      assert y in FilterBy(log, HashKey, Some(y.contentHash.value));
    }
    HashedAreListed(log, Somes(st.hashOrder));
  }

  // ---------------------------------------------------------------- anomalies

  const HighFrequencyCalls := 10
  const HighAvgTokens := 500000.0

  datatype Anomaly = HighFrequency(tool: string, calls: int) | HighAverage(tool: string, avgTokens: real)

  /** The anomalies one tool raises: frequency first, then average size. */
  function RowAnomalies(r: ToolRow): seq<Anomaly> {
    (if r.stats.calls > HighFrequencyCalls then [HighFrequency(r.tool, r.stats.calls)] else [])
    + (if r.stats.avgTokens > HighAvgTokens then [HighAverage(r.tool, r.stats.avgTokens)] else [])
  }

  function Anomalies(rows: seq<ToolRow>): seq<Anomaly> {
    if |rows| == 0 then [] else RowAnomalies(rows[0]) + Anomalies(rows[1..])
  }

  /** `a` is an anomaly the tool of `r` raises. */
  predicate Raises(r: ToolRow, a: Anomaly) {
    match a
    case HighFrequency(t, n) => t == r.tool && n == r.stats.calls && n > HighFrequencyCalls
    case HighAverage(t, avg) => t == r.tool && avg == r.stats.avgTokens && avg > HighAvgTokens
  }

  lemma RowAnomaliesRaise(r: ToolRow)
    ensures forall a :: a in RowAnomalies(r) <==> Raises(r, a)
  {
  }

  /** An anomaly is reported exactly when some tool crosses its threshold, and it carries that tool's measure. */
  lemma {:induction false} AnomaliesExactly(rows: seq<ToolRow>)
    ensures forall a :: a in Anomalies(rows) <==> exists r :: r in rows && Raises(r, a)
  {
    if |rows| > 0 {
      AnomaliesExactly(rows[1..]);
      RowAnomaliesRaise(rows[0]);
      forall a ensures a in Anomalies(rows) <==> exists r :: r in rows && Raises(r, a) {
        if a in RowAnomalies(rows[0]) {
          assert rows[0] in rows && Raises(rows[0], a);
        }
        if exists r :: r in rows && Raises(r, a) {
          var r :| r in rows && Raises(r, a);
          if r != rows[0] {
            assert r in rows[1..];
          }
        }
      }
    }
  }

  /** A tool raises nothing below both thresholds, and its frequency anomaly comes before its size anomaly. */
  lemma RowAnomaliesOrder(r: ToolRow)
    ensures r.stats.calls <= HighFrequencyCalls && r.stats.avgTokens <= HighAvgTokens ==> RowAnomalies(r) == []
    ensures |RowAnomalies(r)| == 2 ==> RowAnomalies(r)[0].HighFrequency? && RowAnomalies(r)[1].HighAverage?
  {
  }

  // ---------------------------------------------------------------- cache analysis

  datatype CacheStatus = Efficient | Inefficient | Neutral

  /** Which case of the classification applied; the summary and recommendation texts follow from it. */
  datatype CacheReason = NoActivity | NoReuse | LowReuse | GoodReuse | ReadsOnly | Unclassified

  const LowReuseRatio := 0.1
  const TopCacheCount := 3

  datatype CacheTool = CacheTool(tool: string, tokens: int, pct: real)

  datatype CacheAnalysis = CacheAnalysis(
    status: CacheStatus, reason: CacheReason, creationTokens: int, readTokens: int, ratio: real,
    netSavings: real, topCreators: seq<CacheTool>, topReaders: seq<CacheTool>,
    summary: string, recommendation: string)

  /** The phrase each classification case is known by; each text starts with it or, for "efficiently", ends with it. */
  const NoActivityPhrase := "No cache activity"
  const NoReusePhrase := "No reuse"
  const LowReusePhrase := "Low reuse"
  const SavedPhrase := "Cache saved"
  const BatchingPhrase := "Batching"
  const EfficientlyPhrase := "efficiently"

  /** The summary sentence for each classification case. */
  function SummaryText(r: CacheReason): string {
    match r
    case NoActivity => NoActivityPhrase + " in this session"
    case NoReuse => NoReusePhrase + ": cache was created but never read"
    case LowReuse => LowReusePhrase + ": most cached tokens were never read back"
    case GoodReuse => SavedPhrase + " tokens by reusing cached context"
    case ReadsOnly => SavedPhrase + " tokens by reading existing cache"
    case Unclassified => "Cache activity could not be classified"
  }

  /** The recommendation for each classification case; none when nothing is to be done. */
  function RecommendationText(r: CacheReason): string {
    match r
    case NoReuse | LowReuse => BatchingPhrase + " related calls lets them reuse the cache"
    case GoodReuse | ReadsOnly => "Cache is used " + EfficientlyPhrase
    case NoActivity | Unclassified => ""
  }

  /** `read / creation`, and 0 when nothing was created. */
  function Ratio(creation: int, read: int): real {
    if creation > 0 then read as real / creation as real else 0.0
  }

  function Classify(creation: int, read: int): (r: (CacheStatus, CacheReason)) {
    if creation == 0 && read == 0 then (Neutral, NoActivity)
    else if creation > 0 && read == 0 then (Inefficient, NoReuse)
    else if creation > 0 && read > 0 && Ratio(creation, read) < LowReuseRatio then (Inefficient, LowReuse)
    else if creation > 0 && Ratio(creation, read) >= LowReuseRatio then (Efficient, GoodReuse)
    else if creation == 0 && read > 0 then (Efficient, ReadsOnly)
    else (Neutral, Unclassified)
  }

  /** With non-negative counts the status is exactly the threshold rule: neutral, inefficient or efficient. */
  lemma ClassifyRule(creation: int, read: int)
    requires creation >= 0 && read >= 0
    ensures Classify(creation, read).0 == Neutral <==> creation == 0 && read == 0
    ensures Classify(creation, read).0 == Inefficient <==> creation > 0 && read * 10 < creation
    ensures Classify(creation, read).0 == Efficient <==> (creation > 0 && read * 10 >= creation) || (creation == 0 && read > 0)
    ensures Classify(creation, read).1 == NoReuse <==> creation > 0 && read == 0
  {
    if creation > 0 {
      var q := read as real / creation as real;
      assert q * creation as real == read as real;
      assert q < LowReuseRatio <==> read * 10 < creation;
    }
  }

  function CreatedOf(r: ToolRow): int { r.stats.cacheCreated }
  function ReadOf(r: ToolRow): int { r.stats.cacheRead }

  /** A tool's share of the session total, as a percentage; 0 when the total is not positive. */
  function Pct(tokens: int, total: int): real {
    if total > 0 then tokens as real / total as real * 100.0 else 0.0
  }

  function Positive(rows: seq<ToolRow>, key: ToolRow -> int): (r: seq<ToolRow>)
    ensures forall x :: x in r <==> x in rows && key(x) > 0
  {
    if |rows| == 0 then []
    else Positive(rows[..|rows| - 1], key) + (if key(rows[|rows| - 1]) > 0 then [rows[|rows| - 1]] else [])
  }

  function CacheTools(rows: seq<ToolRow>, key: ToolRow -> int, total: int): (r: seq<CacheTool>)
    ensures |r| == |rows|
    ensures forall i :: 0 <= i < |rows| ==> r[i] == CacheTool(rows[i].tool, key(rows[i]), Pct(key(rows[i]), total))
  {
    if |rows| == 0 then [] else [CacheTool(rows[0].tool, key(rows[0]), Pct(key(rows[0]), total))] + CacheTools(rows[1..], key, total)
  }

  /** The up-to-three rows with the largest positive `key`, largest first. */
  function TopCacheRows(rows: seq<ToolRow>, key: ToolRow -> int): seq<ToolRow> {
    TopBy(Positive(rows, key), key, TopCacheCount)
  }

  /** The top rows, each with its share of `total`. */
  function TopCache(rows: seq<ToolRow>, key: ToolRow -> int, total: int): seq<CacheTool> {
    CacheTools(TopCacheRows(rows, key), key, total)
  }

  /** `_build_cache_analysis`, from the session's cache counts and the externally priced net savings. */
  function CacheAnalysisOf(st: LedgerState, netSavings: real): CacheAnalysis {
    var creation := st.tokenUsage.cacheCreated;
    var read := st.tokenUsage.cacheRead;
    var c := Classify(creation, read);
    CacheAnalysis(c.0, c.1, creation, read, Ratio(creation, read), netSavings,
                  TopCache(AllRows(st), CreatedOf, creation), TopCache(AllRows(st), ReadOf, read),
                  SummaryText(c.1), RecommendationText(c.1))
  }

  /** Each case's texts carry the phrase that case is known by. */
  lemma NoActivityTexts()
    ensures Contains(SummaryText(NoActivity), "No cache activity") && RecommendationText(NoActivity) == ""
  {
    PrefixContained(NoActivityPhrase, " in this session");
  }

  lemma NoReuseTexts()
    ensures Contains(Lower(SummaryText(NoReuse)), "no reuse") && Contains(Lower(RecommendationText(NoReuse)), "batching")
  {
    assert Lower(NoReusePhrase) == "no reuse";
    LowerPrefixContained(NoReusePhrase, ": cache was created but never read");
    assert Lower(BatchingPhrase) == "batching";
    LowerPrefixContained(BatchingPhrase, " related calls lets them reuse the cache");
  }

  lemma LowReuseTexts()
    ensures Contains(Lower(SummaryText(LowReuse)), "low reuse")
  {
    assert Lower(LowReusePhrase) == "low reuse";
    LowerPrefixContained(LowReusePhrase, ": most cached tokens were never read back");
  }

  lemma EfficientTexts(r: CacheReason)
    requires r == GoodReuse || r == ReadsOnly
    ensures Contains(SummaryText(r), "Cache saved") && Contains(Lower(RecommendationText(r)), "efficiently")
  {
    if r == GoodReuse {
      PrefixContained(SavedPhrase, " tokens by reusing cached context");
    } else {
      PrefixContained(SavedPhrase, " tokens by reading existing cache");
    }
    LowerAppend("Cache is used ", EfficientlyPhrase);
    assert Lower(EfficientlyPhrase) == "efficiently";
    SuffixContained(Lower("Cache is used "), "efficiently");
  }

  /**
   * The summary and recommendation follow the session's cache counts: no
   * activity gives no recommendation, creation without reads is "no reuse"
   * with batching advised, a read/creation ratio below 0.1 is "low reuse",
   * and an efficient cache is reported as having saved.
   */
  lemma CacheTexts(st: LedgerState, netSavings: real)
    requires st.tokenUsage.cacheCreated >= 0 && st.tokenUsage.cacheRead >= 0
    ensures var a := CacheAnalysisOf(st, netSavings); var created, read := st.tokenUsage.cacheCreated, st.tokenUsage.cacheRead;
      (created == 0 && read == 0 ==> Contains(a.summary, "No cache activity") && a.recommendation == "")
      && (created > 0 && read == 0 ==> Contains(Lower(a.summary), "no reuse") && Contains(Lower(a.recommendation), "batching"))
      && (created > 0 && read > 0 && read * 10 < created ==> Contains(Lower(a.summary), "low reuse"))
      && (a.status == Efficient ==> Contains(a.summary, "Cache saved") && Contains(Lower(a.recommendation), "efficiently"))
  {
    ClassifyRule(st.tokenUsage.cacheCreated, st.tokenUsage.cacheRead);
    NoActivityTexts();
    NoReuseTexts();
    LowReuseTexts();
    var r := Classify(st.tokenUsage.cacheCreated, st.tokenUsage.cacheRead).1;
    if r == GoodReuse || r == ReadsOnly {
      EfficientTexts(r);
    }
  }

  /**
   * The top lists hold at most three tools, never one with no cache activity
   * of that kind, largest first, and no tool left out has more than one listed.
   */
  lemma TopCacheBounded(rows: seq<ToolRow>, key: ToolRow -> int, total: int)
    ensures |TopCache(rows, key, total)| <= TopCacheCount
    ensures forall c :: c in TopCache(rows, key, total) ==> c.tokens > 0
    ensures forall i, j :: 0 <= i < j < |TopCache(rows, key, total)| ==> TopCache(rows, key, total)[i].tokens >= TopCache(rows, key, total)[j].tokens
    ensures forall r, i :: r in rows && key(r) > 0 && r !in TopCacheRows(rows, key) && 0 <= i < |TopCache(rows, key, total)| ==>
      key(r) <= TopCache(rows, key, total)[i].tokens
  {
    TopCacheBest(rows, key, total);
    var pos := Positive(rows, key);
    var top := TopBy(pos, key, TopCacheCount);
    TopOfPositive(pos, key);
    var ct := CacheTools(top, key, total);
    assert forall i :: 0 <= i < |ct| ==> ct[i].tokens == key(top[i]);
    forall c | c in ct ensures c.tokens > 0 {
      var i :| 0 <= i < |ct| && ct[i] == c;
    }
  }

  lemma TopOfPositive(pos: seq<ToolRow>, key: ToolRow -> int)
    requires forall x :: x in pos ==> key(x) > 0
    ensures |TopBy(pos, key, TopCacheCount)| <= TopCacheCount
    ensures forall i :: 0 <= i < |TopBy(pos, key, TopCacheCount)| ==> key(TopBy(pos, key, TopCacheCount)[i]) > 0
    ensures forall i, j :: 0 <= i < j < |TopBy(pos, key, TopCacheCount)| ==>
              key(TopBy(pos, key, TopCacheCount)[i]) >= key(TopBy(pos, key, TopCacheCount)[j])
  {
    var top := TopBy(pos, key, TopCacheCount);
    TopByFacts(pos, key, TopCacheCount);
    forall i | 0 <= i < |top| ensures key(top[i]) > 0 {
      assert top[i] in multiset(top);
      assert top[i] in multiset(pos);
    }
  }

  /** No row with activity of that kind left out of a top list has more of it than an entry listed. */
  lemma TopCacheBest(rows: seq<ToolRow>, key: ToolRow -> int, total: int)
    ensures forall r, i :: r in rows && key(r) > 0 && r !in TopCacheRows(rows, key) && 0 <= i < |TopCache(rows, key, total)| ==>
      key(r) <= TopCache(rows, key, total)[i].tokens
    ensures forall i :: 0 <= i < |TopCache(rows, key, total)| ==> TopCache(rows, key, total)[i].tool == TopCacheRows(rows, key)[i].tool
  {
    var pos := Positive(rows, key);
    var top := TopCacheRows(rows, key);
    var ct := TopCache(rows, key, total);
    TopDominates(pos, key);
    forall r, i | r in rows && key(r) > 0 && r !in top && 0 <= i < |ct| ensures key(r) <= ct[i].tokens {
      assert r in pos;
      assert ct[i].tokens == key(top[i]);
    }
  }

  lemma TopDominates(pos: seq<ToolRow>, key: ToolRow -> int)
    ensures forall r, i :: r in pos && r !in TopBy(pos, key, TopCacheCount) && 0 <= i < |TopBy(pos, key, TopCacheCount)| ==>
      key(r) <= key(TopBy(pos, key, TopCacheCount)[i])
  {
    var top := TopBy(pos, key, TopCacheCount);
    TopByFacts(pos, key, TopCacheCount);
    forall r, i | r in pos && r !in top && 0 <= i < |top| ensures key(r) <= key(top[i]) {
      assert r in multiset(pos) - multiset(top);
    }
  }

  /** A list shorter than three leaves out no tool with activity of that kind. */
  lemma TopCacheComplete(rows: seq<ToolRow>, key: ToolRow -> int, total: int)
    ensures forall r :: r in rows && key(r) > 0 && |TopCache(rows, key, total)| < TopCacheCount ==>
      exists c :: c in TopCache(rows, key, total) && c.tool == r.tool
  {
    var pos := Positive(rows, key);
    var top := TopCacheRows(rows, key);
    var ct := TopCache(rows, key, total);
    assert |ct| == |top|;
    TopByFacts(pos, key, TopCacheCount);
    if |top| < TopCacheCount {
      SubmultisetOfSameSize(top, pos);
      forall r | r in rows && key(r) > 0 ensures exists c :: c in ct && c.tool == r.tool {
        assert r in pos;
        assert r in multiset(top);
        var i :| 0 <= i < |top| && top[i] == r;
        assert ct[i] in ct && ct[i].tool == r.tool;
      }
    }
  }

  lemma SubmultisetOfSameSize<T>(a: seq<T>, b: seq<T>)
    requires multiset(a) <= multiset(b) && |a| == |b|
    ensures multiset(a) == multiset(b)
  {
    assert |multiset(a)| == |a| && |multiset(b)| == |b|;
    var d := multiset(b) - multiset(a);
    assert multiset(b) == multiset(a) + d;
    assert |d| == 0;
  }

  // ---------------------------------------------------------------- finalize

  /** What `finalize_session` derives from the ledger. */
  datatype Report = Report(summary: McpSummary, redundancy: Option<Redundancy>, anomalies: seq<Anomaly>, cache: CacheAnalysis)

  function Finalize(st: LedgerState, netSavings: real): Report {
    Report(Summarize(st), RedundancyOf(st), Anomalies(AllRows(st)), CacheAnalysisOf(st, netSavings))
  }
}
