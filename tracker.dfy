/**
 * The tracker every platform adapter shares (`BaseTracker`): it owns the
 * session ledger and updates it in place, one recorded call or one
 * session-only delta at a time. The ghost log `entries` records every input
 * it was given; `Valid()` says the fields are exactly the replay of that
 * log, so every lemma of module Ledger about `Replay` describes the fields.
 */
module Tracking {
  import opened Wrappers
  import opened Ledger
  import opened Analysis
  import Naming

  /** Python truthiness of a detected model id: present and non-empty. */
  predicate Detected(d: Option<string>) {
    d.Some? && d.value != ""
  }

  class BaseTracker {
    var tokenUsage: TokenUsage
    var servers: map<string, ServerSession>
    var serverOrder: seq<string>
    var contentHashes: map<string, seq<Call>>
    var hashOrder: seq<string>
    var callCount: nat
    /** `session.model`, set by the adapters when they detect the model. */
    var model: Option<string>
    ghost var entries: seq<Entry>

    function Snapshot(): LedgerState
      reads this
    {
      LedgerState(tokenUsage, servers, serverOrder, contentHashes, hashOrder, callCount)
    }

    ghost predicate Valid()
      reads this
    {
      Snapshot() == Replay(entries)
    }

    constructor ()
      ensures Valid() && entries == [] && model == None
      ensures Snapshot() == EmptyLedger
    {
      tokenUsage := NoTokens;
      servers := map[];
      serverOrder := [];
      contentHashes := map[];
      hashOrder := [];
      callCount := 0;
      model := None;
      entries := [];
    }

    /**
     * `record_tool_call`: normalizes the name, numbers the call, adds its
     * tokens to the session, files it under its server and tool (creating
     * both on first use) and appends it to its content-hash bucket.
     */
    method RecordToolCall(tool: string, inputTokens: int, outputTokens: int, cacheCreatedTokens: int,
                          cacheReadTokens: int, durationMs: int, contentHash: Option<string>)
      requires Valid()
      modifies this
      ensures Valid() && model == old(model)
      ensures entries == old(entries) + [Recorded(tool, Usage(inputTokens, outputTokens, cacheCreatedTokens, cacheReadTokens), durationMs, contentHash)]
      ensures callCount == old(callCount) + 1
    {
      var u := Usage(inputTokens, outputTokens, cacheCreatedTokens, cacheReadTokens);
      var server := Naming.NormalizeServerName(tool);
      var name := Naming.NormalizeToolName(tool);
      var call := Call(callCount + 1, name, server, u, durationMs, contentHash);
      ghost var e := Recorded(tool, u, durationMs, contentHash);
      ReplayRecorded(entries, Snapshot(), e, call);
      FileCall(call);
      entries := entries + [e];
    }

    /** The in-place updates of `record_tool_call` for an already built call. */
    method FileCall(call: Call)
      modifies this
      ensures Snapshot() == RecordCall(old(Snapshot()), call)
      ensures model == old(model) && entries == old(entries)
    {
      ghost var before := Snapshot();
      callCount := callCount + 1;
      tokenUsage := AddUsage(tokenUsage, call.usage);
      FileUnderServer(call);
      FileUnderHash(call);
      ghost var after := RecordCall(before, call);
      assert tokenUsage == after.tokenUsage && callCount == after.callCount;
      assert servers == after.servers && serverOrder == after.serverOrder;
      assert contentHashes == after.contentHashes && hashOrder == after.hashOrder;
    }

    /** Files the call under its server, which is created and listed on first use. */
    method FileUnderServer(call: Call)
      modifies this
      ensures var known := call.server in old(servers);
        && servers == old(servers)[call.server := AddToServer(if known then old(servers)[call.server] else NewServer(call.server), call)]
        && serverOrder == if known then old(serverOrder) else old(serverOrder) + [call.server]
      ensures tokenUsage == old(tokenUsage) && contentHashes == old(contentHashes) && hashOrder == old(hashOrder)
      ensures callCount == old(callCount) && model == old(model) && entries == old(entries)
    {
      var ss: ServerSession;
      if call.server in servers {
        ss := servers[call.server];
      } else {
        ss := NewServer(call.server);
        serverOrder := serverOrder + [call.server];
      }
      servers := servers[call.server := AddToServer(ss, call)];
    }

    /** Appends a hashed call to its bucket, which is created and listed on first use. */
    method FileUnderHash(call: Call)
      modifies this
      ensures contentHashes == AddToBuckets(old(contentHashes), call)
      ensures hashOrder == if call.contentHash.Some? && call.contentHash.value !in old(contentHashes) then old(hashOrder) + [call.contentHash.value] else old(hashOrder)
      ensures tokenUsage == old(tokenUsage) && servers == old(servers) && serverOrder == old(serverOrder)
      ensures callCount == old(callCount) && model == old(model) && entries == old(entries)
    {
      if call.contentHash.Some? {
        var k := call.contentHash.value;
        if k in contentHashes {
          contentHashes := contentHashes[k := contentHashes[k] + [call]];
        } else {
          contentHashes := contentHashes[k := [call]];
          hashOrder := hashOrder + [k];
          assert [] + [call] == [call];
        }
      }
    }

    /**
     * The adapters' session-only path: the four counts are added to the
     * session totals, their sum to the total, and `cache_efficiency` is
     * recomputed when its base is positive; no call is recorded.
     */
    method AddSessionUsage(inputTokens: int, outputTokens: int, cacheCreatedTokens: int, cacheReadTokens: int)
      requires Valid()
      modifies this
      ensures Valid() && model == old(model)
      ensures entries == old(entries) + [SessionDelta(Usage(inputTokens, outputTokens, cacheCreatedTokens, cacheReadTokens))]
      ensures servers == old(servers) && contentHashes == old(contentHashes) && callCount == old(callCount)
    {
      ghost var e := SessionDelta(Usage(inputTokens, outputTokens, cacheCreatedTokens, cacheReadTokens));
      ReplayDelta(entries, Snapshot(), e);
      tokenUsage := AddedSessionUsage(tokenUsage, inputTokens, outputTokens, cacheCreatedTokens, cacheReadTokens);
      entries := entries + [e];
    }

    /** The field-by-field additions of the session-only path, on a copy of the session totals. */
    static method AddedSessionUsage(t0: TokenUsage, inputTokens: int, outputTokens: int, cacheCreatedTokens: int, cacheReadTokens: int)
      returns (t: TokenUsage)
      ensures t == AddUsage(t0, Usage(inputTokens, outputTokens, cacheCreatedTokens, cacheReadTokens))
    {
      t := t0;
      var total := inputTokens + outputTokens + cacheCreatedTokens + cacheReadTokens;
      t := t.(input := t.input + inputTokens);
      t := t.(output := t.output + outputTokens);
      t := t.(cacheCreated := t.cacheCreated + cacheCreatedTokens);
      t := t.(cacheRead := t.cacheRead + cacheReadTokens);
      t := t.(total := t.total + total);
      var totalInput := t.input + t.cacheCreated + t.cacheRead;
      if totalInput > 0 {
        t := t.(cacheEfficiency := t.cacheRead as real / totalInput as real);
      }
    }

    /** Sets `session.model`; the ledger is untouched. */
    method SetModel(m: string)
      modifies this
      ensures model == Some(m)
      ensures Snapshot() == old(Snapshot()) && entries == old(entries)
    {
      model := Some(m);
    }

    /**
     * `finalize_session`: derives the report from the ledger without
     * changing it (so finalizing twice gives the same report). The summary
     * counts every recorded call, the redundancy result appears exactly when
     * some calls share a content hash, and anomalies are exactly the tools
     * over a threshold.
     */
    method FinalizeSession(netSavings: real) returns (r: Report)
      requires Valid()
      ensures r == Finalize(Snapshot(), netSavings)
      ensures r.summary.totalCalls == |Calls(entries)| == callCount
      ensures r.redundancy.None? <==> HashedCount(Calls(entries)) == |hashOrder|
      ensures forall a :: a in r.anomalies <==> exists row :: row in AllRows(Snapshot()) && Raises(row, a)
    {
      TotalCallsIsCallCount(entries);
      CallIndices(entries);
      DuplicatesOfReplay(entries);
      AnomaliesExactly(AllRows(Snapshot()));
      r := Finalize(Snapshot(), netSavings);
    }
  }
}
