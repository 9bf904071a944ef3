/**
 * Tool-name normalization shared by every platform adapter: an MCP tool is
 * named `mcp__<server>__<tool>`; Codex CLI reports the same server as
 * `<server>-mcp`, and both spellings must file under one server key.
 */
module Naming {
  import opened Text

  const McpPrefix := "mcp__"
  const CodexAlias := "-mcp"
  const UnknownServer := "unknown"

  /** Positions `j` and `j + 1` of `s` hold the separator `__`. */
  predicate SeparatorStartsAt(s: string, j: int)
    requires 0 <= j < |s| - 1
  {
    s[j] == '_' && s[j + 1] == '_'
  }

  /** No two consecutive underscores anywhere in `s`. */
  predicate NoSeparator(s: string) {
    forall j :: 0 <= j < |s| - 1 ==> !SeparatorStartsAt(s, j)
  }

  /** Where `s.split("__")[0]` ends: the first `__`, or the end of `s`. */
  function SeparatorAt(s: string): (k: nat)
    ensures k <= |s|
    ensures k < |s| ==> k + 1 < |s| && s[k] == '_' && s[k + 1] == '_'
    ensures NoSeparator(s[..k]) && (k > 0 && k < |s| ==> s[k - 1] != '_')
  {
    if |s| < 2 then |s|
    else if s[0] == '_' && s[1] == '_' then 0
    else
      var k := 1 + SeparatorAt(s[1..]);
      assert NoSeparator(s[..k]) by {
        forall j | 0 <= j < k - 1 ensures !SeparatorStartsAt(s[..k], j) {
          if j > 0 {
            assert !SeparatorStartsAt(s[1..][..k - 1], j - 1);
          }
        }
      }
      k
  }

  /** The server segment of an `mcp__` name: what follows the prefix up to the next `__`. */
  function Segment(tool: string): string
    requires StartsWith(tool, McpPrefix)
  {
    var rest := tool[|McpPrefix|..];
    rest[..SeparatorAt(rest)]
  }

  /** What follows the server segment: empty, or starting with `__`. */
  function Remainder(tool: string): string
    requires StartsWith(tool, McpPrefix)
  {
    var rest := tool[|McpPrefix|..];
    rest[SeparatorAt(rest)..]
  }

  /** Drops one trailing Codex `-mcp` alias from a server segment. */
  function StripAlias(segment: string): string {
    if EndsWith(segment, CodexAlias) then segment[..|segment| - |CodexAlias|] else segment
  }

  /** The server an MCP tool belongs to; a name without the `mcp__` prefix files under `unknown`. */
  function NormalizeServerName(tool: string): string {
    if StartsWith(tool, McpPrefix) then StripAlias(Segment(tool)) else UnknownServer
  }

  /** The canonical tool name: the server segment without its `-mcp` alias; other names pass through. */
  function NormalizeToolName(tool: string): string {
    if StartsWith(tool, McpPrefix) then McpPrefix + StripAlias(Segment(tool)) + Remainder(tool) else tool
  }

  /** A name with no `__` inside is followed by the first separator of `a + b`. */
  lemma {:induction false} SeparatorAfter(a: string, b: string)
    requires NoSeparator(a)
    requires b == "" || (StartsWith(b, "__") && !EndsWith(a, "_"))
    ensures SeparatorAt(a + b) == |a|
  {
    if |a| > 0 && |a + b| >= 2 {
      assert |a| == 1 ==> a[0] != '_' by {
        if |a| == 1 {
          assert a[|a| - 1..] == [a[0]];
        }
      }
      if |a| >= 2 {
        assert !SeparatorStartsAt(a, 0);
      }
      assert !((a + b)[0] == '_' && (a + b)[1] == '_');
      assert (a + b)[1..] == a[1..] + b;
      assert NoSeparator(a[1..]) by {
        forall j | 0 <= j < |a[1..]| - 1 ensures !SeparatorStartsAt(a[1..], j) {
          assert !SeparatorStartsAt(a, j + 1);
        }
      }
      assert |a[1..]| > 0 ==> a[1..][|a[1..]| - 1..] == a[|a| - 1..];
      SeparatorAfter(a[1..], b);
    }
  }

  /** Reassembling a name from a segment and a remainder splits back into exactly those parts. */
  lemma SplitParts(segment: string, remainder: string)
    requires NoSeparator(segment)
    requires remainder == "" || (StartsWith(remainder, "__") && !EndsWith(segment, "_"))
    ensures StartsWith(McpPrefix + segment + remainder, McpPrefix)
    ensures Segment(McpPrefix + segment + remainder) == segment
    ensures Remainder(McpPrefix + segment + remainder) == remainder
  {
    var t := McpPrefix + segment + remainder;
    assert t[..|McpPrefix|] == McpPrefix;
    assert t[|McpPrefix|..] == segment + remainder;
    SeparatorAfter(segment, remainder);
    assert (segment + remainder)[..|segment|] == segment;
    assert (segment + remainder)[|segment|..] == remainder;
  }

  /** The decomposition every `mcp__` name has: prefix, segment, remainder. */
  lemma Decompose(tool: string)
    requires StartsWith(tool, McpPrefix)
    ensures tool == McpPrefix + Segment(tool) + Remainder(tool)
    ensures NoSeparator(Segment(tool))
    ensures Remainder(tool) == "" || (StartsWith(Remainder(tool), "__") && !EndsWith(Segment(tool), "_"))
  {
    var rest := tool[|McpPrefix|..];
    var k := SeparatorAt(rest);
    DecomposeJoin(tool, rest, k);
    DecomposeRemainder(rest, k);
  }

  lemma DecomposeJoin(tool: string, rest: string, k: nat)
    requires StartsWith(tool, McpPrefix) && rest == tool[|McpPrefix|..] && k <= |rest|
    ensures tool == McpPrefix + rest[..k] + rest[k..]
  {
    var seg, rem := rest[..k], rest[k..];
    assert tool == tool[..|McpPrefix|] + rest;
    assert rest == seg + rem;
    assert McpPrefix + seg + rem == McpPrefix + (seg + rem);
  }

  lemma DecomposeRemainder(rest: string, k: nat)
    requires k == SeparatorAt(rest)
    ensures rest[k..] == "" || (StartsWith(rest[k..], "__") && !EndsWith(rest[..k], "_"))
  {
    var seg, rem := rest[..k], rest[k..];
    if k < |rest| {
      assert rem[..2] == "__" by {
        assert rem[0] == rest[k] && rem[1] == rest[k + 1];
      }
      if k > 0 {
        assert seg[|seg| - 1..] == [rest[k - 1]];
      }
    }
  }

  lemma StripAliasKeepsShape(segment: string)
    requires NoSeparator(segment)
    ensures NoSeparator(StripAlias(segment))
    ensures EndsWith(segment, "_") ==> StripAlias(segment) == segment
  {
    if EndsWith(segment, CodexAlias) {
      var s := StripAlias(segment);
      forall j | 0 <= j < |s| - 1 ensures !SeparatorStartsAt(s, j) {
        assert s[j] == segment[j] && s[j + 1] == segment[j + 1];
        assert !SeparatorStartsAt(segment, j);
      }
      assert segment[|segment| - 1] == 'p';
    }
  }

  /**
   * Normalizing a normalized name changes nothing, whenever the server it
   * names neither ends in `-mcp` nor in an underscore.
   */
  lemma NormalizeIdempotent(tool: string)
    requires !EndsWith(NormalizeServerName(tool), CodexAlias) && !EndsWith(NormalizeServerName(tool), "_")
    ensures NormalizeToolName(NormalizeToolName(tool)) == NormalizeToolName(tool)
    ensures NormalizeServerName(NormalizeToolName(tool)) == NormalizeServerName(tool)
  {
    if StartsWith(tool, McpPrefix) {
      Decompose(tool);
      var server := StripAlias(Segment(tool));
      StripAliasKeepsShape(Segment(tool));
      SplitParts(server, Remainder(tool));
    }
  }

  lemma AliasedSegment(server: string)
    requires NoSeparator(server) && !EndsWith(server, "_")
    ensures NoSeparator(server + CodexAlias) && !EndsWith(server + CodexAlias, "_")
    ensures StripAlias(server + CodexAlias) == server
  {
    var aliased := server + CodexAlias;
    assert aliased[|aliased| - 1..] == "p";
    forall j | 0 <= j < |aliased| - 1 ensures !SeparatorStartsAt(aliased, j) {
      if j < |server| - 1 {
        assert aliased[j] == server[j] && aliased[j + 1] == server[j + 1];
        assert !SeparatorStartsAt(server, j);
      }
    }
    assert aliased[|aliased| - 4..] == CodexAlias && aliased[..|aliased| - 4] == server;
  }

  /** The plain spelling `mcp__<server>__<tool>` is already canonical. */
  lemma PlainNameIsCanonical(server: string, tool: string)
    requires NoSeparator(server) && !EndsWith(server, "_") && !EndsWith(server, CodexAlias)
    ensures NormalizeServerName(McpPrefix + server + "__" + tool) == server
    ensures NormalizeToolName(McpPrefix + server + "__" + tool) == McpPrefix + server + "__" + tool
  {
    var rem := "__" + tool;
    assert StartsWith(rem, "__");
    SplitParts(server, rem);
    assert McpPrefix + server + "__" + tool == McpPrefix + server + rem;
  }

  /**
   * Codex's `<server>-mcp` spelling and the plain spelling of the same server
   * normalize to one server key and one tool name.
   */
  lemma AliasCollapses(server: string, tool: string)
    requires NoSeparator(server) && !EndsWith(server, "_") && !EndsWith(server, CodexAlias)
    ensures NormalizeServerName(McpPrefix + server + CodexAlias + "__" + tool) == server
    ensures NormalizeToolName(McpPrefix + server + CodexAlias + "__" + tool) == McpPrefix + server + "__" + tool
  {
    var rem := "__" + tool;
    var aliased := server + CodexAlias;
    assert StartsWith(rem, "__");
    AliasedSegment(server);
    SplitParts(aliased, rem);
    Reassociate(server, tool);
  }

  lemma Reassociate(server: string, tool: string)
    ensures McpPrefix + server + CodexAlias + "__" + tool == McpPrefix + (server + CodexAlias) + ("__" + tool)
    ensures McpPrefix + server + "__" + tool == McpPrefix + server + ("__" + tool)
  {
  }

  /** The `zen` server under both spellings, as the tracker's cases name it. */
  lemma ZenExamples()
    ensures NormalizeServerName("mcp__zen__chat") == "zen" && NormalizeToolName("mcp__zen__chat") == "mcp__zen__chat"
    ensures NormalizeServerName("mcp__zen-mcp__chat") == "zen" && NormalizeToolName("mcp__zen-mcp__chat") == "mcp__zen__chat"
  {
    assert "mcp__zen__chat" == McpPrefix + "zen" + "__" + "chat";
    assert "mcp__zen-mcp__chat" == McpPrefix + "zen" + CodexAlias + "__" + "chat";
    PlainNameIsCanonical("zen", "chat");
    AliasCollapses("zen", "chat");
  }

  /** A hyphenated server keeps its hyphens; only the trailing `-mcp` goes. */
  lemma BraveSearchExamples()
    ensures NormalizeServerName("mcp__brave-search__web") == "brave-search"
    ensures NormalizeServerName("mcp__brave-search-mcp__web") == "brave-search"
    ensures NormalizeToolName("mcp__brave-search-mcp__web") == "mcp__brave-search__web"
  {
    assert "mcp__brave-search__web" == McpPrefix + "brave-search" + "__" + "web";
    assert "mcp__brave-search-mcp__web" == McpPrefix + "brave-search" + CodexAlias + "__" + "web";
    PlainNameIsCanonical("brave-search", "web");
    AliasCollapses("brave-search", "web");
  }

  /** A built-in tool such as `Read` files under `unknown`, name unchanged. */
  lemma NonMcpExample()
    ensures NormalizeServerName("Read") == UnknownServer && NormalizeToolName("Read") == "Read"
  {
  }

  /**
   * A canonical tool name does not always fix its server: a segment ending in
   * `_-mcp` loses its alias and leaves an underscore that merges with the
   * separator, so two servers can file a tool under one name.
   */
  lemma SharedToolName()
    ensures NormalizeToolName("mcp__a_-mcp__b") == NormalizeToolName("mcp__a___b") == "mcp__a___b"
    ensures NormalizeServerName("mcp__a_-mcp__b") == "a_" && NormalizeServerName("mcp__a___b") == "a"
  {
    AliasedUnderscoreName();
    TripleUnderscoreName();
  }

  lemma AliasedUnderscoreName()
    ensures NormalizeToolName("mcp__a_-mcp__b") == "mcp__a___b" && NormalizeServerName("mcp__a_-mcp__b") == "a_"
  {
    AliasedUnderscore();
    assert "mcp__a_-mcp__b" == McpPrefix + "a_-mcp" + "__b";
    SplitParts("a_-mcp", "__b");
  }

  lemma TripleUnderscoreName()
    ensures NormalizeToolName("mcp__a___b") == "mcp__a___b" && NormalizeServerName("mcp__a___b") == "a"
  {
    var t := McpPrefix + "a" + "___b";
    assert "mcp__a___b" == t;
    assert NoSeparator("a") && !EndsWith("a", "_");
    assert StartsWith("___b", "__");
    SplitParts("a", "___b");
    assert StripAlias("a") == "a";
    assert NormalizeToolName(t) == McpPrefix + "a" + "___b";
  }

  lemma AliasedUnderscore()
    ensures NoSeparator("a_-mcp") && StripAlias("a_-mcp") == "a_"
  {
    forall j | 0 <= j < 5 ensures !SeparatorStartsAt("a_-mcp", j) {
      assert "a_-mcp"[j + 1] != '_' || "a_-mcp"[j] != '_';
    }
    assert "a_-mcp" == "a_" + CodexAlias;
  }
}
