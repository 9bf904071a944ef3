/**
 * The arithmetic behind the live dashboard (`RichDisplay`): token and
 * duration labels, the cache-inefficiency hint, the line budget of the MCP
 * servers panel with its pinned-first ordering, the recent-activity feed and
 * the top servers of the final summary. Rendering itself (panels, styles,
 * column widths) is not modelled; the panel is described by the lines it
 * shows.
 */
module Display {
  import opened Wrappers
  import opened Text
  import opened Ordering
  import Analysis

  // ---------------------------------------------------------------- token labels

  /**
   * The three shapes of `_format_tokens`: the plain number, a whole number
   * of thousands with a "K", or the count shown in millions with an "M"
   * (whose one-decimal digits come from float formatting and are not
   * modelled, so the label keeps the raw count).
   */
  datatype TokenLabel = Plain(value: int) | Kilo(thousands: int) | Mega(tokens: int)

  /** `k` thousands is a nearest whole number of thousands to `t`, ties going to the even one. */
  predicate NearestThousands(k: int, t: int) {
    -500 <= k * 1000 - t <= 500 && ((k * 1000 - t == 500 || k * 1000 - t == -500) ==> k % 2 == 0)
  }

  /**
   * `f"{t / 1000:.0f}"` for an integer `t` below one million: Python rounds
   * half to even, and `t / 1000` is exact whenever it is halfway between
   * two integers, so integer rounding gives the same digits.
   */
  function RoundedThousands(t: int): (k: int)
    ensures NearestThousands(k, t)
  {
    var q := t / 1000;
    var r := t % 1000;
    if r > 500 || (r == 500 && q % 2 == 1) then q + 1 else q
  }

  /** The nearest-even rounding is unique. */
  lemma NearestThousandsUnique(k: int, j: int, t: int)
    requires NearestThousands(k, t) && NearestThousands(j, t)
    ensures k == j
  {
    assert -1000 <= (k - j) * 1000 <= 1000;
  }

  /** `_format_tokens`, as written: below 1000 plain, below one million in K, otherwise in M. */
  function FormatTokens(t: int): (r: TokenLabel)
    ensures r.Plain? <==> t < 1000
    ensures r.Kilo? <==> 1000 <= t < 1000000
    ensures r.Mega? <==> t >= 1000000
    ensures r.Plain? ==> r.value == t
    ensures r.Kilo? ==> NearestThousands(r.thousands, t) && 1 <= r.thousands <= 1000
    ensures r.Mega? ==> r.tokens == t
  {
    if t >= 1000000 then Mega(t)
    else if t >= 1000 then Kilo(RoundedThousands(t))
    else Plain(t)
  }

  /** 999 500 tokens, still below the M threshold, is labelled "1000K". */
  lemma KiloLabelReachesThousand()
    ensures FormatTokens(999500) == Kilo(1000)
    ensures FormatTokens(999999) == Kilo(1000)
  {
    assert NearestThousands(1000, 999500);
    NearestThousandsUnique(FormatTokens(999500).thousands, 1000, 999500);
    assert NearestThousands(1000, 999999);
    NearestThousandsUnique(FormatTokens(999999).thousands, 1000, 999999);
  }

  /** The K threshold moved to where the rounded label would reach 1000, so a K label always has at most three digits. */
  function FormatTokensCorrected(t: int): (r: TokenLabel)
    ensures r.Plain? <==> t < 1000
    ensures r.Kilo? <==> 1000 <= t < 999500
    ensures r.Mega? <==> t >= 999500
    ensures r.Plain? ==> r.value == t
    ensures r.Kilo? ==> NearestThousands(r.thousands, t) && 1 <= r.thousands <= 999
    ensures r.Mega? ==> r.tokens == t
  {
    if t >= 1000 && RoundedThousands(t) >= 1000 then Mega(t)
    else if t >= 1000 then Kilo(RoundedThousands(t))
    else Plain(t)
  }

  /** Below 999 500 the corrected labels are the ones the dashboard shows. */
  lemma CorrectedAgreesBelow(t: int)
    requires t < 999500
    ensures FormatTokensCorrected(t) == FormatTokens(t)
  {
  }

  // ---------------------------------------------------------------- durations

  /** Python's `int(x)` on a float: truncation toward zero. */
  function Trunc(x: real): (r: int)
    ensures x >= 0.0 ==> r as real <= x < r as real + 1.0
    ensures x < 0.0 ==> r as real - 1.0 < x <= r as real
  {
    if x >= 0.0 then x.Floor else -((-x).Floor)
  }

  /** `divmod(total, 3600)` and then `divmod(remainder, 60)`, with Python's floor division. */
  function Clock(total: int): (c: (int, int, int))
    ensures c.0 * 3600 + c.1 * 60 + c.2 == total
    ensures 0 <= c.1 < 60 && 0 <= c.2 < 60
  {
    var hours := total / 3600;
    var remainder := total % 3600;
    (hours, remainder / 60, remainder % 60)
  }

  /** Hours, minutes below 60 and seconds below 60 are determined by the total. */
  lemma ClockUnique(total: int, h: int, m: int, s: int)
    requires h * 3600 + m * 60 + s == total && 0 <= m < 60 && 0 <= s < 60
    ensures Clock(total) == (h, m, s)
  {
    var r := m * 60 + s;
    assert 0 <= r < 3600;
    assert total / 3600 == h && total % 3600 == r;
    assert r / 60 == m && r % 60 == s;
  }

  /** `f"{n:02d}"`: at least two characters, a leading zero for one digit. */
  function Pad2(n: int): string {
    if 0 <= n < 10 then "0" + IntToString(n) else IntToString(n)
  }

  lemma Pad2RoundTrip(n: int)
    ensures ParseInt(Pad2(n)) == n
    ensures 0 <= n < 100 ==> |Pad2(n)| == 2
  {
    IntToStringRoundTrip(n);
    if 0 <= n < 10 {
      var d := IntToString(n);
      assert d == [DigitChar(n)];
      assert Pad2(n)[..1] == "0";
      assert DigitsValue(Pad2(n)) == DigitsValue(Pad2(n)[..1]) * 10 + (d[0] as int - 48);
    } else if 10 <= n < 100 {
      assert NatToString(n) == NatToString(n / 10) + [DigitChar(n % 10)];
    }
  }

  /** `_format_duration`: zero-padded HH:MM:SS of the truncated seconds. */
  function FormatDuration(seconds: real): string {
    var c := Clock(Trunc(seconds));
    Pad2(c.0) + ":" + Pad2(c.1) + ":" + Pad2(c.2)
  }

  /** Reading the three fields back gives the truncated seconds: the clock text loses nothing. */
  lemma FormatDurationRoundTrip(seconds: real)
    ensures var s := FormatDuration(seconds);
      |s| >= 8 && s[|s| - 6] == ':' && s[|s| - 3] == ':'
      && ParseInt(s[..|s| - 6]) * 3600 + ParseInt(s[|s| - 5..|s| - 3]) * 60 + ParseInt(s[|s| - 2..]) == Trunc(seconds)
  {
    var c := Clock(Trunc(seconds));
    Pad2RoundTrip(c.0);
    Pad2RoundTrip(c.1);
    Pad2RoundTrip(c.2);
    Pad2Wide(c.0);
    var hh, mm, ss := Pad2(c.0), Pad2(c.1), Pad2(c.2);
    assert FormatDuration(seconds) == hh + ":" + mm + ":" + ss;
    ClockTextSplit(hh, mm, ss);
    assert c.0 * 3600 + c.1 * 60 + c.2 == Trunc(seconds);
  }

  lemma Pad2Wide(n: int)
    ensures |Pad2(n)| >= 2
  {
    if !(0 <= n < 10) {
      if n < 0 {
        assert |IntToString(n)| == 1 + |NatToString(-n)|;
      } else {
        assert NatToString(n) == NatToString(n / 10) + [DigitChar(n % 10)];
      }
    }
  }

  lemma ClockTextSplit(hh: string, mm: string, ss: string)
    requires |hh| >= 2 && |mm| == 2 && |ss| == 2
    ensures var s := hh + ":" + mm + ":" + ss;
      |s| >= 8 && s[|s| - 6] == ':' && s[|s| - 3] == ':'
      && s[..|s| - 6] == hh && s[|s| - 5..|s| - 3] == mm && s[|s| - 2..] == ss
  {
  }

  /** One component of the human-friendly duration: a value and its unit letter. */
  datatype Part = Part(value: int, unit: char)

  function UnitSeconds(u: char): int {
    if u == 'h' then 3600 else if u == 'm' then 60 else 1
  }

  /** The number of seconds a list of components stands for. */
  function Denotes(ps: seq<Part>): int {
    if |ps| == 0 then 0 else Denotes(ps[..|ps| - 1]) + ps[|ps| - 1].value * UnitSeconds(ps[|ps| - 1].unit)
  }

  function Term(p: Part): int {
    p.value * UnitSeconds(p.unit)
  }

  lemma DenotesShort(ps: seq<Part>)
    requires 1 <= |ps| <= 3
    ensures Denotes(ps) == Term(ps[0]) + (if |ps| > 1 then Term(ps[1]) else 0) + (if |ps| > 2 then Term(ps[2]) else 0)
  {
    assert ps[..1][..0] == [];
    if |ps| >= 2 {
      assert ps[..2][..1] == ps[..1];
    }
    if |ps| == 3 {
      assert ps[..2] == ps[..|ps| - 1];
    }
  }

  /** The component of a clock reading a unit letter names. */
  function ClockPart(c: (int, int, int), u: char): int {
    if u == 'h' then c.0 else if u == 'm' then c.1 else c.2
  }

  /**
   * The components `_format_duration_human` prints. Under a minute, only the
   * truncated seconds. Otherwise hours, minutes and seconds, largest first,
   * each one the clock's own value; zero hours and zero trailing units are
   * dropped (only minutes between hours and seconds may show as "0m").
   */
  function HumanParts(seconds: real): (ps: seq<Part>)
    ensures |ps| >= 1
    ensures Denotes(ps) == Trunc(seconds)
    ensures forall i :: 0 <= i < |ps| ==> ps[i].unit in "hms"
    ensures forall i, j :: 0 <= i < j < |ps| ==> UnitSeconds(ps[i].unit) > UnitSeconds(ps[j].unit)
    ensures seconds < 60.0 ==> ps == [Part(Trunc(seconds), 's')]
    ensures seconds >= 60.0 ==> var c := Clock(Trunc(seconds));
      && (forall i :: 0 <= i < |ps| ==> ps[i].value == ClockPart(c, ps[i].unit))
      && ps[0].value > 0 && ps[|ps| - 1].value > 0
  {
    if seconds < 60.0 then [Part(Trunc(seconds), 's')]
    else ClockParts(Clock(Trunc(seconds)))
  }

  /** The branch table of `_format_duration_human` from a minute up, on the clock reading. */
  function ClockParts(c: (int, int, int)): (ps: seq<Part>)
    requires c.0 >= 0 && (c.0 > 0 || c.1 > 0) && 0 <= c.1 < 60 && 0 <= c.2 < 60
    ensures |ps| >= 1
    ensures Denotes(ps) == c.0 * 3600 + c.1 * 60 + c.2
    ensures forall i :: 0 <= i < |ps| ==> ps[i].unit in "hms"
    ensures forall i, j :: 0 <= i < j < |ps| ==> UnitSeconds(ps[i].unit) > UnitSeconds(ps[j].unit)
    ensures forall i :: 0 <= i < |ps| ==> ps[i].value == ClockPart(c, ps[i].unit)
    ensures ps[0].value > 0 && ps[|ps| - 1].value > 0
  {
    var ps :=
      if c.0 > 0 then
        if c.2 > 0 then [Part(c.0, 'h'), Part(c.1, 'm'), Part(c.2, 's')]
        else if c.1 > 0 then [Part(c.0, 'h'), Part(c.1, 'm')]
        else [Part(c.0, 'h')]
      else if c.2 > 0 then [Part(c.1, 'm'), Part(c.2, 's')]
      else [Part(c.1, 'm')];
    DenotesShort(ps);
    ps
  }

  function PartText(p: Part): string {
    IntToString(p.value) + [p.unit]
  }

  /** The components joined by single spaces. */
  function Render(ps: seq<Part>): string {
    if |ps| == 0 then "" else if |ps| == 1 then PartText(ps[0]) else PartText(ps[0]) + " " + Render(ps[1..])
  }

  /** `_format_duration_human`. */
  function FormatDurationHuman(seconds: real): string {
    Render(HumanParts(seconds))
  }

  /** The documented examples of the human-friendly format, under a minute and under an hour. */
  lemma HumanExamplesShort()
    ensures FormatDurationHuman(5.0) == "5s"
    ensures FormatDurationHuman(59.9) == "59s"
    ensures FormatDurationHuman(150.0) == "2m 30s"
  {
    assert Trunc(5.0) == 5;
    assert Trunc(59.9) == 59;
    assert NatToString(59) == NatToString(5) + [DigitChar(9)];
    assert Trunc(150.0) == 150;
    ClockUnique(150, 0, 2, 30);
    assert NatToString(30) == NatToString(3) + [DigitChar(0)];
    var ps := [Part(2, 'm'), Part(30, 's')];
    assert HumanParts(150.0) == ps;
    assert ps[1..] == [Part(30, 's')];
  }

  /** The documented example of whole hours. */
  lemma HumanExampleHour()
    ensures FormatDurationHuman(3600.0) == "1h"
  {
    assert Trunc(3600.0) == 3600;
    ClockUnique(3600, 1, 0, 0);
    assert HumanParts(3600.0) == [Part(1, 'h')];
    assert PartText(Part(1, 'h')) == "1h";
  }

  /** The documented example of hours and minutes. */
  lemma HumanExampleHourMinutes()
    ensures FormatDurationHuman(4500.0) == "1h 15m"
  {
    assert Trunc(4500.0) == 4500;
    ClockUnique(4500, 1, 15, 0);
    var ps := [Part(1, 'h'), Part(15, 'm')];
    assert HumanParts(4500.0) == ps;
    assert ps[1..] == [Part(15, 'm')];
    assert PartText(Part(1, 'h')) == "1h";
    assert PartText(Part(15, 'm')) == "15m" by {
      assert NatToString(15) == NatToString(1) + [DigitChar(5)];
    }
  }

  /** The documented example of the human-friendly format with all three units. */
  lemma HumanExampleFull()
    ensures FormatDurationHuman(9015.0) == "2h 30m 15s"
  {
    assert Trunc(9015.0) == 9015;
    ClockUnique(9015, 2, 30, 15);
    var ps := [Part(2, 'h'), Part(30, 'm'), Part(15, 's')];
    assert HumanParts(9015.0) == ps;
    RenderThree(Part(2, 'h'), Part(30, 'm'), Part(15, 's'));
    FullExampleTexts();
    assert "2h" + " " + ("30m" + " " + "15s") == "2h 30m 15s";
  }

  lemma FullExampleTexts()
    ensures PartText(Part(2, 'h')) == "2h" && PartText(Part(30, 'm')) == "30m" && PartText(Part(15, 's')) == "15s"
  {
    assert NatToString(30) == NatToString(3) + [DigitChar(0)];
    assert NatToString(15) == NatToString(1) + [DigitChar(5)];
  }

  /** Zero minutes between hours and seconds still show. */
  lemma HumanExampleZeroMinutes()
    ensures FormatDurationHuman(3605.0) == "1h 0m 5s"
  {
    assert Trunc(3605.0) == 3605;
    ClockUnique(3605, 1, 0, 5);
    var ps := [Part(1, 'h'), Part(0, 'm'), Part(5, 's')];
    assert HumanParts(3605.0) == ps;
    RenderThree(Part(1, 'h'), Part(0, 'm'), Part(5, 's'));
    assert PartText(Part(1, 'h')) == "1h";
    assert PartText(Part(0, 'm')) == "0m";
    assert PartText(Part(5, 's')) == "5s";
  }

  lemma RenderThree(a: Part, b: Part, c: Part)
    ensures Render([a, b, c]) == PartText(a) + " " + (PartText(b) + " " + PartText(c))
  {
    assert [a, b, c][1..] == [b, c];
    assert [b, c][1..] == [c];
    assert Render([b, c]) == PartText(b) + " " + PartText(c);
  }

  // ---------------------------------------------------------------- cache hint

  /** The hints `_get_cache_inefficiency_hint` can give, and no hint. */
  datatype Hint = NoReuseHint | LowReuseHint | CreationOverSavingsHint | NoActivityHint | NoHint

  function HintText(h: Hint): string {
    match h
    case NoReuseHint => "(new context, no reuse)"
    case LowReuseHint => "(high creation, low reuse)"
    case CreationOverSavingsHint => "(creation > savings)"
    case NoActivityHint => "(no cache activity)"
    case NoHint => ""
  }

  /** `_get_cache_inefficiency_hint`, on the session's cache-created and cache-read counts. */
  function CacheInefficiencyHint(created: int, read: int): Hint {
    if created > 0 && read == 0 then NoReuseHint
    else if created > 0 && read > 0 then
      (if Analysis.Ratio(created, read) < Analysis.LowReuseRatio then LowReuseHint else CreationOverSavingsHint)
    else if created == 0 && read == 0 then NoActivityHint
    else NoHint
  }

  /**
   * The hint names the same case as the session's cache classification:
   * no reuse, low reuse, reuse that is still judged against cost, no
   * activity, and nothing for the remaining cases.
   */
  lemma HintFollowsClassification(created: int, read: int)
    ensures var reason := Analysis.Classify(created, read).1;
      && (CacheInefficiencyHint(created, read) == NoReuseHint <==> reason == Analysis.NoReuse)
      && (CacheInefficiencyHint(created, read) == LowReuseHint <==> reason == Analysis.LowReuse)
      && (CacheInefficiencyHint(created, read) == CreationOverSavingsHint <==> reason == Analysis.GoodReuse)
      && (CacheInefficiencyHint(created, read) == NoActivityHint <==> reason == Analysis.NoActivity)
      && (CacheInefficiencyHint(created, read) == NoHint <==> reason == Analysis.ReadsOnly || reason == Analysis.Unclassified)
  {
    if created > 0 && read < 0 {
      assert read as real / created as real < 0.0;
    }
  }

  /** The low-reuse hint is exactly "fewer than one read token per ten created". */
  lemma LowReuseHintRule(created: int, read: int)
    ensures CacheInefficiencyHint(created, read) == LowReuseHint <==> created > 0 && read > 0 && read * 10 < created
  {
    if created > 0 && read > 0 {
      RatioBelowTenth(created, read);
    }
  }

  lemma RatioBelowTenth(created: int, read: int)
    requires created > 0
    ensures Analysis.Ratio(created, read) < Analysis.LowReuseRatio <==> read * 10 < created
  {
    var q := read as real / created as real;
    assert q * created as real == read as real;
  }

  // ---------------------------------------------------------------- the servers panel

  /** One tool row of the server hierarchy snapshot: short name, calls and tokens. */
  datatype ToolEntry = ToolEntry(name: string, calls: int, tokens: int)

  /** One server row of the snapshot: name, calls, tokens and its tools in display order. */
  datatype ServerEntry = ServerEntry(name: string, calls: int, tokens: int, tools: seq<ToolEntry>)

  /** A line of the panel. */
  datatype Item = ServerLine(server: string, calls: int, tokens: int) | ToolLine(tool: ToolEntry)

  /** "+N more server(s), +M more tool(s)", "+M more tool(s)", or no note. */
  datatype Note = NoNote | MoreServersAndTools(servers: int, tools: int) | MoreTools(tools: int)

  /** The panel: either "No MCP tools called yet", or the lines shown and what was held back. */
  datatype ToolsPanel =
    | NoToolsYet
    | Panel(lines: seq<Item>, serversShown: nat, toolsShown: nat, truncated: bool, note: Note, showTokens: bool)

  const MaxDisplayLines := 9

  function ToolLines(ts: seq<ToolEntry>): seq<Item> {
    if |ts| == 0 then [] else [ToolLine(ts[0])] + ToolLines(ts[1..])
  }

  /** Every line the panel would show with no budget: each server followed by its tools. */
  function Flatten(list: seq<ServerEntry>): seq<Item> {
    if |list| == 0 then []
    else [ServerLine(list[0].name, list[0].calls, list[0].tokens)] + ToolLines(list[0].tools) + Flatten(list[1..])
  }

  /**
   * How many lines of `flat` fit: a server line needs its own line and one
   * more (it is shown only at positions 0..7), a tool line any of the nine.
   */
  function ShownCount(flat: seq<Item>): (k: nat)
    ensures k <= |flat| && k <= MaxDisplayLines
  {
    if |flat| <= MaxDisplayLines - 1 then |flat|
    else if flat[MaxDisplayLines - 1].ServerLine? then MaxDisplayLines - 1
    else MaxDisplayLines
  }

  function NumServers(items: seq<Item>): nat {
    if |items| == 0 then 0 else NumServers(items[..|items| - 1]) + (if items[|items| - 1].ServerLine? then 1 else 0)
  }

  function TotalTools(list: seq<ServerEntry>): nat {
    if |list| == 0 then 0 else |list[0].tools| + TotalTools(list[1..])
  }

  function TotalTokens(list: seq<ServerEntry>): int {
    if |list| == 0 then 0 else list[0].tokens + TotalTokens(list[1..])
  }

  /** The truncation note from the remaining counts. */
  function NoteFor(truncated: bool, remainingServers: int, remainingTools: int): Note {
    if !truncated then NoNote
    else if remainingServers > 0 && remainingTools > 0 then MoreServersAndTools(remainingServers, remainingTools)
    else if remainingTools > 0 then MoreTools(remainingTools)
    else NoNote
  }

  function PinKey(pinned: set<string>): ServerEntry -> int {
    (s: ServerEntry) => if s.name in pinned then 0 else 1
  }

  /** The server order of the panel: a stable sort on "is pinned" when any server is pinned. */
  function PinOrder(list: seq<ServerEntry>, pinned: set<string>): seq<ServerEntry> {
    if |pinned| > 0 then SortBy(list, PinKey(pinned)) else list
  }

  /** The lines so far all fit where they stand. */
  ghost predicate Fits(lines: seq<Item>) {
    |lines| <= MaxDisplayLines && forall i :: 0 <= i < |lines| && lines[i].ServerLine? ==> i < MaxDisplayLines - 1
  }

  /** The walk over `flat` stopped after `lines`, at an item that did not fit. */
  ghost predicate Stopped(flat: seq<Item>, lines: seq<Item>) {
    |lines| < |flat| && flat[..|lines|] == lines
    && ((flat[|lines|].ServerLine? && |lines| >= MaxDisplayLines - 1) || (flat[|lines|].ToolLine? && |lines| >= MaxDisplayLines))
  }

  lemma {:induction false} FitsPush(lines: seq<Item>, x: Item)
    requires Fits(lines) && |lines| < MaxDisplayLines && (x.ServerLine? ==> |lines| < MaxDisplayLines - 1)
    ensures Fits(lines + [x])
  {
  }

  lemma {:induction false} NumServersPush(lines: seq<Item>, x: Item)
    ensures NumServers(lines + [x]) == NumServers(lines) + (if x.ServerLine? then 1 else 0)
  {
    assert (lines + [x])[..|lines|] == lines;
  }

  /** Taking the next item off the rest of the walk. */
  lemma {:induction false} Advance(flat: seq<Item>, lines: seq<Item>, x: Item, rest: seq<Item>)
    requires flat == lines + ([x] + rest)
    ensures flat == (lines + [x]) + rest
    ensures Stopped(flat, lines) <==>
      (x.ServerLine? && |lines| >= MaxDisplayLines - 1) || (x.ToolLine? && |lines| >= MaxDisplayLines)
  {
    assert flat[..|lines|] == lines;
    assert flat[|lines|] == x;
  }

  /** Where the walk ends is where `ShownCount` says. */
  lemma {:induction false} WalkEndsAtShownCount(flat: seq<Item>, lines: seq<Item>, truncated: bool)
    requires Fits(lines)
    requires if truncated then Stopped(flat, lines) else flat == lines
    ensures lines == flat[..ShownCount(flat)]
    ensures truncated <==> ShownCount(flat) < |flat|
  {
    var n := |lines|;
    if n == MaxDisplayLines {
      assert flat[..n][MaxDisplayLines - 1] == lines[MaxDisplayLines - 1];
      assert !lines[MaxDisplayLines - 1].ServerLine?;
    }
  }

  /** The walk's first step into a server's block. */
  lemma {:induction false} EnterServer(flat: seq<Item>, lines: seq<Item>, list: seq<ServerEntry>, si: int)
    requires 0 <= si < |list|
    requires flat == lines + Flatten(list[si..])
    ensures flat == lines + ([ServerLine(list[si].name, list[si].calls, list[si].tokens)] + (ToolLines(list[si].tools[0..]) + Flatten(list[si + 1..])))
  {
    assert list[si..][1..] == list[si + 1..];
    assert list[si].tools[0..] == list[si].tools;
  }

  lemma {:induction false} NextTool(ts: seq<ToolEntry>, ti: int)
    requires 0 <= ti < |ts|
    ensures ToolLines(ts[ti..]) == [ToolLine(ts[ti])] + ToolLines(ts[ti + 1..])
  {
    assert ts[ti..][1..] == ts[ti + 1..];
  }

  lemma {:induction false} LeaveServer(flat: seq<Item>, lines: seq<Item>, ts: seq<ToolEntry>, rest: seq<Item>)
    requires flat == lines + (ToolLines(ts[|ts|..]) + rest)
    ensures flat == lines + rest
  {
    assert ts[|ts|..] == [];
  }

  lemma {:induction false} FlattenPrefixAssoc(flat: seq<Item>, lines: seq<Item>, a: seq<Item>, b: seq<Item>, x: Item)
    requires flat == lines + (([x] + a) + b)
    ensures flat == lines + ([x] + (a + b))
  {
    assert ([x] + a) + b == [x] + (a + b);
  }

  // -------------------------------------------------- counts of the flattened hierarchy

  lemma {:induction false} NumServersAppend(a: seq<Item>, b: seq<Item>)
    ensures NumServers(a + b) == NumServers(a) + NumServers(b)
    decreases |b|
  {
    if |b| > 0 {
      var b0 := b[..|b| - 1];
      NumServersAppend(a, b0);
      assert (a + b)[..|a + b| - 1] == a + b0;
    } else {
      assert a + b == a;
    }
  }

  lemma {:induction false} ToolLinesCounts(ts: seq<ToolEntry>)
    ensures NumServers(ToolLines(ts)) == 0 && |ToolLines(ts)| == |ts|
  {
    if |ts| > 0 {
      ToolLinesCounts(ts[1..]);
      NumServersAppend([ToolLine(ts[0])], ToolLines(ts[1..]));
      assert [ToolLine(ts[0])][..0] == [];
    }
  }

  /** The flattened hierarchy holds one line per server and one per tool. */
  lemma {:induction false} FlattenCounts(list: seq<ServerEntry>)
    ensures NumServers(Flatten(list)) == |list|
    ensures |Flatten(list)| == |list| + TotalTools(list)
  {
    if |list| > 0 {
      var head := [ServerLine(list[0].name, list[0].calls, list[0].tokens)];
      FlattenCounts(list[1..]);
      ToolLinesCounts(list[0].tools);
      NumServersAppend(head, ToolLines(list[0].tools));
      NumServersAppend(head + ToolLines(list[0].tools), Flatten(list[1..]));
      assert head[..0] == [];
    }
  }

  lemma {:induction false} TotalToolsInsert(x: ServerEntry, s: seq<ServerEntry>, key: ServerEntry -> int)
    ensures TotalTools(Insert(x, s, key)) == |x.tools| + TotalTools(s)
    ensures |Insert(x, s, key)| == |s| + 1
  {
    if |s| > 0 && key(x) > key(s[0]) {
      TotalToolsInsert(x, s[1..], key);
      assert ([s[0]] + Insert(x, s[1..], key))[1..] == Insert(x, s[1..], key);
    } else {
      assert ([x] + s)[1..] == s;
    }
  }

  /** Reordering the servers changes neither how many there are nor how many tools they hold. */
  lemma {:induction false} TotalToolsSorted(s: seq<ServerEntry>, key: ServerEntry -> int)
    ensures TotalTools(SortBy(s, key)) == TotalTools(s) && |SortBy(s, key)| == |s|
  {
    if |s| > 0 {
      TotalToolsSorted(s[1..], key);
      TotalToolsInsert(s[0], SortBy(s[1..], key), key);
    }
  }

  /** The note's counts are the server and tool lines the budget held back. */
  lemma RemainingAreHeldBack(hierarchy: seq<ServerEntry>, pinned: set<string>)
    ensures var flat := Flatten(PinOrder(hierarchy, pinned)); var k := ShownCount(flat);
      && |hierarchy| - NumServers(flat[..k]) == NumServers(flat[k..])
      && TotalTools(hierarchy) - (k - NumServers(flat[..k])) == |flat| - k - NumServers(flat[k..])
  {
    var list := PinOrder(hierarchy, pinned);
    var flat := Flatten(list);
    var k := ShownCount(flat);
    if |pinned| > 0 {
      TotalToolsSorted(hierarchy, PinKey(pinned));
    }
    FlattenCounts(list);
    NumServersAppend(flat[..k], flat[k..]);
    assert flat[..k] + flat[k..] == flat;
  }

  /** A server line is shown only with room for one more line, so a shown server with tools shows its first tool. */
  lemma HeaderHasRoom(flat: seq<Item>, i: int)
    requires 0 <= i < ShownCount(flat) && flat[i].ServerLine?
    ensures i <= MaxDisplayLines - 2
    ensures i + 1 < |flat| && flat[i + 1].ToolLine? ==> i + 1 < ShownCount(flat)
  {
  }

  /** Sorted keys drawn from {0, 1}: the 0s and then the 1s, each in order. */
  lemma {:induction false} SortedTwoKeys<T>(s: seq<T>, key: T -> int)
    requires SortedBy(s, key) && forall i :: 0 <= i < |s| ==> key(s[i]) == 0 || key(s[i]) == 1
    ensures s == KeepKey(s, key, 0) + KeepKey(s, key, 1)
  {
    if |s| > 0 {
      SortedTwoKeys(s[1..], key);
      if key(s[0]) == 1 {
        AllOnes(s, key);
      }
      assert s == [s[0]] + s[1..];
    }
  }

  lemma {:induction false} AllOnes<T>(s: seq<T>, key: T -> int)
    requires forall i :: 0 <= i < |s| ==> key(s[i]) == 1
    ensures KeepKey(s, key, 0) == [] && KeepKey(s, key, 1) == s
  {
    if |s| > 0 {
      AllOnes(s[1..], key);
      assert s == [s[0]] + s[1..];
    }
  }

  /**
   * With any server pinned, the panel order is every pinned server in its
   * original order followed by every other server in its original order,
   * and no server is lost or added.
   */
  lemma PinnedFirst(list: seq<ServerEntry>, pinned: set<string>)
    requires |pinned| > 0
    ensures PinOrder(list, pinned) == KeepKey(list, PinKey(pinned), 0) + KeepKey(list, PinKey(pinned), 1)
    ensures multiset(PinOrder(list, pinned)) == multiset(list)
  {
    var key := PinKey(pinned);
    var sorted := SortBy(list, key);
    SortByStable(list, key, 0);
    SortByStable(list, key, 1);
    SortedTwoKeys(sorted, key);
  }

  // ---------------------------------------------------------------- summary and feed

  function ServerTokens(s: ServerEntry): int {
    s.tokens
  }

  /**
   * The final summary's "Top:" servers: the three with the most tokens,
   * largest first; no server left out has more
   * tokens than one listed.
   */
  function TopServers(hierarchy: seq<ServerEntry>): (r: seq<ServerEntry>)
    ensures |r| == if 3 < |hierarchy| then 3 else |hierarchy|
    ensures forall i, j :: 0 <= i < j < |r| ==> r[i].tokens >= r[j].tokens
    ensures multiset(r) <= multiset(hierarchy)
    ensures forall x, i :: x in multiset(hierarchy) - multiset(r) && 0 <= i < |r| ==> x.tokens <= r[i].tokens
  {
    TopByFacts(hierarchy, ServerTokens, 3);
    TopBy(hierarchy, ServerTokens, 3)
  }

  /** `f"{name}({calls})"`. */
  function ServerLabel(s: ServerEntry): string {
    s.name + "(" + IntToString(s.calls) + ")"
  }

  /** The "Top:" labels, printed only when some MCP call was made and the hierarchy is not empty. */
  function TopSummary(totalToolCalls: int, hierarchy: seq<ServerEntry>): (r: Option<seq<string>>)
    ensures r.Some? <==> totalToolCalls > 0 && |hierarchy| > 0
    ensures r.Some? ==> |r.value| == |TopServers(hierarchy)| && forall i :: 0 <= i < |r.value| ==> r.value[i] == ServerLabel(TopServers(hierarchy)[i])
  {
    if totalToolCalls > 0 && |hierarchy| > 0 then
      var top := TopServers(hierarchy);
      Some(seq(|top|, i requires 0 <= i < |top| => ServerLabel(top[i])))
    else None
  }

  /** One entry of the recent-activity feed. The timestamp is an opaque clock reading. */
  datatype FeedEvent = FeedEvent(timestamp: int, tool: string, tokens: int)

  const FeedSize := 5

  /** The last `n` elements of `s` (all of them when there are fewer). */
  function LastN<T>(s: seq<T>, n: nat): (r: seq<T>)
    ensures |r| == if |s| < n then |s| else n
    ensures r == s[|s| - |r|..]
  {
    if |s| <= n then s else s[|s| - n..]
  }

  lemma LastNAppend<T>(s: seq<T>, x: T, n: nat)
    requires n > 0
    ensures LastN(s + [x], n) == (if |LastN(s, n)| == n then LastN(s, n)[1..] else LastN(s, n)) + [x]
  {
    var t := s + [x];
    if |s| >= n {
      assert t[|t| - n..] == s[|s| - n..][1..] + [x];
    }
  }

  /**
   * The inner loop of `_build_tools`: one server's tools, each shown while a
   * line of budget remains, stopping at the first that does not fit.
   */
  method ShowTools(ghost flat: seq<Item>, tools: seq<ToolEntry>, ghost rest: seq<Item>, lines0: seq<Item>,
                   linesUsed0: nat, serversShown: nat, toolsShown0: nat)
    returns (lines: seq<Item>, linesUsed: nat, toolsShown: nat, truncated: bool)
    requires linesUsed0 == |lines0| == serversShown + toolsShown0 && serversShown == NumServers(lines0) && Fits(lines0)
    requires flat == lines0 + (ToolLines(tools) + rest)
    ensures linesUsed == |lines| == serversShown + toolsShown && serversShown == NumServers(lines) && Fits(lines)
    ensures if truncated then Stopped(flat, lines) else flat == lines + rest
  {
    lines, linesUsed, toolsShown, truncated := lines0, linesUsed0, toolsShown0, false;
    var ti := 0;
    assert tools[0..] == tools;
    while ti < |tools| && !truncated
      invariant 0 <= ti <= |tools|
      invariant linesUsed == |lines| == serversShown + toolsShown
      invariant serversShown == NumServers(lines)
      invariant Fits(lines)
      invariant if truncated then Stopped(flat, lines) else flat == lines + (ToolLines(tools[ti..]) + rest)
      decreases |tools| - ti, if truncated then 0 else 1
    {
      var tool := ToolLine(tools[ti]);
      NextTool(tools, ti);
      FlattenPrefixAssoc(flat, lines, ToolLines(tools[ti + 1..]), rest, tool);
      Advance(flat, lines, tool, ToolLines(tools[ti + 1..]) + rest);
      if linesUsed >= MaxDisplayLines {
        truncated := true;
      } else {
        FitsPush(lines, tool);
        NumServersPush(lines, tool);
        lines := lines + [tool];
        linesUsed := linesUsed + 1;
        toolsShown := toolsShown + 1;
        ti := ti + 1;
      }
    }
    if !truncated {
      LeaveServer(flat, lines, tools, rest);
    }
  }

  /** The outer loop of `_build_tools`: servers in order, while the budget lasts. */
  method WalkServers(list: seq<ServerEntry>) returns (lines: seq<Item>, serversShown: nat, toolsShown: nat, truncated: bool)
    ensures lines == Flatten(list)[..ShownCount(Flatten(list))]
    ensures truncated <==> ShownCount(Flatten(list)) < |Flatten(list)|
    ensures serversShown == NumServers(lines) && serversShown + toolsShown == |lines|
  {
    ghost var flat := Flatten(list);
    lines := [];
    var linesUsed := 0;
    serversShown, toolsShown := 0, 0;
    truncated := false;
    var si := 0;
    while si < |list| && !truncated
      invariant 0 <= si <= |list|
      invariant linesUsed == |lines| == serversShown + toolsShown
      invariant serversShown == NumServers(lines)
      invariant Fits(lines)
      invariant if truncated then Stopped(flat, lines) else flat == lines + Flatten(list[si..])
      decreases |list| - si, if truncated then 0 else 1
    {
      lines, linesUsed, serversShown, toolsShown, truncated := ShowServer(flat, list, si, lines, linesUsed, serversShown, toolsShown);
      if !truncated {
        si := si + 1;
      }
    }
    if !truncated {
      assert list[si..] == [];
      assert flat == lines;
    }
    WalkEndsAtShownCount(flat, lines, truncated);
  }

  /** One pass of the outer loop: the server's line if two lines remain, then its tools. */
  method ShowServer(ghost flat: seq<Item>, list: seq<ServerEntry>, si: nat, lines0: seq<Item>,
                    linesUsed0: nat, serversShown0: nat, toolsShown0: nat)
    returns (lines: seq<Item>, linesUsed: nat, serversShown: nat, toolsShown: nat, truncated: bool)
    requires si < |list|
    requires linesUsed0 == |lines0| == serversShown0 + toolsShown0 && serversShown0 == NumServers(lines0) && Fits(lines0)
    requires flat == lines0 + Flatten(list[si..])
    ensures linesUsed == |lines| == serversShown + toolsShown && serversShown == NumServers(lines) && Fits(lines)
    ensures if truncated then Stopped(flat, lines) else flat == lines + Flatten(list[si + 1..])
  {
    lines, linesUsed, serversShown, toolsShown, truncated := lines0, linesUsed0, serversShown0, toolsShown0, false;
    var server := list[si];
    EnterServer(flat, lines, list, si);
    var line := ServerLine(server.name, server.calls, server.tokens);
    Advance(flat, lines, line, ToolLines(server.tools[0..]) + Flatten(list[si + 1..]));
    if linesUsed >= MaxDisplayLines - 1 {
      truncated := true;
    } else {
      FitsPush(lines, line);
      NumServersPush(lines, line);
      lines := lines + [line];
      linesUsed := linesUsed + 1;
      serversShown := serversShown + 1;
      assert server.tools[0..] == server.tools;
      lines, linesUsed, toolsShown, truncated := ShowTools(flat, server.tools, Flatten(list[si + 1..]), lines, linesUsed, serversShown, toolsShown);
    }
  }

  class RichDisplay {
    const pinned: set<string>
    var recentEvents: seq<FeedEvent>
    /** Every event the feed was given, oldest first. */
    ghost var history: seq<FeedEvent>

    ghost predicate Valid()
      reads this
    {
      recentEvents == LastN(history, FeedSize)
    }

    /** `pinned_servers`, an absent list being the empty one, kept as a set. */
    constructor (pinnedServers: seq<string>)
      ensures Valid() && history == [] && recentEvents == []
      ensures pinned == set s | s in pinnedServers
    {
      pinned := set s | s in pinnedServers;
      recentEvents := [];
      history := [];
    }

    /** `on_event`: the feed, a deque of length 5, keeps the five latest events in arrival order. */
    method OnEvent(tool: string, tokens: int, timestamp: int)
      requires Valid()
      modifies this
      ensures Valid()
      ensures history == old(history) + [FeedEvent(timestamp, tool, tokens)]
    {
      var e := FeedEvent(timestamp, tool, tokens);
      LastNAppend(history, e, FeedSize);
      if |recentEvents| == FeedSize {
        recentEvents := recentEvents[1..] + [e];
      } else {
        recentEvents := recentEvents + [e];
      }
      history := history + [e];
    }

    /**
     * The line-budget walk of `_build_tools`: servers in pinned-first order,
     * each followed by its tools, until a server no longer has two lines of
     * room or a tool no longer has one. The lines shown are exactly the
     * first `ShownCount` lines of the whole hierarchy; the panel is
     * truncated exactly when some line is held back; the note reports the
     * totals minus what was shown; token columns appear exactly when the
     * servers' tokens sum to more than zero.
     */
    method BuildTools(hierarchy: seq<ServerEntry>) returns (p: ToolsPanel)
      ensures |hierarchy| == 0 <==> p == NoToolsYet
      ensures p.Panel? ==>
        var flat := Flatten(PinOrder(hierarchy, pinned));
        && p.lines == flat[..ShownCount(flat)]
        && (p.truncated <==> ShownCount(flat) < |flat|)
        && p.serversShown == NumServers(p.lines)
        && p.serversShown + p.toolsShown == |p.lines| <= MaxDisplayLines
        && p.note == NoteFor(p.truncated, |hierarchy| - p.serversShown, TotalTools(hierarchy) - p.toolsShown)
        && (p.showTokens <==> TotalTokens(hierarchy) > 0)
    {
      if |hierarchy| == 0 {
        return NoToolsYet;
      }
      var totalServers: int := |hierarchy|;
      var totalTools: int := TotalTools(hierarchy);
      var showTokens := TotalTokens(hierarchy) > 0;
      var list := hierarchy;
      if |pinned| > 0 {
        list := SortBy(hierarchy, PinKey(pinned));
      }
      var lines, serversShown, toolsShown, truncated := WalkServers(list);
      var note := NoteFor(truncated, totalServers - serversShown, totalTools - toolsShown);
      p := Panel(lines, serversShown, toolsShown, truncated, note, showTokens);
    }
  }
}
