/** Token and activity statistics over Claude Code sessions: the usage a
    message accounts for, per-session totals, the project ranking by tokens
    and the project summary with its tool, daily and hourly tallies. Times
    are parsed by a parameter; counters are unbounded. */
module Stats {
  import opened Base
  import opened Json
  import opened Strings
  import opened Seqs
  import opened Paths
  import opened Models
  import Session

  // ---------------------------------------------------------------- token usage

  /** `obj.get(key).and_then(as_u64)` followed by `as u32`. */
  function CountIn(obj: Option<Json>, key: string): (r: Option<nat>)
    ensures r.Some? ==> IsU32(r.value)
    ensures r.Some? <==> obj.Some? && GetNat(obj.value, key).Some?
  {
    match obj
    case Some(o) =>
      (match GetNat(o, key)
       case Some(n) => Some(TruncateU32(n))
       case None => None)
    case None => None
  }

  /** The content's `usage`, when the content is an object that has one. */
  function ContentUsage(m: ClaudeMessage): Option<Json> {
    match m.content
    case Some(c) => if c.Obj? then Get(c, "usage") else None
    case None => None
  }

  /** The tool result's `usage`. */
  function ResultUsage(m: ClaudeMessage): Option<Json> {
    match m.tool_use_result
    case Some(r) => Get(r, "usage")
    case None => None
  }

  function ResultTotal(m: ClaudeMessage): Option<nat> {
    CountIn(m.tool_use_result, "totalTokens")
  }

  function ContentTier(m: ClaudeMessage): Option<string> {
    match ContentUsage(m)
    case Some(u) => GetStr(u, "service_tier")
    case None => None
  }

  /** A count from the tool result's usage, else from the content's. */
  function TieredCount(m: ClaudeMessage, key: string): Option<nat> {
    CountIn(ResultUsage(m), key).Or(CountIn(ContentUsage(m), key))
  }

  /** The usage a message accounts for: its recorded usage when it has one;
      otherwise each count from the tool result, else from the content, and
      `totalTokens` standing in when neither input nor output was found. */
  function UsageOf(m: ClaudeMessage): (u: TokenUsage)
    ensures m.usage.Some? ==> u == m.usage.value
    ensures m.usage.None? ==> && u.cache_creation_input_tokens == TieredCount(m, "cache_creation_input_tokens")
                              && u.cache_read_input_tokens == TieredCount(m, "cache_read_input_tokens")
                              && u.service_tier == ContentTier(m)
    ensures m.usage.None? && (TieredCount(m, "input_tokens").Some? || TieredCount(m, "output_tokens").Some?) ==>
      u.input_tokens == TieredCount(m, "input_tokens") && u.output_tokens == TieredCount(m, "output_tokens")
    ensures m.usage.None? && TieredCount(m, "input_tokens").None? && TieredCount(m, "output_tokens").None? ==>
      if m.message_type == "assistant" then u.input_tokens.None? && u.output_tokens == ResultTotal(m)
      else u.input_tokens == ResultTotal(m) && u.output_tokens.None?
  {
    match m.usage
    case Some(u) => u
    case None =>
      var input := TieredCount(m, "input_tokens");
      var output := TieredCount(m, "output_tokens");
      var total := if input.None? && output.None? then ResultTotal(m) else None;
      var assistant := m.message_type == "assistant";
      TokenUsage(
        if assistant then input else input.Or(total),
        if assistant then output.Or(total) else output,
        TieredCount(m, "cache_creation_input_tokens"),
        TieredCount(m, "cache_read_input_tokens"),
        ContentTier(m))
  }

  /** The counts and tier read from the content's usage alone. */
  method ReadContentUsage(m: ClaudeMessage) returns (usage: TokenUsage)
    ensures usage == TokenUsage(CountIn(ContentUsage(m), "input_tokens"), CountIn(ContentUsage(m), "output_tokens"),
                                CountIn(ContentUsage(m), "cache_creation_input_tokens"),
                                CountIn(ContentUsage(m), "cache_read_input_tokens"), ContentTier(m))
  {
    usage := EmptyUsage;
    var contentUsage := ContentUsage(m);
    if contentUsage.Some? {
      var input := CountIn(contentUsage, "input_tokens");
      if input.Some? {
        usage := usage.(input_tokens := input);
      }
      var output := CountIn(contentUsage, "output_tokens");
      if output.Some? {
        usage := usage.(output_tokens := output);
      }
      var tier := GetStr(contentUsage.value, "service_tier");
      if tier.Some? {
        usage := usage.(service_tier := tier);
      }
      var creation := CountIn(contentUsage, "cache_creation_input_tokens");
      if creation.Some? {
        usage := usage.(cache_creation_input_tokens := creation);
      }
      var read := CountIn(contentUsage, "cache_read_input_tokens");
      if read.Some? {
        usage := usage.(cache_read_input_tokens := read);
      }
    }
  }

  /** The tool result's counts overwrite the ones already read. */
  method OverlayResultUsage(m: ClaudeMessage, before: TokenUsage) returns (usage: TokenUsage)
    requires m.tool_use_result.Some?
    ensures usage == TokenUsage(CountIn(ResultUsage(m), "input_tokens").Or(before.input_tokens),
                                CountIn(ResultUsage(m), "output_tokens").Or(before.output_tokens),
                                CountIn(ResultUsage(m), "cache_creation_input_tokens").Or(before.cache_creation_input_tokens),
                                CountIn(ResultUsage(m), "cache_read_input_tokens").Or(before.cache_read_input_tokens),
                                before.service_tier)
  {
    usage := before;
    var resultUsage := Get(m.tool_use_result.value, "usage");
    if resultUsage.Some? {
      var input := CountIn(resultUsage, "input_tokens");
      if input.Some? {
        usage := usage.(input_tokens := input);
      }
      var output := CountIn(resultUsage, "output_tokens");
      if output.Some? {
        usage := usage.(output_tokens := output);
      }
      var creation := CountIn(resultUsage, "cache_creation_input_tokens");
      if creation.Some? {
        usage := usage.(cache_creation_input_tokens := creation);
      }
      var read := CountIn(resultUsage, "cache_read_input_tokens");
      if read.Some? {
        usage := usage.(cache_read_input_tokens := read);
      }
    }
  }

  /** `extract_token_usage`: the content's usage, then the tool result's,
      then `totalTokens` when neither input nor output was found. */
  method ExtractTokenUsage(m: ClaudeMessage) returns (usage: TokenUsage)
    ensures usage == UsageOf(m)
  {
    if m.usage.Some? {
      return m.usage.value;
    }
    usage := ReadContentUsage(m);
    if m.tool_use_result.Some? {
      usage := OverlayResultUsage(m, usage);
      var total := CountIn(m.tool_use_result, "totalTokens");
      if total.Some? && usage.input_tokens.None? && usage.output_tokens.None? {
        if m.message_type == "assistant" {
          usage := usage.(output_tokens := total);
        } else {
          usage := usage.(input_tokens := total);
        }
      }
    }
  }

  /** Without a recorded usage, a count the tool result carries wins over the
      content's. */
  lemma ResultUsageWins(m: ClaudeMessage)
    requires m.usage.None?
    ensures CountIn(ResultUsage(m), "input_tokens").Some? ==> UsageOf(m).input_tokens == CountIn(ResultUsage(m), "input_tokens")
    ensures CountIn(ResultUsage(m), "output_tokens").Some? ==> UsageOf(m).output_tokens == CountIn(ResultUsage(m), "output_tokens")
    ensures CountIn(ResultUsage(m), "cache_creation_input_tokens").Some? ==>
      UsageOf(m).cache_creation_input_tokens == CountIn(ResultUsage(m), "cache_creation_input_tokens")
    ensures CountIn(ResultUsage(m), "cache_read_input_tokens").Some? ==>
      UsageOf(m).cache_read_input_tokens == CountIn(ResultUsage(m), "cache_read_input_tokens")
  {
  }

  /** `totalTokens` is used only when neither input nor output is known, as
      output for an assistant message and as input otherwise. */
  lemma TotalTokensFallback(m: ClaudeMessage)
    requires m.usage.None?
    ensures TieredCount(m, "input_tokens").Some? || TieredCount(m, "output_tokens").Some? ==>
      UsageOf(m).input_tokens == TieredCount(m, "input_tokens") && UsageOf(m).output_tokens == TieredCount(m, "output_tokens")
    ensures TieredCount(m, "input_tokens").None? && TieredCount(m, "output_tokens").None? && m.message_type == "assistant" ==>
      UsageOf(m).input_tokens.None? && UsageOf(m).output_tokens == ResultTotal(m)
    ensures TieredCount(m, "input_tokens").None? && TieredCount(m, "output_tokens").None? && m.message_type != "assistant" ==>
      UsageOf(m).input_tokens == ResultTotal(m) && UsageOf(m).output_tokens.None?
  {
  }

  /** Counts read from the message itself are 32-bit values. */
  lemma DerivedUsageIsU32(m: ClaudeMessage)
    requires m.usage.None?
    ensures ValidUsage(UsageOf(m))
  {
    var u := UsageOf(m);
    assert OptU32Valid(TieredCount(m, "input_tokens")) && OptU32Valid(TieredCount(m, "output_tokens"));
    assert OptU32Valid(ResultTotal(m));
    assert OptU32Valid(u.input_tokens);
  }

  // ---------------------------------------------------------------- records to messages

  const SummaryRejected := "Summary entries should be handled separately"
  const MissingAnchors := "Missing session_id and timestamp"

  /** `ClaudeMessage::try_from`: summaries and entries with neither session
      id nor timestamp are refused; the rest convert with the defaults. */
  function TryFromEntry(e: RawLogEntry, freshId: string, now: string): (r: Result<ClaudeMessage>)
    ensures r.Ok? <==> Session.IsKept(Some(e))
    ensures Session.IsSummary(e) ==> r == Err(SummaryRejected)
    ensures !Session.IsSummary(e) && !Session.IsAnchored(e) ==> r == Err(MissingAnchors)
    ensures r.Ok? ==> r.value == Session.ToMessage(e, freshId, now)
  {
    if Session.IsSummary(e) then Err(SummaryRejected)
    else if !Session.IsAnchored(e) then Err(MissingAnchors)
    else Ok(Session.ToMessage(e, freshId, now))
  }

  // ---------------------------------------------------------------- one session

  datatype SessionTokenStats = SessionTokenStats(
    session_id: string,
    project_name: string,
    total_input_tokens: nat,
    total_output_tokens: nat,
    total_cache_creation_tokens: nat,
    total_cache_read_tokens: nat,
    total_tokens: nat,
    message_count: nat,
    first_message_time: string,
    last_message_time: string)

  const NoMessages := "No valid messages found in session"

  function InputCount(m: ClaudeMessage): nat { UsageOf(m).input_tokens.GetOr(0) }
  function OutputCount(m: ClaudeMessage): nat { UsageOf(m).output_tokens.GetOr(0) }
  function CacheCreationCount(m: ClaudeMessage): nat { UsageOf(m).cache_creation_input_tokens.GetOr(0) }
  function CacheReadCount(m: ClaudeMessage): nat { UsageOf(m).cache_read_input_tokens.GetOr(0) }

  function SumBy(ms: seq<ClaudeMessage>, f: ClaudeMessage -> nat): nat {
    if |ms| == 0 then 0 else SumBy(ms[..|ms| - 1], f) + f(ms[|ms| - 1])
  }

  /** The lexicographically least timestamp (the first one among equals). */
  function Earliest(ms: seq<ClaudeMessage>): string
    requires |ms| > 0
  {
    if |ms| == 1 then ms[0].timestamp
    else
      var e := Earliest(ms[..|ms| - 1]);
      if LexLess(ms[|ms| - 1].timestamp, e) then ms[|ms| - 1].timestamp else e
  }

  /** The lexicographically greatest timestamp. */
  function Latest(ms: seq<ClaudeMessage>): string
    requires |ms| > 0
  {
    if |ms| == 1 then ms[0].timestamp
    else
      var l := Latest(ms[..|ms| - 1]);
      if LexLess(l, ms[|ms| - 1].timestamp) then ms[|ms| - 1].timestamp else l
  }

  lemma {:induction false} EarliestIsLeast(ms: seq<ClaudeMessage>)
    requires |ms| > 0
    ensures exists i :: 0 <= i < |ms| && ms[i].timestamp == Earliest(ms)
    ensures forall i :: 0 <= i < |ms| ==> !LexLess(ms[i].timestamp, Earliest(ms))
    decreases |ms|
  {
    if |ms| > 1 {
      var init := ms[..|ms| - 1];
      var last := ms[|ms| - 1].timestamp;
      EarliestIsLeast(init);
      var e := Earliest(init);
      var k :| 0 <= k < |init| && init[k].timestamp == e;
      assert ms[k] == init[k];
      forall i | 0 <= i < |ms|
        ensures !LexLess(ms[i].timestamp, Earliest(ms))
      {
        if i < |init| {
          assert ms[i] == init[i];
          if LexLess(last, e) {
            if LexLess(ms[i].timestamp, last) {
              LexLessTransitive(ms[i].timestamp, last, e);
            }
          }
        } else if !LexLess(last, e) {
          assert !LexLess(ms[i].timestamp, e);
        } else {
          LexLessIrreflexive(last);
        }
      }
    } else {
      LexLessIrreflexive(ms[0].timestamp);
    }
  }

  lemma {:induction false} LatestIsGreatest(ms: seq<ClaudeMessage>)
    requires |ms| > 0
    ensures exists i :: 0 <= i < |ms| && ms[i].timestamp == Latest(ms)
    ensures forall i :: 0 <= i < |ms| ==> !LexLess(Latest(ms), ms[i].timestamp)
    decreases |ms|
  {
    if |ms| > 1 {
      var init := ms[..|ms| - 1];
      var last := ms[|ms| - 1].timestamp;
      LatestIsGreatest(init);
      var l := Latest(init);
      var k :| 0 <= k < |init| && init[k].timestamp == l;
      assert ms[k] == init[k];
      forall i | 0 <= i < |ms|
        ensures !LexLess(Latest(ms), ms[i].timestamp)
      {
        if i < |init| {
          assert ms[i] == init[i];
          if LexLess(l, last) {
            if LexLess(last, ms[i].timestamp) {
              LexLessTransitive(l, last, ms[i].timestamp);
            }
          }
        } else if !LexLess(l, last) {
          assert !LexLess(l, ms[i].timestamp);
        } else {
          LexLessIrreflexive(last);
        }
      }
    } else {
      LexLessIrreflexive(ms[0].timestamp);
    }
  }

  /** The statistics of one non-empty session. */
  function StatsOf(sessionPath: string, ms: seq<ClaudeMessage>): (s: SessionTokenStats)
    requires |ms| > 0
    ensures s.total_tokens == s.total_input_tokens + s.total_output_tokens + s.total_cache_creation_tokens + s.total_cache_read_tokens
    ensures s.message_count == |ms| && s.session_id == ms[0].session_id
  {
    var input := SumBy(ms, InputCount);
    var output := SumBy(ms, OutputCount);
    var creation := SumBy(ms, CacheCreationCount);
    var read := SumBy(ms, CacheReadCount);
    SessionTokenStats(ms[0].session_id, ParentName(sessionPath).GetOr("unknown"), input, output, creation, read,
                      input + output + creation + read, |ms|, Earliest(ms), Latest(ms))
  }

  /** `get_session_token_stats` over the loaded messages. */
  method GetSessionTokenStats(sessionPath: string, messages: Result<seq<ClaudeMessage>>) returns (r: Result<SessionTokenStats>)
    ensures messages.Err? ==> r == Err(messages.error)
    ensures messages.Ok? && |messages.value| == 0 ==> r == Err(NoMessages)
    ensures messages.Ok? && |messages.value| > 0 ==> r == Ok(StatsOf(sessionPath, messages.value))
  {
    if messages.Err? {
      return Err(messages.error);
    }
    var ms := messages.value;
    if |ms| == 0 {
      return Err(NoMessages);
    }
    var input, output, creation, read := 0, 0, 0, 0;
    var first: Option<string> := None;
    var last: Option<string> := None;
    var i := 0;
    while i < |ms|
      invariant 0 <= i <= |ms|
      invariant Accumulated(ms, i, input, output, creation, read, first, last)
    {
      input, output, creation, read, first, last := AccumulateNext(ms, i, input, output, creation, read, first, last);
      i := i + 1;
    }
    assert ms[..i] == ms;
    r := Ok(SessionTokenStats(ms[0].session_id, ParentName(sessionPath).GetOr("unknown"), input, output, creation, read,
                              input + output + creation + read, |ms|, first.value, last.value));
  }

  /** What the loop of `get_session_token_stats` holds after `i` messages:
      the four token sums and the earliest and latest timestamps so far. */
  predicate Accumulated(ms: seq<ClaudeMessage>, i: nat, input: nat, output: nat, creation: nat, read: nat,
                        first: Option<string>, last: Option<string>)
    requires i <= |ms|
  {
    && input == SumBy(ms[..i], InputCount) && output == SumBy(ms[..i], OutputCount)
    && creation == SumBy(ms[..i], CacheCreationCount) && read == SumBy(ms[..i], CacheReadCount)
    && (i == 0 ==> first.None? && last.None?)
    && (i > 0 ==> first == Some(Earliest(ms[..i])) && last == Some(Latest(ms[..i])))
  }

  /** One turn of that loop: message `i` adds its usage and may move the
      first and last timestamps. */
  method AccumulateNext(ms: seq<ClaudeMessage>, i: nat, input: nat, output: nat, creation: nat, read: nat,
                        first: Option<string>, last: Option<string>)
    returns (input': nat, output': nat, creation': nat, read': nat, first': Option<string>, last': Option<string>)
    requires i < |ms| && Accumulated(ms, i, input, output, creation, read, first, last)
    ensures Accumulated(ms, i + 1, input', output', creation', read', first', last')
  {
    SumByStep(ms, InputCount, i);
    SumByStep(ms, OutputCount, i);
    SumByStep(ms, CacheCreationCount, i);
    SumByStep(ms, CacheReadCount, i);
    if i > 0 {
      TimesStep(ms, i);
    } else {
      assert ms[..1] == [ms[0]];
    }
    var usage := ExtractTokenUsage(ms[i]);
    input' := input + usage.input_tokens.GetOr(0);
    output' := output + usage.output_tokens.GetOr(0);
    creation' := creation + usage.cache_creation_input_tokens.GetOr(0);
    read' := read + usage.cache_read_input_tokens.GetOr(0);
    first' := if first.None? || LexLess(ms[i].timestamp, first.value) then Some(ms[i].timestamp) else first;
    last' := if last.None? || LexLess(last.value, ms[i].timestamp) then Some(ms[i].timestamp) else last;
  }

  lemma SumByStep(ms: seq<ClaudeMessage>, f: ClaudeMessage -> nat, i: nat)
    requires i < |ms|
    ensures SumBy(ms[..i + 1], f) == SumBy(ms[..i], f) + f(ms[i])
  {
    assert ms[..i + 1][..i] == ms[..i];
  }

  lemma TimesStep(ms: seq<ClaudeMessage>, i: nat)
    requires 0 < i < |ms|
    ensures var e := Earliest(ms[..i]);
      Earliest(ms[..i + 1]) == if LexLess(ms[i].timestamp, e) then ms[i].timestamp else e
    ensures var l := Latest(ms[..i]);
      Latest(ms[..i + 1]) == if LexLess(l, ms[i].timestamp) then ms[i].timestamp else l
  {
    assert ms[..i + 1][..i] == ms[..i];
  }

  /** The first and last times bound every message's timestamp and are
      timestamps of the session. */
  lemma SessionTimesBound(sessionPath: string, ms: seq<ClaudeMessage>)
    requires |ms| > 0
    ensures var s := StatsOf(sessionPath, ms);
      (exists i :: 0 <= i < |ms| && ms[i].timestamp == s.first_message_time) &&
      (exists i :: 0 <= i < |ms| && ms[i].timestamp == s.last_message_time) &&
      forall i :: 0 <= i < |ms| ==>
        !LexLess(ms[i].timestamp, s.first_message_time) && !LexLess(s.last_message_time, ms[i].timestamp)
  {
    EarliestIsLeast(ms);
    LatestIsGreatest(ms);
  }

  lemma {:induction false} SumBySnoc(ms: seq<ClaudeMessage>, m: ClaudeMessage, f: ClaudeMessage -> nat)
    ensures SumBy(ms + [m], f) == SumBy(ms, f) + f(m)
  {
    assert (ms + [m])[..|ms|] == ms;
  }

  /** Each message adds its own input count to the session's total. */
  lemma {:induction false} InputTotalAdds(ms: seq<ClaudeMessage>, ns: seq<ClaudeMessage>)
    ensures SumBy(ms + ns, InputCount) == SumBy(ms, InputCount) + SumBy(ns, InputCount)
    decreases |ns|
  {
    if |ns| == 0 {
      assert ms + ns == ms;
    } else {
      var init := ns[..|ns| - 1];
      assert ms + ns == (ms + init) + [ns[|ns| - 1]];
      SumBySnoc(ms + init, ns[|ns| - 1], InputCount);
      InputTotalAdds(ms, init);
    }
  }

  // ---------------------------------------------------------------- project ranking

  function OkStats(r: Result<SessionTokenStats>): Option<SessionTokenStats> {
    if r.Ok? then Some(r.value) else None
  }

  function MoreTokens(a: SessionTokenStats, b: SessionTokenStats): bool {
    a.total_tokens > b.total_tokens
  }

  lemma {:induction false} SortedByTokens(s: seq<SessionTokenStats>)
    requires SortedBy(s, MoreTokens)
    ensures forall i, j :: 0 <= i < j < |s| ==> s[i].total_tokens >= s[j].total_tokens
    decreases |s|
  {
    if |s| > 1 {
      var init := s[..|s| - 1];
      assert SortedBy(init, MoreTokens);
      SortedByTokens(init);
      forall i, j | 0 <= i < j < |s|
        ensures s[i].total_tokens >= s[j].total_tokens
      {
        if j < |s| - 1 {
          assert init[i] == s[i] && init[j] == s[j];
        } else if i < j - 1 {
          assert init[i] == s[i] && init[j - 1] == s[j - 1];
          assert !MoreTokens(s[j], s[j - 1]);
        } else {
          assert !MoreTokens(s[j], s[j - 1]);
        }
      }
    }
  }

  /** `get_project_token_stats`: the sessions whose statistics could be
      computed, most tokens first. */
  function ProjectTokenStats(results: seq<Result<SessionTokenStats>>): (r: seq<SessionTokenStats>)
    ensures multiset(r) == multiset(FilterMap(results, OkStats))
    ensures forall i, j :: 0 <= i < j < |r| ==> r[i].total_tokens >= r[j].total_tokens
  {
    var kept := FilterMap(results, OkStats);
    assert Asymmetric(MoreTokens);
    SortBySorted(kept, MoreTokens);
    SortedByTokens(SortBy(kept, MoreTokens));
    SortBy(kept, MoreTokens)
  }

  // ---------------------------------------------------------------- project summary

  /** A parsed RFC 3339 time: nanoseconds on one clock (chrono keeps the
      fraction of a second), its UTC date ("%Y-%m-%d"), hour and day of the
      week counted from Sunday. */
  datatype Instant = Instant(nanos: int, date: string, hour: nat, weekday: nat)

  const NanosPerMinute := 60_000_000_000

  datatype ToolTally = ToolTally(uses: nat, successes: nat)

  datatype HeatCell = HeatCell(activity_count: nat, tokens_used: nat)

  /** The accumulators of `get_project_stats_summary`. */
  datatype Tally = Tally(
    total_messages: nat,
    distribution: TokenDistribution,
    tools: map<string, ToolTally>,
    daily: map<string, DailyStats>,
    heatmap: map<(nat, nat), HeatCell>,
    dates: set<string>,
    durations: seq<nat>)

  const EmptyTally := Tally(0, TokenDistribution(0, 0, 0, 0), map[], map[], map[], {}, [])

  /** The earliest and latest parsed times of the file being read. */
  datatype Span = Span(start: Option<Instant>, end: Option<Instant>, has_messages: bool)

  const NoSpan := Span(None, None, false)

  datatype Progress = Progress(tally: Tally, span: Span)

  function Tokens(u: TokenUsage): nat {
    u.input_tokens.GetOr(0) + u.output_tokens.GetOr(0) + u.cache_creation_input_tokens.GetOr(0) + u.cache_read_input_tokens.GetOr(0)
  }

  function AddDistribution(d: TokenDistribution, u: TokenUsage): TokenDistribution {
    TokenDistribution(d.input + u.input_tokens.GetOr(0), d.output + u.output_tokens.GetOr(0),
                      d.cache_creation + u.cache_creation_input_tokens.GetOr(0), d.cache_read + u.cache_read_input_tokens.GetOr(0))
  }

  /** `daily_stats_map.entry(date).or_insert_with(..)` and the additions. */
  function AddDaily(daily: map<string, DailyStats>, date: string, u: TokenUsage): (r: map<string, DailyStats>)
    ensures r.Keys == daily.Keys + {date}
    ensures r[date].date == (if date in daily then daily[date].date else date)
    ensures r[date].message_count == (if date in daily then daily[date].message_count else 0) + 1
    ensures r[date].total_tokens == (if date in daily then daily[date].total_tokens else 0) + Tokens(u)
    ensures r[date].input_tokens == (if date in daily then daily[date].input_tokens else 0) + u.input_tokens.GetOr(0)
    ensures r[date].output_tokens == (if date in daily then daily[date].output_tokens else 0) + u.output_tokens.GetOr(0)
    ensures date in daily ==> r[date].session_count == daily[date].session_count && r[date].active_hours == daily[date].active_hours
    ensures forall d :: d in daily && d != date ==> r[d] == daily[d]
  {
    var entry := if date in daily then daily[date] else DailyStats(date, 0, 0, 0, 0, 0, 0);
    daily[date := entry.(total_tokens := entry.total_tokens + Tokens(u),
                         input_tokens := entry.input_tokens + u.input_tokens.GetOr(0),
                         output_tokens := entry.output_tokens + u.output_tokens.GetOr(0),
                         message_count := entry.message_count + 1)]
  }

  /** One more message in an (hour, weekday) cell, with its tokens. */
  function AddHeat(heatmap: map<(nat, nat), HeatCell>, key: (nat, nat), tokens: nat): (r: map<(nat, nat), HeatCell>)
    ensures r.Keys == heatmap.Keys + {key}
    ensures r[key].activity_count == (if key in heatmap then heatmap[key].activity_count else 0) + 1
    ensures r[key].tokens_used == (if key in heatmap then heatmap[key].tokens_used else 0) + tokens
    ensures forall k :: k in heatmap && k != key ==> r[k] == heatmap[k]
  {
    var cell := if key in heatmap then heatmap[key] else HeatCell(0, 0);
    heatmap[key := HeatCell(cell.activity_count + 1, cell.tokens_used + tokens)]
  }

  /** One more use of tool `name`, and one more success when `success`. */
  function Bump(tools: map<string, ToolTally>, name: string, success: bool): (r: map<string, ToolTally>)
    ensures r.Keys == tools.Keys + {name}
    ensures r[name].uses == (if name in tools then tools[name].uses else 0) + 1
    ensures r[name].successes == (if name in tools then tools[name].successes else 0) + (if success then 1 else 0)
    ensures forall n :: n in tools && n != name ==> r[n] == tools[n]
  {
    var t := if name in tools then tools[name] else ToolTally(0, 0);
    tools[name := ToolTally(t.uses + 1, t.successes + if success then 1 else 0)]
  }

  /** The name of a `tool_use` block of the content. */
  function ToolUseBlockName(item: Json): Option<string> {
    if GetStr(item, "type") == Some("tool_use") then GetStr(item, "name") else None
  }

  /** The named tool_use blocks of an assistant message's content array. */
  function ContentToolNames(m: ClaudeMessage): seq<string> {
    if m.message_type == "assistant" && m.content.Some? && m.content.value.Arr? then
      FilterMap(m.content.value.items, ToolUseBlockName)
    else []
  }

  function BumpAll(tools: map<string, ToolTally>, names: seq<string>): (r: map<string, ToolTally>)
    ensures r.Keys == tools.Keys + set n | n in names
  {
    if |names| == 0 then tools
    else BumpAll(tools, names[..|names| - 1])[names[|names| - 1] := BumpEntry(BumpAll(tools, names[..|names| - 1]), names[|names| - 1])]
  }

  function BumpEntry(tools: map<string, ToolTally>, name: string): ToolTally {
    var t := if name in tools then tools[name] else ToolTally(0, 0);
    ToolTally(t.uses + 1, t.successes + 1)
  }

  /** The legacy `toolUse` record's name. */
  function LegacyToolName(m: ClaudeMessage): Option<string> {
    match m.tool_use
    case Some(t) => GetStr(t, "name")
    case None => None
  }

  /** A legacy call succeeds when it has a result not flagged `is_error`. */
  predicate LegacySuccess(m: ClaudeMessage) {
    m.tool_use_result.Some? && !GetBool(m.tool_use_result.value, "is_error").GetOr(false)
  }

  function AddTools(tools: map<string, ToolTally>, m: ClaudeMessage): map<string, ToolTally> {
    var withBlocks := BumpAll(tools, ContentToolNames(m));
    match LegacyToolName(m)
    case Some(name) => Bump(withBlocks, name, LegacySuccess(m))
    case None => withBlocks
  }

  /** What one converted message adds; `at` is its parsed timestamp. */
  function AddMessage(p: Progress, m: ClaudeMessage, at: Option<Instant>): (r: Progress)
    ensures r.tally.total_messages == p.tally.total_messages + 1 && r.span.has_messages
    ensures r.tally.tools == AddTools(p.tally.tools, m) && r.tally.durations == p.tally.durations
    ensures at.None? ==> && r.tally.distribution == p.tally.distribution && r.tally.daily == p.tally.daily
                         && r.tally.heatmap == p.tally.heatmap && r.tally.dates == p.tally.dates
                         && r.span.start == p.span.start && r.span.end == p.span.end
    ensures at.Some? ==> && r.tally.dates == p.tally.dates + {at.value.date}
                         && r.tally.distribution.input == p.tally.distribution.input + UsageOf(m).input_tokens.GetOr(0)
                         && r.tally.distribution.output == p.tally.distribution.output + UsageOf(m).output_tokens.GetOr(0)
                         && r.tally.distribution.cache_creation ==
                              p.tally.distribution.cache_creation + UsageOf(m).cache_creation_input_tokens.GetOr(0)
                         && r.tally.distribution.cache_read ==
                              p.tally.distribution.cache_read + UsageOf(m).cache_read_input_tokens.GetOr(0)
                         && r.tally.daily == AddDaily(p.tally.daily, at.value.date, UsageOf(m))
                         && r.tally.heatmap == AddHeat(p.tally.heatmap, (at.value.hour, at.value.weekday), Tokens(UsageOf(m)))
    // The span start is the earliest time seen and the end the latest; a tie
    // keeps the one already held.
    ensures at.Some? && (p.span.start.None? || at.value.nanos < p.span.start.value.nanos) ==> r.span.start == at
    ensures at.Some? && p.span.start.Some? && p.span.start.value.nanos <= at.value.nanos ==> r.span.start == p.span.start
    ensures at.Some? && (p.span.end.None? || at.value.nanos > p.span.end.value.nanos) ==> r.span.end == at
    ensures at.Some? && p.span.end.Some? && at.value.nanos <= p.span.end.value.nanos ==> r.span.end == p.span.end
  {
    var t := p.tally.(total_messages := p.tally.total_messages + 1, tools := AddTools(p.tally.tools, m));
    match at
    case None => Progress(t, p.span.(has_messages := true))
    case Some(i) =>
      var u := UsageOf(m);
      var s := p.span;
      Progress(
        t.(distribution := AddDistribution(t.distribution, u),
           daily := AddDaily(t.daily, i.date, u),
           heatmap := AddHeat(t.heatmap, (i.hour, i.weekday), Tokens(u)),
           dates := t.dates + {i.date}),
        Span(if s.start.None? || i.nanos < s.start.value.nanos then Some(i) else s.start,
             if s.end.None? || i.nanos > s.end.value.nanos then Some(i) else s.end,
             true))
  }

  /** `(end - start).num_minutes() as u32`: truncation toward zero, then the
      low 32 bits. */
  function MinutesBetween(start: Instant, end: Instant): (r: nat)
    ensures r < U32_LIMIT
    ensures start.nanos <= end.nanos && end.nanos - start.nanos < U32_LIMIT * NanosPerMinute ==>
      r * NanosPerMinute <= end.nanos - start.nanos < (r + 1) * NanosPerMinute
  {
    var d := end.nanos - start.nanos;
    var minutes := if d >= 0 then d / NanosPerMinute else -((-d) / NanosPerMinute);
    minutes % U32_LIMIT
  }

  /** The span of a file is empty, or runs forward: its start is never
      after its end, so a duration is never negative. */
  predicate SpanOrdered(s: Span) {
    (s.start.None? <==> s.end.None?) && (s.start.Some? ==> s.start.value.nanos <= s.end.value.nanos)
  }

  lemma AddMessageOrdersSpan(p: Progress, m: ClaudeMessage, at: Option<Instant>)
    requires SpanOrdered(p.span)
    ensures SpanOrdered(AddMessage(p, m, at).span)
    ensures at.Some? ==> AddMessage(p, m, at).span.start.value.nanos <= at.value.nanos <= AddMessage(p, m, at).span.end.value.nanos
  {
  }

  /** Only whole minutes count: a span from 10:00:00.900 to 10:01:00.500
      lasts 0 minutes, and one of exactly a minute lasts 1. */
  lemma SubMinuteSpan(start: Instant, end: Instant, end2: Instant)
    requires end.nanos == start.nanos + 59_600_000_000
    requires end2.nanos == start.nanos + NanosPerMinute
    ensures MinutesBetween(start, end) == 0
    ensures MinutesBetween(start, end2) == 1
  {
  }

  /** The end of a file: its duration when it had a parsed time, and its
      first date once more in the set of dates. */
  function EndFile(p: Progress): (t: Tally)
    ensures && t.total_messages == p.tally.total_messages && t.tools == p.tally.tools
            && t.distribution == p.tally.distribution && t.daily == p.tally.daily && t.heatmap == p.tally.heatmap
    ensures t.durations == p.tally.durations +
      (if p.span.start.Some? && p.span.end.Some? then [MinutesBetween(p.span.start.value, p.span.end.value)] else [])
    ensures t.dates == p.tally.dates + (if p.span.has_messages && p.span.start.Some? then {p.span.start.value.date} else {})
  {
    var t := p.tally;
    var s := p.span;
    var t1 := if s.start.Some? && s.end.Some? then t.(durations := t.durations + [MinutesBetween(s.start.value, s.end.value)]) else t;
    if s.has_messages && s.start.Some? then t1.(dates := t1.dates + {s.start.value.date}) else t1
  }

  /** One read line: a read error ends the summary, undecodable lines and
      refused entries are skipped. */
  function LineStep(p: Progress, line: Result<Session.Line>, parseTime: string -> Option<Instant>,
                    freshId: string, now: string): Result<Progress> {
    match line
    case Err(e) => Err(e)
    case Ok(None) => Ok(p)
    case Ok(Some(e)) =>
      match TryFromEntry(e, freshId, now)
      case Ok(m) => Ok(AddMessage(p, m, parseTime(m.timestamp)))
      case Err(_) => Ok(p)
  }

  /** The lines of one file in order; only a read error fails, and the
      durations are untouched until the file ends. */
  function ScanLines(p: Progress, lines: seq<Result<Session.Line>>, parseTime: string -> Option<Instant>,
                     freshId: string, now: string): (r: Result<Progress>)
    ensures r.Err? <==> exists i :: 0 <= i < |lines| && lines[i].Err?
    ensures r.Ok? ==> && r.value.tally.durations == p.tally.durations
                      && p.tally.total_messages <= r.value.tally.total_messages <= p.tally.total_messages + |lines|
  {
    if |lines| == 0 then Ok(p)
    else
      var q :- ScanLines(p, lines[..|lines| - 1], parseTime, freshId, now);
      LineStep(q, lines[|lines| - 1], parseTime, freshId, now)
  }

  /** One session file, or the error opening it. */
  function FileStep(t: Tally, file: Result<seq<Result<Session.Line>>>, parseTime: string -> Option<Instant>,
                    freshId: string, now: string): Result<Tally> {
    match file
    case Err(e) => Err(e)
    case Ok(lines) =>
      var p :- ScanLines(Progress(t, NoSpan), lines, parseTime, freshId, now);
      Ok(EndFile(p))
  }

  /** A file that fails to open, or has a line that fails to read. */
  predicate FileFails(file: Result<seq<Result<Session.Line>>>) {
    file.Err? || exists j :: 0 <= j < |file.value| && file.value[j].Err?
  }

  /** The files in order; a file adds at most one duration. */
  function ScanFiles(files: seq<Result<seq<Result<Session.Line>>>>, parseTime: string -> Option<Instant>,
                     freshId: string, now: string): (r: Result<Tally>)
    ensures r.Err? <==> exists i :: 0 <= i < |files| && FileFails(files[i])
    ensures r.Ok? ==> |r.value.durations| <= |files|
  {
    if |files| == 0 then Ok(EmptyTally)
    else
      var t :- ScanFiles(files[..|files| - 1], parseTime, freshId, now);
      FileStep(t, files[|files| - 1], parseTime, freshId, now)
  }

  /** `min(24, max(1, messages / 10))` for a day with messages, else 0. */
  function ActiveHours(messageCount: nat): (h: nat)
    ensures messageCount > 0 ==> 1 <= h <= 24
    ensures messageCount == 0 ==> h == 0
    ensures 10 <= messageCount < 240 ==> h == messageCount / 10
  {
    if messageCount > 0 then
      var tenths := messageCount / 10;
      var atLeastOne := if tenths > 1 then tenths else 1;
      if atLeastOne < 24 then atLeastOne else 24
    else 0
  }

  datatype StatsSummary = StatsSummary(
    project_name: string,
    total_sessions: nat,
    total_messages: nat,
    total_tokens: nat,
    avg_tokens_per_session: nat,
    avg_session_duration: nat,
    tools: map<string, ToolTally>,
    daily: map<string, DailyStats>,
    heatmap: map<(nat, nat), HeatCell>,
    token_distribution: TokenDistribution)

  function SumNat(s: seq<nat>): nat {
    if |s| == 0 then 0 else SumNat(s[..|s| - 1]) + s[|s| - 1]
  }

  /** Each day's session count is how many recorded dates equal it. */
  function FinishDaily(daily: map<string, DailyStats>, dates: set<string>): (r: map<string, DailyStats>)
    ensures r.Keys == daily.Keys
  {
    map d | d in daily :: daily[d].(session_count := |set x | x in dates && x == d|,
                                    active_hours := ActiveHours(daily[d].message_count))
  }

  function Finish(projectPath: string, sessions: nat, t: Tally): (s: StatsSummary)
    ensures s.total_tokens == t.distribution.input + t.distribution.output + t.distribution.cache_creation + t.distribution.cache_read
    ensures s.avg_tokens_per_session == if sessions > 0 then s.total_tokens / sessions else 0
    ensures s.avg_session_duration == if |t.durations| > 0 then SumNat(t.durations) / |t.durations| else 0
  {
    var d := t.distribution;
    var total := d.input + d.output + d.cache_creation + d.cache_read;
    StatsSummary(
      FileName(projectPath).GetOr("Unknown"),
      sessions,
      t.total_messages,
      total,
      if sessions > 0 then total / sessions else 0,
      if |t.durations| > 0 then SumNat(t.durations) / |t.durations| else 0,
      t.tools,
      FinishDaily(t.daily, t.dates),
      t.heatmap,
      d)
  }

  /** The summary of a project, every `.jsonl` file counting as a session. */
  function SummaryOf(projectPath: string, files: seq<Result<seq<Result<Session.Line>>>>,
                     parseTime: string -> Option<Instant>, freshId: string, now: string): (r: Result<StatsSummary>)
    ensures r.Err? <==> exists i :: 0 <= i < |files| && FileFails(files[i])
    ensures r.Ok? ==> && r.value.total_sessions == |files|
                      && r.value.project_name == FileName(projectPath).GetOr("Unknown")
                      && r.value.avg_tokens_per_session * |files| <= r.value.total_tokens
  {
    var t :- ScanFiles(files, parseTime, freshId, now);
    var s := Finish(projectPath, |files|, t);
    AverageBounded(s.total_tokens, |files|);
    Ok(s)
  }

  lemma AverageBounded(total: nat, n: nat)
    ensures (if n > 0 then total / n else 0) * n <= total
  {
    if n > 0 {
      assert total == (total / n) * n + total % n;
    }
  }

  lemma {:induction false} ScanLinesStops(p: Progress, lines: seq<Result<Session.Line>>, k: nat,
                                         parseTime: string -> Option<Instant>, freshId: string, now: string)
    requires k <= |lines| && ScanLines(p, lines[..k], parseTime, freshId, now).Err?
    ensures ScanLines(p, lines, parseTime, freshId, now) == ScanLines(p, lines[..k], parseTime, freshId, now)
    decreases |lines| - k
  {
    if k < |lines| {
      assert lines[..k + 1][..k] == lines[..k];
      ScanLinesStops(p, lines, k + 1, parseTime, freshId, now);
    } else {
      assert lines[..k] == lines;
    }
  }

  lemma {:induction false} ScanFilesStops(files: seq<Result<seq<Result<Session.Line>>>>, k: nat,
                                         parseTime: string -> Option<Instant>, freshId: string, now: string)
    requires k <= |files| && ScanFiles(files[..k], parseTime, freshId, now).Err?
    ensures ScanFiles(files, parseTime, freshId, now) == ScanFiles(files[..k], parseTime, freshId, now)
    decreases |files| - k
  {
    if k < |files| {
      assert files[..k + 1][..k] == files[..k];
      ScanFilesStops(files, k + 1, parseTime, freshId, now);
    } else {
      assert files[..k] == files;
    }
  }

  /** `get_project_stats_summary`: the file and line loops over the walk's
      `.jsonl` files as read. */
  method GetProjectStatsSummary(projectPath: string, files: seq<Result<seq<Result<Session.Line>>>>,
                                parseTime: string -> Option<Instant>, freshId: string, now: string)
    returns (r: Result<StatsSummary>)
    ensures r == SummaryOf(projectPath, files, parseTime, freshId, now)
  {
    var tally := EmptyTally;
    var i := 0;
    while i < |files|
      invariant 0 <= i <= |files|
      invariant ScanFiles(files[..i], parseTime, freshId, now) == Ok(tally)
    {
      assert files[..i + 1][..i] == files[..i];
      if files[i].Err? {
        ScanFilesStops(files, i + 1, parseTime, freshId, now);
        return Err(files[i].error);
      }
      var lines := files[i].value;
      var progress := Progress(tally, NoSpan);
      var j := 0;
      while j < |lines|
        invariant 0 <= j <= |lines|
        invariant ScanLines(Progress(tally, NoSpan), lines[..j], parseTime, freshId, now) == Ok(progress)
      {
        assert lines[..j + 1][..j] == lines[..j];
        match lines[j] {
          case Err(e) =>
            ScanLinesStops(Progress(tally, NoSpan), lines, j + 1, parseTime, freshId, now);
            ScanFilesStops(files, i + 1, parseTime, freshId, now);
            return Err(e);
          case Ok(None) =>
          case Ok(Some(entry)) =>
            var message := TryFromEntry(entry, freshId, now);
            if message.Ok? {
              progress := AddMessage(progress, message.value, parseTime(message.value.timestamp));
            }
        }
        j := j + 1;
      }
      assert lines[..j] == lines;
      tally := EndFile(progress);
      i := i + 1;
    }
    assert files[..i] == files;
    r := Ok(Finish(projectPath, |files|, tally));
  }

  // ---------------------------------------------------------------- summary properties

  /** What the accumulators keep: every day with an entry is among the
      recorded dates and has messages, and no tool succeeds more often than
      it is used. */
  predicate TallyInvariant(t: Tally) {
    && (forall d :: d in t.daily ==> d in t.dates && t.daily[d].date == d && t.daily[d].message_count > 0)
    && SuccessesBounded(t.tools)
  }

  predicate SuccessesBounded(tools: map<string, ToolTally>) {
    forall n :: n in tools ==> tools[n].successes <= tools[n].uses
  }

  lemma {:induction false} BumpAllKeeps(tools: map<string, ToolTally>, names: seq<string>)
    requires SuccessesBounded(tools)
    ensures SuccessesBounded(BumpAll(tools, names))
    decreases |names|
  {
    if |names| > 0 {
      var prev := BumpAll(tools, names[..|names| - 1]);
      var name := names[|names| - 1];
      BumpAllKeeps(tools, names[..|names| - 1]);
      var r := BumpAll(tools, names);
      assert r == prev[name := BumpEntry(prev, name)];
      forall n | n in r
        ensures r[n].successes <= r[n].uses
      {
        if n != name {
          assert r[n] == prev[n];
        } else if name in prev {
          assert prev[name].successes <= prev[name].uses;
          assert r[n] == ToolTally(prev[name].uses + 1, prev[name].successes + 1);
        } else {
          assert r[n] == ToolTally(1, 1);
        }
      }
    }
  }

  lemma AddMessageKeeps(p: Progress, m: ClaudeMessage, at: Option<Instant>)
    requires TallyInvariant(p.tally)
    ensures TallyInvariant(AddMessage(p, m, at).tally)
  {
    var blocks := BumpAll(p.tally.tools, ContentToolNames(m));
    BumpAllKeeps(p.tally.tools, ContentToolNames(m));
    var tools := AddTools(p.tally.tools, m);
    forall n | n in tools
      ensures tools[n].successes <= tools[n].uses
    {
      if LegacyToolName(m).Some? {
        var name := LegacyToolName(m).value;
        assert tools == Bump(blocks, name, LegacySuccess(m));
        if n != name {
          assert tools[n] == blocks[n];
        }
      }
    }
  }

  lemma {:induction false} ScanLinesKeeps(p: Progress, lines: seq<Result<Session.Line>>,
                                         parseTime: string -> Option<Instant>, freshId: string, now: string)
    requires TallyInvariant(p.tally) && ScanLines(p, lines, parseTime, freshId, now).Ok?
    ensures TallyInvariant(ScanLines(p, lines, parseTime, freshId, now).value.tally)
    decreases |lines|
  {
    if |lines| > 0 {
      ScanLinesKeeps(p, lines[..|lines| - 1], parseTime, freshId, now);
      var q := ScanLines(p, lines[..|lines| - 1], parseTime, freshId, now).value;
      match lines[|lines| - 1]
      case Err(_) =>
      case Ok(None) =>
      case Ok(Some(e)) =>
        if TryFromEntry(e, freshId, now).Ok? {
          var m := TryFromEntry(e, freshId, now).value;
          AddMessageKeeps(q, m, parseTime(m.timestamp));
        }
    }
  }

  lemma {:induction false} ScanFilesKeeps(files: seq<Result<seq<Result<Session.Line>>>>,
                                         parseTime: string -> Option<Instant>, freshId: string, now: string)
    requires ScanFiles(files, parseTime, freshId, now).Ok?
    ensures TallyInvariant(ScanFiles(files, parseTime, freshId, now).value)
    decreases |files|
  {
    if |files| > 0 {
      ScanFilesKeeps(files[..|files| - 1], parseTime, freshId, now);
      var t := ScanFiles(files[..|files| - 1], parseTime, freshId, now).value;
      var lines := files[|files| - 1].value;
      ScanLinesKeeps(Progress(t, NoSpan), lines, parseTime, freshId, now);
    }
  }

  lemma OnlyItself(dates: set<string>, d: string)
    requires d in dates
    ensures |set x | x in dates && x == d| == 1
  {
    assert (set x | x in dates && x == d) == {d};
  }

  /** Every day of the summary counts exactly one session (its date was
      recorded before its entry was made) and between 1 and 24 active
      hours. */
  lemma DailyEntriesShape(projectPath: string, files: seq<Result<seq<Result<Session.Line>>>>,
                          parseTime: string -> Option<Instant>, freshId: string, now: string)
    requires SummaryOf(projectPath, files, parseTime, freshId, now).Ok?
    ensures var s := SummaryOf(projectPath, files, parseTime, freshId, now).value;
      forall d :: d in s.daily ==>
        s.daily[d].date == d && s.daily[d].session_count == 1 && 1 <= s.daily[d].active_hours <= 24
  {
    ScanFilesKeeps(files, parseTime, freshId, now);
    var t := ScanFiles(files, parseTime, freshId, now).value;
    forall d | d in t.daily
      ensures |set x | x in t.dates && x == d| == 1
    {
      OnlyItself(t.dates, d);
    }
  }

  /** No tool is reported with more successes than uses. */
  lemma ToolSuccessesBounded(projectPath: string, files: seq<Result<seq<Result<Session.Line>>>>,
                             parseTime: string -> Option<Instant>, freshId: string, now: string)
    requires SummaryOf(projectPath, files, parseTime, freshId, now).Ok?
    ensures var s := SummaryOf(projectPath, files, parseTime, freshId, now).value;
      forall n :: n in s.tools ==> s.tools[n].successes <= s.tools[n].uses
  {
    ScanFilesKeeps(files, parseTime, freshId, now);
  }

  /** Every tool_use block of an assistant message is one use and one
      success; a legacy call is one use, a success only with a clean result. */
  lemma LegacyCallCounted(tools: map<string, ToolTally>, m: ClaudeMessage)
    requires ContentToolNames(m) == [] && LegacyToolName(m).Some?
    ensures var n := LegacyToolName(m).value; var r := AddTools(tools, m);
      n in r && r[n].uses == (if n in tools then tools[n].uses else 0) + 1 &&
      r[n].successes == (if n in tools then tools[n].successes else 0) + (if LegacySuccess(m) then 1 else 0)
  {
  }

  /** The tally a name has so far; an unseen name has none. */
  function TallyOf(tools: map<string, ToolTally>, n: string): ToolTally {
    if n in tools then tools[n] else ToolTally(0, 0)
  }

  /** Matches one tool name. */
  function IsName(n: string): string -> bool {
    k => k == n
  }

  /** `*entry += 1` once per block: a name gains one use and one success
      for each of its occurrences among the block names, and every other
      name keeps its tally. */
  lemma {:induction false} BumpAllCounts(tools: map<string, ToolTally>, names: seq<string>, n: string)
    ensures TallyOf(BumpAll(tools, names), n) ==
      ToolTally(TallyOf(tools, n).uses + Count(names, IsName(n)), TallyOf(tools, n).successes + Count(names, IsName(n)))
    decreases |names|
  {
    if |names| > 0 {
      BumpAllCounts(tools, names[..|names| - 1], n);
    }
  }

  /** With no legacy call, a message adds to each name exactly as many uses
      and successes as it has tool_use blocks of that name. */
  lemma BlocksCounted(tools: map<string, ToolTally>, m: ClaudeMessage, n: string)
    requires LegacyToolName(m).None?
    ensures TallyOf(AddTools(tools, m), n) ==
      ToolTally(TallyOf(tools, n).uses + Count(ContentToolNames(m), IsName(n)),
                TallyOf(tools, n).successes + Count(ContentToolNames(m), IsName(n)))
  {
    BumpAllCounts(tools, ContentToolNames(m), n);
  }

  lemma BlockCallCounted(tools: map<string, ToolTally>, m: ClaudeMessage, name: string)
    requires ContentToolNames(m) == [name] && LegacyToolName(m).None?
    ensures var r := AddTools(tools, m);
      name in r && r[name].uses == (if name in tools then tools[name].uses else 0) + 1 &&
      r[name].successes == (if name in tools then tools[name].successes else 0) + 1
  {
    assert [name][..0] == [];
    assert BumpAll(tools, [name]) == tools[name := BumpEntry(tools, name)];
  }

  /** A message counts once in the summary, whether or not its time
      parses; only a parsed time adds to the daily and hourly tallies. */
  lemma {:induction false} MessagesCounted(p: Progress, lines: seq<Result<Session.Line>>,
                                          parseTime: string -> Option<Instant>, freshId: string, now: string)
    requires ScanLines(p, lines, parseTime, freshId, now).Ok?
    ensures ScanLines(p, lines, parseTime, freshId, now).value.tally.total_messages ==
      p.tally.total_messages + Count(lines, IsConvertedLine)
    decreases |lines|
  {
    if |lines| > 0 {
      MessagesCounted(p, lines[..|lines| - 1], parseTime, freshId, now);
    }
  }

  /** A read line that converts to a message. */
  predicate IsConvertedLine(l: Result<Session.Line>) {
    l.Ok? && Session.IsKept(l.value)
  }
}
