/**
  Replaying a conversation within a model's window: the token estimate, the
  marker that joins an answer to its tool trace, and the ageing compression of
  older answers (internal/application/conversation.go, sessions.go).
 */
module History {
  import opened Wrappers
  import opened Text

  const FALLBACK_WINDOW := 32768
  const RECENT_TURNS := 4
  const MAX_ASSISTANT_RUNES := 400
  const ELLIPSIS := "\U{2026}"
  const HEADER := "[\U{672C}\U{8F6E}\U{6267}\U{884C}\U{8F68}\U{8FF9}]"

  /** A replayed message; extra stands for its other fields, such as a user message's source reference. */
  datatype Message = Message(role: string, text: string, extra: string)

  // ----- the estimate -----

  predicate IsCjk(c: char) { '\U{4E00}' <= c <= '\U{9FFF}' }

  function Cjk(s: string): nat {
    if s == [] then 0 else Cjk(s[..|s| - 1]) + (if IsCjk(s[|s| - 1]) then 1 else 0)
  }

  function Estimate(s: string): nat { Cjk(s) + (|s| - Cjk(s)) / 4 }

  lemma {:induction false} CjkBounded(s: string)
    ensures Cjk(s) <= |s|
  {
    if s != [] { CjkBounded(s[..|s| - 1]); }
  }

  lemma {:induction false} CjkAdds(a: string, b: string)
    ensures Cjk(a + b) == Cjk(a) + Cjk(b)
  {
    if b == [] {
      assert a + b == a;
    } else {
      assert (a + b)[..|a + b| - 1] == a + b[..|b| - 1];
      CjkAdds(a, b[..|b| - 1]);
    }
  }

  /** estimateTokens: one token a CJK character, one for every four others. */
  method EstimateTokens(text: string) returns (n: nat)
    ensures n == Estimate(text)
  {
    var cjk, other := 0, 0;
    var i := 0;
    while i < |text|
      invariant 0 <= i <= |text|
      invariant cjk == Cjk(text[..i]) && cjk + other == i
    {
      assert text[..i + 1][..i] == text[..i];
      if IsCjk(text[i]) { cjk := cjk + 1; } else { other := other + 1; }
      i := i + 1;
    }
    assert text[..i] == text;
    n := cjk + other / 4;
  }

  /** Fewer characters of either sort never estimate higher. */
  lemma {:induction false} PartsEstimateLess(a: string, m: string, b: string)
    ensures Estimate(m) <= Estimate(a + m + b)
    ensures |m| <= |a + m + b| && Cjk(m) <= Cjk(a + m + b) && |m| - Cjk(m) <= |a + m + b| - Cjk(a + m + b)
  {
    CjkAdds(a + m, b);
    CjkAdds(a, m);
    CjkBounded(a);
    CjkBounded(b);
    CjkBounded(m);
  }

  function Tokens(history: seq<Message>): nat {
    if history == [] then 0 else Tokens(history[..|history| - 1]) + Estimate(history[|history| - 1].text)
  }

  function Budget(window: int): int {
    (if window <= 0 then FALLBACK_WINDOW else window) * 35 / 100
  }

  method HistoryExceedsBudget(history: seq<Message>, window: int) returns (over: bool)
    ensures over <==> Tokens(history) > Budget(window)
  {
    var used := 0;
    var i := 0;
    while i < |history|
      invariant 0 <= i <= |history| && used == Tokens(history[..i])
    {
      assert history[..i + 1][..i] == history[..i];
      var n := EstimateTokens(history[i].text);
      used := used + n;
      i := i + 1;
    }
    assert history[..i] == history;
    over := used > Budget(window);
  }

  // ----- answers and their traces -----

  const MARKER := "\n\n" + HEADER

  predicate StartsWith(s: string, p: string) { |p| <= |s| && s[..|p|] == p }

  predicate OccursAt(s: string, p: string, i: nat) { i + |p| <= |s| && s[i..i + |p|] == p }

  predicate Contains(s: string, p: string) { exists i :: 0 <= i <= |s| && OccursAt(s, p, i) }

  /** The first occurrence, if any. */
  function Index(s: string, p: string): (r: Option<nat>)
    ensures r.Some? ==> OccursAt(s, p, r.value) && forall j :: 0 <= j < r.value ==> !OccursAt(s, p, j)
    ensures r.None? ==> forall j: nat :: !OccursAt(s, p, j)
  {
    IndexFrom(s, p, 0)
  }

  function IndexFrom(s: string, p: string, i: nat): (r: Option<nat>)
    requires forall j :: 0 <= j < i ==> !OccursAt(s, p, j)
    ensures r.Some? ==> OccursAt(s, p, r.value) && forall j :: 0 <= j < r.value ==> !OccursAt(s, p, j)
    ensures r.None? ==> forall j: nat :: !OccursAt(s, p, j)
    decreases |s| - i
  {
    if i + |p| > |s| then None else if OccursAt(s, p, i) then Some(i) else IndexFrom(s, p, i + 1)
  }

  /** How a replayed answer is put together: trimmed prose, then the trace behind the marker. */
  function Join(prose: string, trace: string): string {
    if trace == "" then prose else if prose == "" then trace else prose + "\n\n" + trace
  }

  /** splitAssistantTrace */
  function Split(text: string): (string, string) {
    if StartsWith(text, HEADER + "\n") then ("", text)
    else
      var i := Index(text, MARKER);
      if i.Some? then (text[..i.value], text[i.value + 2..]) else (text, "")
  }

  function Truncate(s: string, max: nat): string {
    if |s| <= max then s else s[..max] + ELLIPSIS
  }

  function Shortened(prose: string): string { TrimSpace(Truncate(TrimSpace(prose), MAX_ASSISTANT_RUNES)) }

  /** compactAssistant */
  function Compacted(text: string): string {
    Join(Shortened(Split(text).0), TrimSpace(Split(text).1))
  }

  predicate IsTrace(trace: string) { StartsWith(trace, HEADER + "\n") }

  /** Prose that the splitter would itself take for a trace. */
  predicate Misleading(prose: string, trace: string) {
    || Contains(prose, MARKER) || StartsWith(prose, HEADER + "\n")
    || (trace != "" && prose == HEADER)
  }

  lemma {:induction false} MarkerShape()
    ensures |HEADER| == 8 && |MARKER| == 10 && MARKER[0] == '\n' && MARKER[1] == '\n' && MARKER[2] == '['
    ensures MARKER[2..] == HEADER && HEADER[0] == '['
    ensures forall k :: 0 <= k < |HEADER| ==> HEADER[k] != '\n'
  {
  }

  lemma {:induction false} OccurrenceMeans(s: string, p: string, i: nat)
    requires OccursAt(s, p, i)
    ensures forall k :: 0 <= k < |p| ==> s[i + k] == p[k]
  {
    forall k | 0 <= k < |p|
      ensures s[i + k] == p[k]
    {
      assert s[i..i + |p|][k] == s[i + k];
    }
  }

  lemma {:induction false} OccurrenceInPrefix(a: string, b: string, p: string, i: nat)
    requires i + |p| <= |a|
    ensures OccursAt(a + b, p, i) <==> OccursAt(a, p, i)
  {
    assert (a + b)[i..i + |p|] == a[i..i + |p|];
  }

  /** The marker of a joined answer is the first one, unless the prose has its own. */
  lemma {:induction false} FirstMarker(prose: string, trace: string, i: nat)
    requires Trimmed(prose) && prose != "" && IsTrace(trace) && i < |prose|
    requires OccursAt(prose + "\n\n" + trace, MARKER, i)
    ensures OccursAt(prose, MARKER, i)
  {
    MarkerShape();
    var s := prose + "\n\n" + trace;
    OccurrenceMeans(s, MARKER, i);
    var n := |prose|;
    assert s[i] == '\n' && s[i + 1] == '\n' && s[n] == '\n' && s[n + 1] == '\n';
    assert i + |MARKER| <= n;
    OccurrenceInPrefix(prose, "\n\n" + trace, MARKER, i);
    assert prose + ("\n\n" + trace) == s;
  }

  lemma {:induction false} StartsWithHeader(prose: string, rest: string)
    requires prose != ""
    ensures StartsWith(prose + "\n\n" + rest, HEADER + "\n") <==> StartsWith(prose, HEADER + "\n") || prose == HEADER
  {
    MarkerShape();
    var s, h, n := prose + "\n\n" + rest, HEADER + "\n", |prose|;
    assert s[n] == '\n';
    if n >= 9 {
      assert s[..9] == prose[..9];
    } else if n == 8 {
      assert s[..9] == prose + "\n";
      assert (prose + "\n")[..8] == prose && h[..8] == HEADER;
    } else {
      PrefixAt(s, h, n);
      assert h[n] == HEADER[n];
    }
  }

  lemma {:induction false} PrefixAt(s: string, p: string, k: nat)
    requires k < |p| && k < |s|
    ensures StartsWith(s, p) ==> s[k] == p[k]
  {
    if StartsWith(s, p) { assert s[..|p|][k] == s[k]; }
  }

  lemma {:induction false} MarkerBetween(prose: string, trace: string)
    requires IsTrace(trace)
    ensures OccursAt(prose + "\n\n" + trace, MARKER, |prose|)
  {
    MarkerShape();
    assert trace[..8] == (HEADER + "\n")[..8] == HEADER;
    assert (prose + "\n\n" + trace)[|prose|..|prose| + 10] == "\n\n" + trace[..8];
  }

  /** The marker in between comes first exactly when the prose has none of its own. */
  lemma {:induction false} FirstMarkerExactly(prose: string, trace: string)
    requires Trimmed(prose) && prose != "" && IsTrace(trace)
    ensures Index(prose + "\n\n" + trace, MARKER).Some? && Index(prose + "\n\n" + trace, MARKER).value <= |prose|
    ensures Index(prose + "\n\n" + trace, MARKER) == Some(|prose|) <==> !Contains(prose, MARKER)
  {
    MarkerBetween(prose, trace);
    hide Trimmed, IsTrace, StartsWith, OccursAt;
    var s := prose + "\n\n" + trace;
    var i := Index(s, MARKER).value;
    if i < |prose| {
      FirstMarker(prose, trace, i);
      assert Contains(prose, MARKER);
    } else {
      forall j | 0 <= j <= |prose|
        ensures !OccursAt(prose, MARKER, j)
      {
        OwnMarker(prose, trace, j);
      }
    }
  }

  lemma {:induction false} OwnMarker(prose: string, trace: string, j: nat)
    requires j < |prose| ==> !OccursAt(prose + "\n\n" + trace, MARKER, j)
    ensures !OccursAt(prose, MARKER, j)
  {
    if j + |MARKER| <= |prose| {
      OccurrenceInPrefix(prose, "\n\n" + trace, MARKER, j);
      assert prose + ("\n\n" + trace) == prose + "\n\n" + trace;
    }
  }

  /** With both parts there, the marker between them decides unless an earlier one does. */
  lemma {:induction false} BothParts(prose: string, trace: string)
    requires Trimmed(prose) && prose != "" && IsTrace(trace)
    ensures Split(prose + "\n\n" + trace) == (prose, trace) <==> !Misleading(prose, trace)
  {
    StartsWithHeader(prose, trace);
    FirstMarkerExactly(prose, trace);
    hide Trimmed, IsTrace, StartsWith, OccursAt, Contains, Index;
    var s := prose + "\n\n" + trace;
    assert s[..|prose|] == prose && s[|prose| + 2..] == trace;
  }

  /** Splitting undoes joining exactly for prose that cannot be taken for a trace. */
  lemma {:induction false} JoinSplitsExactly(prose: string, trace: string)
    requires Trimmed(prose) && (trace == "" || IsTrace(trace))
    ensures Split(Join(prose, trace)) == (prose, trace) <==> !Misleading(prose, trace)
  {
    MarkerShape();
    if prose != "" && trace != "" {
      hide Split, Misleading;
      BothParts(prose, trace);
    }
  }

  // ----- compaction never costs tokens -----

  predicate Lighter(a: string, b: string) {
    Cjk(a) <= Cjk(b) && |a| - Cjk(a) <= |b| - Cjk(b)
  }

  /** At worst one CJK character has become an ellipsis. */
  predicate Cheaper(a: string, b: string) {
    Lighter(a, b) || (Cjk(a) + 1 <= Cjk(b) && |a| - Cjk(a) <= |b| - Cjk(b) + 1)
  }

  lemma {:induction false} TrimmingIsLighter(s: string)
    ensures Lighter(TrimSpace(s), s)
  {
    TrimSpaceCuts(s);
    var l, r :| s == l + TrimSpace(s) + r && AllSpace(l) && AllSpace(r);
    PartsEstimateLess(l, TrimSpace(s), r);
  }

  lemma {:induction false} TruncatingIsCheaper(s: string, max: nat)
    ensures Cheaper(Truncate(s, max), s)
  {
    if |s| > max {
      assert s == s[..max] + s[max..];
      CjkAdds(s[..max], s[max..]);
      CjkAdds(s[..max], ELLIPSIS);
      assert ELLIPSIS[..0] == "" && Cjk(ELLIPSIS) == 0;
      CjkBounded(s[max..]);
    }
  }

  lemma {:induction false} JoiningStaysCheaper(p: string, p0: string, t: string, t0: string)
    requires Cheaper(p, p0) && Lighter(t, t0)
    ensures Cheaper(Join(p, t), p0 + "\n\n" + t0)
  {
    CjkAdds(p0 + "\n\n", t0);
    CjkAdds(p0, "\n\n");
    CjkAdds(p + "\n\n", t);
    CjkAdds(p, "\n\n");
    NewlinesAreOther();
    CjkBounded(p);
    CjkBounded(t);
    CjkBounded(p0);
    CjkBounded(t0);
  }

  lemma {:induction false} NewlinesAreOther()
    ensures Cjk("\n\n") == 0
  {
    assert "\n\n"[..1] == "\n" && "\n"[..0] == "";
  }

  lemma {:induction false} SplitParts(text: string)
    ensures var (prose, trace) := Split(text);
            || (text == prose && trace == "") || (text == trace && prose == "") || text == prose + "\n\n" + trace
  {
    MarkerShape();
    if !StartsWith(text, HEADER + "\n") && Index(text, MARKER).Some? {
      var i := Index(text, MARKER).value;
      OccurrenceMeans(text, MARKER, i);
      assert text[i..i + 2] == "\n\n";
      assert text == text[..i] + text[i..i + 2] + text[i + 2..];
    }
  }

  /** Compacting an answer never raises its estimate. */
  lemma {:induction false} CompactionIsCheaper(text: string)
    ensures Estimate(Compacted(text)) <= Estimate(text)
  {
    var (prose, trace) := Split(text);
    SplitParts(text);
    TrimmingIsLighter(prose);
    TruncatingIsCheaper(TrimSpace(prose), MAX_ASSISTANT_RUNES);
    TrimmingIsLighter(Truncate(TrimSpace(prose), MAX_ASSISTANT_RUNES));
    TrimmingIsLighter(trace);
    hide Split, TrimSpace, Truncate;
    JoiningStaysCheaper(Shortened(prose), prose, TrimSpace(trace), trace);
    CjkBounded(Compacted(text));
    CjkBounded(text);
    EmptyParts(prose, trace);
  }

  lemma {:induction false} EmptyParts(prose: string, trace: string)
    ensures trace == "" ==> Join(Shortened(prose), TrimSpace(trace)) == Shortened(prose)
    ensures prose == "" ==> Join(Shortened(prose), TrimSpace(trace)) == TrimSpace(trace)
  {
    TrimOfTrimmed("");
  }

  // ----- what compaction keeps -----

  predicate EndsWith(s: string, t: string) { |t| <= |s| && s[|s| - |t|..] == t }

  /** The trace stays at the end of the message, word for word up to outer white space. */
  lemma {:induction false} TraceStays(text: string)
    ensures EndsWith(Compacted(text), TrimSpace(Split(text).1))
  {
    hide Split, TrimSpace, Truncate;
  }

  lemma {:induction false} TruncatedProse(prose: string)
    requires Trimmed(prose)
    ensures Shortened(prose) == Truncate(prose, MAX_ASSISTANT_RUNES) && Trimmed(Shortened(prose))
    ensures prose != "" <==> Shortened(prose) != ""
  {
    TrimOfTrimmed(prose);
    var t := Truncate(prose, MAX_ASSISTANT_RUNES);
    if |prose| > MAX_ASSISTANT_RUNES { assert t[0] == prose[0] && t[|t| - 1] == ELLIPSIS[0]; }
    TrimOfTrimmed(t);
  }

  lemma {:induction false} ShortenedDoesNotMislead(prose: string, trace: string)
    requires Trimmed(prose) && !Misleading(prose, trace)
    ensures !Misleading(Shortened(prose), trace)
  {
    TruncatedProse(prose);
    MarkerShape();
    if |prose| > MAX_ASSISTANT_RUNES {
      var cut := prose[..MAX_ASSISTANT_RUNES];
      forall j | 0 <= j <= |cut + ELLIPSIS|
        ensures !OccursAt(cut + ELLIPSIS, MARKER, j)
      {
        MarkerNotCut(prose, j);
      }
      assert (cut + ELLIPSIS)[..9] == prose[..9];
    }
  }

  /** The ellipsis is no part of the marker, so cutting prose short makes no new one. */
  lemma {:induction false} MarkerNotCut(prose: string, j: nat)
    requires |prose| > MAX_ASSISTANT_RUNES && !Contains(prose, MARKER)
    ensures !OccursAt(prose[..MAX_ASSISTANT_RUNES] + ELLIPSIS, MARKER, j)
  {
    var cut := prose[..MAX_ASSISTANT_RUNES];
    MarkerShape();
    if j + 10 <= |cut| {
      OccurrenceInPrefix(cut, ELLIPSIS, MARKER, j);
      OccurrenceInPrefix(cut, prose[MAX_ASSISTANT_RUNES..], MARKER, j);
      assert cut + prose[MAX_ASSISTANT_RUNES..] == prose;
      assert !OccursAt(prose, MARKER, j);
    } else if j + 10 == |cut| + 1 {
      assert (cut + ELLIPSIS)[j..j + 10][9] == ELLIPSIS[0];
      assert MARKER[9] == HEADER[7];
    }
  }

  /**
    An aged answer that was joined from honest prose and a trace still splits into its shortened prose and
    that trace.
   */
  lemma {:induction false} AgedAnswersKeepTheirTrace(prose: string, trace: string)
    requires Trimmed(prose) && IsTrace(trace) && Trimmed(trace) && !Misleading(prose, trace)
    ensures Compacted(Join(prose, trace)) == Join(Truncate(prose, MAX_ASSISTANT_RUNES), trace)
    ensures Split(Compacted(Join(prose, trace))) == (Truncate(prose, MAX_ASSISTANT_RUNES), trace)
  {
    JoinSplitsExactly(prose, trace);
    TrimOfTrimmed(trace);
    TruncatedProse(prose);
    ShortenedDoesNotMislead(prose, trace);
    JoinSplitsExactly(Shortened(prose), trace);
  }

  lemma {:induction false} TrimRightBehind(a: string, t: string)
    requires t != "" && !IsSpace(t[0])
    ensures TrimRight(a + t) == a + TrimRight(t)
  {
    var n := |t| - 1;
    if IsSpace(t[n]) {
      assert (a + t)[..|a + t| - 1] == a + t[..n];
      TrimRightBehind(a, t[..n]);
    }
  }

  lemma {:induction false} TrimLeftBefore(a: string, t: string) returns (b: string)
    requires t != "" && !IsSpace(t[0])
    ensures TrimLeft(a + t) == b + t
  {
    if a == [] || !IsSpace(a[0]) {
      assert a == [] ==> a + t == t;
      b := a;
    } else {
      assert (a + t)[1..] == a[1..] + t;
      b := TrimLeftBefore(a[1..], t);
    }
  }

  /** Trimming a text that ends with something visible trims the end of that. */
  lemma {:induction false} TrimmingKeepsTheEnd(a: string, t: string)
    requires t != "" && !IsSpace(t[0])
    ensures EndsWith(TrimSpace(a + t), TrimSpace(t))
  {
    var b := TrimLeftBefore(a, t);
    TrimRightBehind(b, t);
  }

  lemma {:induction false} TraceIsVisible(trace: string)
    requires IsTrace(trace)
    ensures trace != "" && !IsSpace(trace[0])
  {
    MarkerShape();
    PrefixAt(trace, HEADER + "\n", 0);
  }

  /** What the splitter takes for the trace of a joined answer has the real trace at its end. */
  lemma {:induction false} SplitHoldsTrace(prose: string, trace: string) returns (before: string)
    requires IsTrace(trace)
    ensures Split(Join(prose, trace)).1 == before + trace
  {
    TraceIsVisible(trace);
    before := "";
    if prose != "" {
      var s := prose + "\n\n" + trace;
      if StartsWith(s, HEADER + "\n") {
        before := prose + "\n\n";
      } else {
        MarkerBetween(prose, trace);
        var i := Index(s, MARKER).value;
        hide OccursAt;
        before := (prose + "\n\n")[i + 2..];
        assert s[i + 2..] == before + trace;
      }
    } else {
      assert "" + trace == trace;
    }
  }

  /** However misleading the prose, an aged answer still ends with its trace, word for word. */
  lemma {:induction false} TraceSurvives(prose: string, trace: string)
    requires IsTrace(trace)
    ensures EndsWith(Compacted(Join(prose, trace)), TrimSpace(trace))
  {
    var before := SplitHoldsTrace(prose, trace);
    TraceIsVisible(trace);
    TrimmingKeepsTheEnd(before, trace);
    TraceStays(Join(prose, trace));
    hide Split, TrimSpace, Truncate, Compacted;
  }

  // ----- the replayed conversation -----

  const MAX_TOOL_LINES := 20
  const DONE := "\U{5B8C}\U{6210}"
  const FAILED := "\U{5931}\U{8D25}"
  const UNFINISHED := "\U{672A}\U{5B8C}\U{6210}"
  const UNKNOWN_TOOL := "\U{672A}\U{77E5}\U{5DE5}\U{5177}"

  datatype CallEnd = Completed | Failed | Unfinished

  /** One tool call of a Run, with its arguments already cut to one line. */
  datatype Call = Call(name: string, args: string, end: CallEnd)

  /** What one Run contributes: the user's side, the assistant's text, its tool calls. */
  datatype Replayed = Replayed(run: string, user: string, text: string, calls: seq<Call>)

  function CallLine(c: Call): string {
    "- " + (if c.name == "" then UNKNOWN_TOOL else c.name) + (if c.args == "" then "" else "(" + c.args + ")") + ": "
    + (match c.end case Completed => DONE case Failed => FAILED case Unfinished => UNFINISHED)
  }

  function Lines(calls: seq<Call>): string {
    if calls == [] then "" else Lines(calls[..|calls| - 1]) + "\n" + CallLine(calls[|calls| - 1])
  }

  function Decimal(n: nat): string {
    (if n < 10 then "" else Decimal(n / 10)) + [('0' as int + n % 10) as char]
  }

  function OmittedLine(skipped: nat): string {
    "\n" + ELLIPSIS + "\U{53E6}\U{6709} " + Decimal(skipped)
    + " \U{6B21}\U{66F4}\U{65E9}\U{7684}\U{5DE5}\U{5177}\U{8C03}\U{7528}\U{FF08}\U{7565}\U{FF09}"
  }

  /** The trace of a Run: its last calls, one a line, behind the header. */
  function Section(calls: seq<Call>): string {
    if calls == [] then ""
    else if |calls| <= MAX_TOOL_LINES then HEADER + Lines(calls)
    else HEADER + OmittedLine(|calls| - MAX_TOOL_LINES) + Lines(calls[|calls| - MAX_TOOL_LINES..])
  }

  method ToolTraceSection(calls: seq<Call>) returns (trace: string)
    ensures trace == Section(calls)
  {
    hide CallLine, OmittedLine;
    if calls == [] { return ""; }
    trace := HEADER;
    var lines := calls;
    if |calls| > MAX_TOOL_LINES {
      trace := trace + OmittedLine(|calls| - MAX_TOOL_LINES);
      lines := calls[|calls| - MAX_TOOL_LINES..];
    }
    ghost var opening := trace;
    for i := 0 to |lines|
      invariant trace == opening + Lines(lines[..i])
    {
      assert lines[..i + 1][..i] == lines[..i];
      trace := trace + "\n" + CallLine(lines[i]);
    }
    assert lines[..|lines|] == lines;
  }

  function Answer(r: Replayed): string { Join(TrimSpace(r.text), Section(r.calls)) }

  function MessagesOf(r: Replayed): seq<Message> {
    (if r.user != "" then [Message("user", r.user, "conversation:run:" + r.run)] else [])
    + (if Answer(r) != "" then [Message("assistant", Answer(r), "")] else [])
  }

  function Conversation(runs: seq<Replayed>): seq<Message> {
    if runs == [] then [] else Conversation(runs[..|runs| - 1]) + MessagesOf(runs[|runs| - 1])
  }

  method ConversationHistory(runs: seq<Replayed>) returns (messages: seq<Message>)
    ensures messages == Conversation(runs)
  {
    hide TrimSpace, Section;
    messages := [];
    for i := 0 to |runs|
      invariant messages == Conversation(runs[..i])
    {
      assert runs[..i + 1][..i] == runs[..i];
      var r := runs[i];
      if r.user != "" { messages := messages + [Message("user", r.user, "conversation:run:" + r.run)]; }
      var assistant := TrimSpace(r.text);
      var trace := ToolTraceSection(r.calls);
      if trace != "" {
        if assistant != "" { assistant := assistant + "\n\n"; }
        assistant := assistant + trace;
      }
      assert assistant == Answer(r);
      if assistant != "" { messages := messages + [Message("assistant", assistant, "")]; }
    }
    assert runs[..|runs|] == runs;
  }

  lemma {:induction false} LinesBegin(calls: seq<Call>)
    requires calls != []
    ensures Lines(calls) != "" && Lines(calls)[0] == '\n' && !IsSpace(Lines(calls)[|Lines(calls)| - 1])
  {
    var n := |calls| - 1;
    hide Section;
    if n > 0 { LinesBegin(calls[..n]); } else { assert Lines(calls[..n]) == ""; }
  }

  lemma {:induction false} HeadedIsTrace(rest: string)
    requires rest != "" && rest[0] == '\n' && !IsSpace(rest[|rest| - 1])
    ensures IsTrace(HEADER + rest) && TrimSpace(HEADER + rest) == HEADER + rest
  {
    MarkerShape();
    var t := HEADER + rest;
    assert t[..9] == HEADER + "\n";
    TrimOfTrimmed(t);
  }

  /** Every trace of a Run is one the splitter knows, with nothing to trim. */
  lemma {:induction false} SectionIsTrace(calls: seq<Call>)
    requires calls != []
    ensures IsTrace(Section(calls)) && TrimSpace(Section(calls)) == Section(calls)
  {
    hide IsTrace, TrimSpace, IsSpace, Lines;
    if |calls| <= MAX_TOOL_LINES {
      LinesBegin(calls);
      HeadedIsTrace(Lines(calls));
    } else {
      var shown := calls[|calls| - MAX_TOOL_LINES..];
      var omitted := OmittedLine(|calls| - MAX_TOOL_LINES);
      assert omitted != "" && omitted[0] == '\n';
      LinesBegin(shown);
      hide OmittedLine;
      HeadedIsTrace(omitted + Lines(shown));
      assert HEADER + (omitted + Lines(shown)) == HEADER + omitted + Lines(shown);
    }
  }

  /** An answer with tool calls ends with their trace, and still does when it has aged. */
  lemma {:induction false} AnswerKeepsItsTrace(r: Replayed)
    requires r.calls != []
    ensures EndsWith(Answer(r), Section(r.calls)) && EndsWith(Compacted(Answer(r)), Section(r.calls))
  {
    SectionIsTrace(r.calls);
    TraceIsVisible(Section(r.calls));
    hide Section, TrimSpace, Compacted, IsTrace;
    TraceSurvives(TrimSpace(r.text), Section(r.calls));
    JoinEndsWithTrace(TrimSpace(r.text), Section(r.calls));
  }

  lemma {:induction false} JoinEndsWithTrace(prose: string, trace: string)
    requires trace != ""
    ensures EndsWith(Join(prose, trace), trace)
  {
  }

  // ----- ageing a whole history -----

  predicate IsUser(m: Message) { m.role == "user" }

  function Users(history: seq<Message>): nat {
    if history == [] then 0
    else Users(history[..|history| - 1]) + (if IsUser(history[|history| - 1]) then 1 else 0)
  }

  /** The turn a message belongs to, counted from zero; -1 before the first user message. */
  function TurnOf(history: seq<Message>, i: nat): int
    requires i < |history|
  {
    Users(history[..i + 1]) - 1
  }

  /** Only what comes before the last RECENT_TURNS turns ages, and only if there are more turns than that. */
  predicate Aged(history: seq<Message>, i: nat)
    requires i < |history|
  {
    && !IsUser(history[i]) && Users(history) > RECENT_TURNS
    && TurnOf(history, i) < Users(history) - RECENT_TURNS
  }

  function Digested(history: seq<Message>, i: nat): Message
    requires i < |history|
  {
    if Aged(history, i) then Message("assistant", Compacted(history[i].text), "") else history[i]
  }

  /** Every aged answer compacted, everything else as it was. */
  predicate DigestOf(history: seq<Message>, out: seq<Message>) {
    |out| == |history| && forall i :: 0 <= i < |history| ==> out[i] == Digested(history, i)
  }

  lemma {:induction false} NoUsersYet(history: seq<Message>)
    ensures Users(history[..0]) == 0
  {
  }

  lemma {:induction false} OneMoreUser(history: seq<Message>, i: nat)
    requires i < |history|
    ensures Users(history[..i + 1]) == Users(history[..i]) + (if history[i].role == "user" then 1 else 0)
  {
    assert history[..i + 1][..i] == history[..i];
  }

  lemma {:induction false} DigestedIs(history: seq<Message>, i: nat)
    requires i < |history|
    ensures Digested(history, i) ==
            if history[i].role != "user" && Users(history) > RECENT_TURNS
               && Users(history[..i + 1]) - 1 < Users(history) - RECENT_TURNS
            then Message("assistant", Compacted(history[i].text), "") else history[i]
  {
    hide Compacted, Users;
  }

  /** compressHistoryDigest */
  method CompressHistoryDigest(history: seq<Message>) returns (out: seq<Message>)
    ensures DigestOf(history, out)
  {
    hide Compacted, Digested, Users;
    NoUsersYet(history);
    var total := 0;
    var n := 0;
    while n < |history|
      invariant 0 <= n <= |history| && total == Users(history[..n])
    {
      OneMoreUser(history, n);
      if history[n].role == "user" { total := total + 1; }
      n := n + 1;
    }
    assert history[..n] == history;
    var firstFull := total - RECENT_TURNS;
    if firstFull <= 0 {
      forall i | 0 <= i < |history|
        ensures Digested(history, i) == history[i]
      {
        DigestedIs(history, i);
      }
      return history;
    }
    var turn := -1;
    out := [];
    var i := 0;
    while i < |history|
      invariant 0 <= i <= |history| && turn == Users(history[..i]) - 1
      invariant |out| == i
      invariant forall k :: 0 <= k < i ==> out[k] == Digested(history, k)
    {
      OneMoreUser(history, i);
      DigestedIs(history, i);
      var m := history[i];
      i := i + 1;
      if m.role == "user" {
        turn := turn + 1;
        out := out + [m];
        continue;
      }
      if turn < firstFull {
        out := out + [Message("assistant", Compacted(m.text), "")];
        continue;
      }
      out := out + [m];
    }
  }

  /** User messages and the last turns are untouched; the roles are, exactly when every aged message was an answer. */
  lemma {:induction false} DigestKeeps(history: seq<Message>, out: seq<Message>)
    requires DigestOf(history, out)
    ensures |out| == |history|
    ensures forall i ::
              0 <= i < |history| && (IsUser(history[i]) || TurnOf(history, i) >= Users(history) - RECENT_TURNS) ==>
              out[i] == history[i]
    ensures (forall i :: 0 <= i < |history| ==> out[i].role == history[i].role) <==>
            (forall i :: 0 <= i < |history| && Aged(history, i) ==> history[i].role == "assistant")
    ensures forall i :: 0 <= i < |history| ==>
              EndsWith(out[i].text, TrimSpace(Split(history[i].text).1)) || out[i] == history[i]
  {
    hide Compacted, TrimSpace, Split, EndsWith;
    forall i | 0 <= i < |history| && Aged(history, i)
      ensures EndsWith(out[i].text, TrimSpace(Split(history[i].text).1))
    {
      TraceStays(history[i].text);
    }
    if forall i :: 0 <= i < |history| ==> out[i].role == history[i].role {
      forall i | 0 <= i < |history| && Aged(history, i)
        ensures history[i].role == "assistant"
      {
        assert out[i].role == history[i].role;
      }
    }
  }

  /** A message of a replayed conversation is a user's, or the answer of some Run. */
  predicate FromRuns(runs: seq<Replayed>, m: Message) {
    || m.role == "user"
    || (m.role == "assistant" && exists k :: 0 <= k < |runs| && m.text == Answer(runs[k]))
  }

  lemma {:induction false} ConversationIsFromRuns(runs: seq<Replayed>)
    ensures forall i :: 0 <= i < |Conversation(runs)| ==> FromRuns(runs, Conversation(runs)[i])
  {
    hide Answer;
    if runs != [] {
      var n := |runs| - 1;
      var earlier, all := Conversation(runs[..n]), Conversation(runs);
      ConversationIsFromRuns(runs[..n]);
      forall i | 0 <= i < |all|
        ensures FromRuns(runs, all[i])
      {
        if i < |earlier| {
          assert FromRuns(runs[..n], earlier[i]);
          if earlier[i].role != "user" {
            var k :| 0 <= k < n && earlier[i].text == Answer(runs[..n][k]);
            assert runs[k] == runs[..n][k];
          }
        }
      }
    }
  }

  /**
    Ageing a replayed conversation keeps every role, and every answer ends with the trace of some Run it ended
    with.
   */
  lemma {:induction false} AgeingKeepsRolesAndTraces(runs: seq<Replayed>, out: seq<Message>, i: nat)
    requires DigestOf(Conversation(runs), out) && i < |out|
    ensures out[i].role == Conversation(runs)[i].role
    ensures out[i].role == "assistant" ==>
              exists k :: 0 <= k < |runs| && Conversation(runs)[i].text == Answer(runs[k])
                          && (runs[k].calls != [] ==> EndsWith(out[i].text, Section(runs[k].calls)))
  {
    ConversationIsFromRuns(runs);
    var m := Conversation(runs)[i];
    assert FromRuns(runs, m);
    assert out[i] == m || (m.role != "user" && out[i] == Message("assistant", Compacted(m.text), ""));
    hide Compacted, Answer, Section, Aged, Conversation, EndsWith;
    if m.role != "user" {
      var k :| 0 <= k < |runs| && m.text == Answer(runs[k]);
      if runs[k].calls != [] { AnswerKeepsItsTrace(runs[k]); }
    }
  }

  /** A Run whose whole answer is the header: the splitter takes its prose for a part of the trace. */
  lemma {:induction false} MisleadingExample(r: Replayed)
    requires r == Replayed("run_1", "go on", HEADER, [Call("bash", "ls", Completed)])
    ensures Conversation([r]) == [Message("user", "go on", "conversation:run:run_1"),
              Message("assistant", Answer(r), "")]
    ensures Split(Answer(r)) != (TrimSpace(r.text), Section(r.calls))
  {
    MarkerShape();
    assert Trimmed(HEADER);
    TrimOfTrimmed(HEADER);
    SectionIsTrace(r.calls);
    TraceIsVisible(Section(r.calls));
    JoinSplitsExactly(HEADER, Section(r.calls));
    hide Split, Section, TrimSpace;
    assert [r][..0] == [] && Conversation([]) == [];
    assert "go on" != "" && Answer(r) != "";
    assert "conversation:run:" + "run_1" == "conversation:run:run_1";
  }

  lemma {:induction false} MessagewiseCheaper(history: seq<Message>, out: seq<Message>)
    requires |out| == |history| && forall i :: 0 <= i < |history| ==> Estimate(out[i].text) <= Estimate(history[i].text)
    ensures Tokens(out) <= Tokens(history)
  {
    if history != [] {
      var n := |history| - 1;
      assert forall i :: 0 <= i < n ==> out[..n][i] == out[i] && history[..n][i] == history[i];
      MessagewiseCheaper(history[..n], out[..n]);
    }
  }

  /** Ageing never raises the estimate of a history. */
  lemma {:induction false} DigestIsCheaper(history: seq<Message>, out: seq<Message>)
    requires DigestOf(history, out)
    ensures Tokens(out) <= Tokens(history)
  {
    hide Compacted, Estimate, Aged;
    forall i | 0 <= i < |history|
      ensures Estimate(out[i].text) <= Estimate(history[i].text)
    {
      CompactionIsCheaper(history[i].text);
    }
    MessagewiseCheaper(history, out);
  }

  // ----- the three tiers -----

  datatype Tier = Full | Digest | Handoff

  /** planHistoryReplay: whole if it fits, aged if that fits, otherwise nothing is replayed and the session rotates. */
  method PlanHistoryReplay(history: seq<Message>, window: int) returns (tier: Tier, replay: Option<seq<Message>>)
    ensures replay.Some? ==> Tokens(replay.value) <= Budget(window)
    ensures tier == Full <==> Tokens(history) <= Budget(window)
    ensures tier == Full ==> replay == Some(history)
    ensures tier == Digest ==> replay.Some? && DigestOf(history, replay.value)
    ensures tier == Handoff <==> replay.None?
    ensures tier == Handoff ==> forall out :: DigestOf(history, out) ==> Tokens(out) > Budget(window)
  {
    var over := HistoryExceedsBudget(history, window);
    if !over { return Full, Some(history); }
    var digest := CompressHistoryDigest(history);
    forall out | DigestOf(history, out)
      ensures out == digest
    {
      OneDigest(history, out, digest);
    }
    over := HistoryExceedsBudget(digest, window);
    if over { return Handoff, None; }
    return Digest, Some(digest);
  }

  lemma {:induction false} OneDigest(history: seq<Message>, a: seq<Message>, b: seq<Message>)
    requires DigestOf(history, a) && DigestOf(history, b)
    ensures a == b
  {
  }
}
