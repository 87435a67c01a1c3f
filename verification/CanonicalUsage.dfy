/**
  Canonical usage: a provider's session-cumulative counters are turned into
  per-Run deltas against a watermark anchor that is merged kind by kind
  (internal/application/canonical_usage.go, internal/domain/canonical_usage.go).
 */
module CanonicalUsage {
  import opened Wrappers
  import Text

  const MAX_INT64: int := 0x7FFF_FFFF_FFFF_FFFF
  type Int64 = x: int | -MAX_INT64 - 1 <= x <= MAX_INT64

  datatype Kind = CacheRead | CacheWrite | Cost | InputTotal | InputUncached | Output

  /** Place of a kind in the string order of the kind names. */
  function Rank(k: Kind): nat {
    match k
    case CacheRead => 0
    case CacheWrite => 1
    case Cost => 2
    case InputTotal => 3
    case InputUncached => 4
    case Output => 5
  }

  /** The nullable counter set shared by reports, deltas and anchors. */
  datatype Counters = Counters(
    total: Option<Int64>,
    uncached: Option<Int64>,
    cacheRead: Option<Int64>,
    cacheWrite: Option<Int64>,
    output: Option<Int64>)
  {
    function Get(k: Kind): Option<Int64> {
      match k
      case InputTotal => total
      case InputUncached => uncached
      case CacheRead => cacheRead
      case CacheWrite => cacheWrite
      case Output => output
      case Cost => None
    }

    function With(k: Kind, v: Option<Int64>): Counters {
      match k
      case InputTotal => this.(total := v)
      case InputUncached => this.(uncached := v)
      case CacheRead => this.(cacheRead := v)
      case CacheWrite => this.(cacheWrite := v)
      case Output => this.(output := v)
      case Cost => this
    }

    predicate AnyKnown() {
      total.Some? || uncached.Some? || cacheRead.Some? || cacheWrite.Some? || output.Some?
    }

    predicate NonNegative() {
      NonNeg(total) && NonNeg(uncached) && NonNeg(cacheRead) && NonNeg(cacheWrite) && NonNeg(output)
    }

    predicate ComponentsNonNegative() {
      NonNeg(uncached) && NonNeg(cacheRead) && NonNeg(cacheWrite)
    }

    predicate AllComponentsKnown() {
      uncached.Some? && cacheRead.Some? && cacheWrite.Some?
    }

    /** Sum of the known input components, without a width limit. */
    function KnownInput(): int {
      ValueOr0(uncached) + ValueOr0(cacheRead) + ValueOr0(cacheWrite)
    }

    /** Known components never exceed a known total, and equal it once all are known. */
    predicate InputShapeOk() {
      total.Some? ==>
        KnownInput() <= total.value && (AllComponentsKnown() ==> KnownInput() == total.value)
    }

    /** The domain rule for reports and canonical deltas. */
    predicate Valid() {
      NonNegative() && InputShapeOk()
    }
  }

  const UNKNOWN := Counters(None, None, None, None, None)

  predicate NonNeg(v: Option<Int64>) {
    v.Some? ==> v.value >= 0
  }

  function ValueOr0(v: Option<Int64>): int {
    if v.Some? then v.value else 0
  }

  function CheckedAddNonNegative(left: Int64, right: Int64): (r: Option<Int64>)
    ensures r.Some? <==> 0 <= left && 0 <= right && left + right <= MAX_INT64
    ensures r.Some? ==> r.value == left + right
  {
    if left < 0 || right < 0 || left > MAX_INT64 - right then None else Some(left + right)
  }

  function CheckedSubNonNegative(left: Int64, right: Int64): (r: Option<Int64>)
    ensures r.Some? <==> 0 <= right <= left
    ensures r.Some? ==> r.value == left - right
  {
    if left < 0 || right < 0 || right > left then None else Some(left - right)
  }

  // ----- sorting of kind lists -----

  predicate Ascending(kinds: seq<Kind>) {
    forall i, j | 0 <= i < j < |kinds| :: Rank(kinds[i]) < Rank(kinds[j])
  }

  predicate Distinct(kinds: seq<Kind>) {
    forall i, j | 0 <= i < j < |kinds| :: kinds[i] != kinds[j]
  }

  datatype ReasonEntry = ReasonEntry(kind: Kind, reason: Reason)

  datatype Reason =
    | CounterUnknown
    | AnchorCounterUnknown
    | Regressed
    | NotDecomposable
    | NotReported
    | PriceMissing
    | CostUnprovable
    | NoBaseline(why: BaselineReason)

  datatype BaselineReason =
    | NotNeeded
    | NotOwner
    | SessionRefMissing
    | AnchorUnavailable
    | AnchorInvalidated
    | SessionChanged
    | GenerationChanged
    | SegmentChanged
    | NotComparable

  function InsertByKind(x: ReasonEntry, xs: seq<ReasonEntry>): (r: seq<ReasonEntry>)
    ensures multiset(r) == multiset(xs) + multiset{x}
  {
    if xs == [] || Rank(x.kind) <= Rank(xs[0].kind) then
      [x] + xs
    else
      assert xs == [xs[0]] + xs[1..];
      [xs[0]] + InsertByKind(x, xs[1..])
  }

  function SortByKind(xs: seq<ReasonEntry>): (r: seq<ReasonEntry>)
    ensures multiset(r) == multiset(xs)
  {
    if xs == [] then []
    else
      assert xs == [xs[0]] + xs[1..];
      InsertByKind(xs[0], SortByKind(xs[1..]))
  }

  function KindsOf(xs: seq<ReasonEntry>): (r: seq<Kind>)
    ensures |r| == |xs|
  {
    seq(|xs|, i requires 0 <= i < |xs| => xs[i].kind)
  }

  predicate AscendingEntries(xs: seq<ReasonEntry>) {
    xs == [] ||
    ((forall e | e in xs[1..] :: Rank(xs[0].kind) < Rank(e.kind)) && AscendingEntries(xs[1..]))
  }

  lemma {:induction false} AscendingKinds(xs: seq<ReasonEntry>)
    requires AscendingEntries(xs)
    ensures Ascending(KindsOf(xs))
  {
    if xs == [] {
    } else {
      AscendingKinds(xs[1..]);
      forall i, j | 0 <= i < j < |xs|
        ensures Rank(KindsOf(xs)[i]) < Rank(KindsOf(xs)[j])
      {
        assert KindsOf(xs)[j] == KindsOf(xs[1..])[j - 1];
        if i == 0 {
          assert xs[j] in xs[1..];
        } else {
          assert KindsOf(xs)[i] == KindsOf(xs[1..])[i - 1];
        }
      }
    }
  }

  lemma {:induction false} InsertAscends(x: ReasonEntry, xs: seq<ReasonEntry>)
    requires AscendingEntries(xs) && forall e | e in xs :: e.kind != x.kind
    ensures AscendingEntries(InsertByKind(x, xs))
  {
    if xs == [] {
    } else if Rank(x.kind) <= Rank(xs[0].kind) {
      RankInjective(x.kind, xs[0].kind);
      assert ([x] + xs)[1..] == xs == [xs[0]] + xs[1..];
    } else {
      var rest := InsertByKind(x, xs[1..]);
      InsertAscends(x, xs[1..]);
      assert ([xs[0]] + rest)[1..] == rest;
      forall e | e in rest
        ensures Rank(xs[0].kind) < Rank(e.kind)
      {
        assert e in multiset(rest);
      }
    }
  }

  lemma {:induction false} RankInjective(a: Kind, b: Kind)
    ensures Rank(a) == Rank(b) ==> a == b
  {
  }

  /** Sorting entries of distinct kinds gives an ascending list. */
  lemma {:induction false} SortAscends(xs: seq<ReasonEntry>)
    requires forall i, j | 0 <= i < j < |xs| :: xs[i].kind != xs[j].kind
    ensures AscendingEntries(SortByKind(xs))
  {
    if xs == [] {
    } else {
      SortAscends(xs[1..]);
      forall e | e in SortByKind(xs[1..])
        ensures e.kind != xs[0].kind
      {
        assert e in multiset(xs[1..]);
      }
      InsertAscends(xs[0], SortByKind(xs[1..]));
    }
  }

  // ----- the per-kind delta and its decomposition check -----

  /** What one kind contributes before the decomposition check. */
  function RawDelta(report: Counters, baseline: Option<Counters>, k: Kind): (r: Option<Int64>)
    ensures NonNeg(r)
  {
    if report.Get(k).None? || baseline.None? || baseline.value.Get(k).None? then None
    else CheckedSubNonNegative(report.Get(k).value, baseline.value.Get(k).value)
  }

  function RawDeltas(report: Counters, baseline: Option<Counters>): Counters {
    Counters(RawDelta(report, baseline, InputTotal), RawDelta(report, baseline, InputUncached),
             RawDelta(report, baseline, CacheRead), RawDelta(report, baseline, CacheWrite),
             RawDelta(report, baseline, Output))
  }

  /** The per-Run delta: a total whose decomposition cannot be proved is dropped. */
  function DeltaOf(report: Counters, baseline: Option<Counters>): Counters {
    var raw := RawDeltas(report, baseline);
    if raw.InputShapeOk() then raw else raw.(total := None)
  }

  function WhyUnresolved(report: Counters, baseline: Option<Counters>, why: BaselineReason, k: Kind): Reason {
    if report.Get(k).None? then CounterUnknown
    else if baseline.None? then NoBaseline(why)
    else if baseline.value.Get(k).None? then AnchorCounterUnknown
    else if RawDelta(report, baseline, k).None? then Regressed
    else NotDecomposable
  }

  method InputDeltaDecompositionValid(delta: Counters) returns (ok: bool)
    ensures ok <==> delta.total.None? || (delta.ComponentsNonNegative() && delta.InputShapeOk())
  {
    if delta.total.None? {
      return true;
    }
    var components := [delta.uncached, delta.cacheRead, delta.cacheWrite];
    var knownSum: Int64 := 0;
    var known := true;
    for i := 0 to |components|
      invariant 0 <= knownSum
      invariant forall j | 0 <= j < i :: NonNeg(components[j])
      invariant known <==> forall j | 0 <= j < i :: components[j].Some?
      invariant knownSum == (if i > 0 then ValueOr0(components[0]) else 0) +
                            (if i > 1 then ValueOr0(components[1]) else 0) +
                            (if i > 2 then ValueOr0(components[2]) else 0)
    {
      var component := components[i];
      if component.None? {
        known := false;
        assert components[i].None?;
      } else {
        var sum := CheckedAddNonNegative(knownSum, component.value);
        if sum.None? {
          assert component.value >= 0 ==> knownSum + component.value > delta.total.value;
          assert !NonNeg(components[i]) || knownSum + components[i].value > MAX_INT64;
          return false;
        }
        knownSum := sum.value;
      }
    }
    assert delta.uncached == components[0] && delta.cacheRead == components[1] && delta.cacheWrite == components[2];
    if known && knownSum != delta.total.value {
      return false;
    }
    return knownSum <= delta.total.value;
  }

  method RemoveUsageKind(kinds: seq<Kind>, wanted: Kind) returns (filtered: seq<Kind>)
    requires Distinct(kinds)
    ensures Distinct(filtered)
    ensures forall k :: k in filtered <==> k in kinds && k != wanted
  {
    filtered := [];
    for i := 0 to |kinds|
      invariant Distinct(filtered)
      invariant forall k :: k in filtered <==> k in kinds[..i] && k != wanted
    {
      if kinds[i] != wanted {
        assert kinds[i] !in kinds[..i];
        filtered := filtered + [kinds[i]];
      }
      assert kinds[..i + 1] == kinds[..i] + [kinds[i]];
    }
    assert kinds[..|kinds|] == kinds;
  }

  method SortKinds(kinds: seq<Kind>) returns (sorted: seq<Kind>)
    requires Distinct(kinds)
    ensures Ascending(sorted)
    ensures forall k :: k in sorted <==> k in kinds
  {
    var entries := seq(|kinds|, i requires 0 <= i < |kinds| => ReasonEntry(kinds[i], CounterUnknown));
    assert KindsOf(entries) == kinds;
    SortAscends(entries);
    AscendingKinds(SortByKind(entries));
    sorted := KindsOf(SortByKind(entries));
    SameKinds(entries, SortByKind(entries));
  }

  method SortReasons(entries: seq<ReasonEntry>) returns (sorted: seq<ReasonEntry>)
    requires Distinct(KindsOf(entries))
    ensures Ascending(KindsOf(sorted)) && multiset(sorted) == multiset(entries)
    ensures forall k :: k in KindsOf(sorted) <==> k in KindsOf(entries)
  {
    forall i, j | 0 <= i < j < |entries|
      ensures entries[i].kind != entries[j].kind
    {
      assert KindsOf(entries)[i] != KindsOf(entries)[j];
    }
    SortAscends(entries);
    sorted := SortByKind(entries);
    AscendingKinds(sorted);
    SameKinds(entries, sorted);
  }

  lemma {:induction false} SameKinds(xs: seq<ReasonEntry>, ys: seq<ReasonEntry>)
    requires multiset(xs) == multiset(ys)
    ensures forall k :: k in KindsOf(xs) <==> k in KindsOf(ys)
  {
    forall k
      ensures k in KindsOf(xs) <==> k in KindsOf(ys)
    {
      if k in KindsOf(xs) {
        var i :| 0 <= i < |xs| && KindsOf(xs)[i] == k;
        assert xs[i] in multiset(ys);
        var j :| 0 <= j < |ys| && ys[j] == xs[i];
        assert KindsOf(ys)[j] == k;
      }
      if k in KindsOf(ys) {
        var i :| 0 <= i < |ys| && KindsOf(ys)[i] == k;
        assert ys[i] in multiset(xs);
        var j :| 0 <= j < |xs| && xs[j] == ys[i];
        assert KindsOf(xs)[j] == k;
      }
    }
  }

  const ENTRIES := [InputTotal, InputUncached, CacheRead, CacheWrite, Output]

  /** The subtraction kind by kind, in the order of the counter fields. */
  method SubtractBaseline(report: Counters, baseline: Option<Counters>, why: BaselineReason)
    returns (delta: Counters, resolved: seq<Kind>, reasons: seq<ReasonEntry>)
    ensures delta == RawDeltas(report, baseline)
    ensures Distinct(resolved) && forall k :: k in resolved <==> delta.Get(k).Some?
    ensures Distinct(KindsOf(reasons)) && forall k :: k in KindsOf(reasons) <==> k != Cost && delta.Get(k).None?
    ensures forall e | e in reasons :: e.reason == WhyUnresolved(report, baseline, why, e.kind)
  {
    delta, resolved, reasons := UNKNOWN, [], [];
    for i := 0 to |ENTRIES|
      invariant forall k :: delta.Get(k) == if k in ENTRIES[..i] then RawDelta(report, baseline, k) else None
      invariant Distinct(resolved) && forall k :: k in resolved <==> delta.Get(k).Some?
      invariant Distinct(KindsOf(reasons))
      invariant forall k :: k in KindsOf(reasons) <==> k in ENTRIES[..i] && delta.Get(k).None?
      invariant forall e | e in reasons :: e.reason == WhyUnresolved(report, baseline, why, e.kind)
    {
      var kind := ENTRIES[i];
      assert ENTRIES[..i + 1] == ENTRIES[..i] + [kind];
      assert kind !in ENTRIES[..i];
      var value := RawDelta(report, baseline, kind);
      if value.None? {
        var entry := ReasonEntry(kind, WhyUnresolved(report, baseline, why, kind));
        assert KindsOf(reasons + [entry]) == KindsOf(reasons) + [kind];
        reasons := reasons + [entry];
      } else {
        delta := delta.With(kind, value);
        resolved := resolved + [kind];
      }
    }
    assert ENTRIES[..|ENTRIES|] == ENTRIES;
    assert forall k :: k in ENTRIES <==> k != Cost;
    RawDeltasByKind(report, baseline, delta);
  }

  method CumulativeDelta(report: Counters, baseline: Option<Counters>, why: BaselineReason)
    returns (delta: Counters, resolved: seq<Kind>, unresolved: seq<Kind>, reasons: seq<ReasonEntry>)
    ensures delta == DeltaOf(report, baseline)
    ensures Ascending(resolved) && forall k :: k in resolved <==> delta.Get(k).Some?
    ensures Ascending(unresolved) && forall k :: k in unresolved <==> k != Cost && delta.Get(k).None?
    ensures Ascending(KindsOf(reasons)) && forall k :: k in KindsOf(reasons) <==> k in unresolved
    ensures forall e | e in reasons :: e.reason == WhyUnresolved(report, baseline, why, e.kind)
  {
    delta, resolved, reasons := SubtractBaseline(report, baseline, why);
    ghost var raw := delta;
    var decomposable := InputDeltaDecompositionValid(delta);
    if delta.total.Some? && !decomposable {
      delta := delta.(total := None);
      resolved := RemoveUsageKind(resolved, InputTotal);
      var entry := ReasonEntry(InputTotal, NotDecomposable);
      assert raw.Get(InputTotal).Some?;
      assert KindsOf(reasons + [entry]) == KindsOf(reasons) + [InputTotal];
      reasons := reasons + [entry];
    }
    assert forall k :: delta.Get(k) == if k == InputTotal then delta.total else raw.Get(k);
    ghost var before := reasons;
    resolved := SortKinds(resolved);
    unresolved := SortKinds(KindsOf(reasons));
    reasons := SortReasons(reasons);
    forall e | e in reasons
      ensures e.reason == WhyUnresolved(report, baseline, why, e.kind)
    {
      assert e in multiset(before);
    }
  }

  lemma {:induction false} RawDeltasByKind(report: Counters, baseline: Option<Counters>, delta: Counters)
    requires forall k :: delta.Get(k) == if k == Cost then None else RawDelta(report, baseline, k)
    ensures delta == RawDeltas(report, baseline)
  {
    assert delta.Get(InputTotal) == RawDelta(report, baseline, InputTotal);
    assert delta.Get(InputUncached) == RawDelta(report, baseline, InputUncached);
    assert delta.Get(CacheRead) == RawDelta(report, baseline, CacheRead);
    assert delta.Get(CacheWrite) == RawDelta(report, baseline, CacheWrite);
    assert delta.Get(Output) == RawDelta(report, baseline, Output);
  }

  // ----- requests, anchors and the decision -----

  datatype Basis = PerRun | SessionCumulative

  datatype Report = Report(
    runId: string, basis: Basis, adapterId: string, agentId: string, sessionRef: string,
    counters: Counters, digestMatches: bool)

  datatype Anchor = Anchor(
    ready: bool, adapterId: string, sessionRef: string, generation: int, segment: int,
    counters: Counters, sourceRunId: string)
  {
    predicate Valid() {
      && IsText(adapterId, 512)
      && (sessionRef != "" ==> IsText(sessionRef, 1024))
      && generation >= 0 && segment >= 1
      && counters.NonNegative()
      && IsTypedRunId(sourceRunId)
      && (if ready then sessionRef != "" && counters.AnyKnown() else !counters.AnyKnown())
    }
  }

  datatype Request = Request(
    report: Option<Report>, anchor: Option<Anchor>,
    runId: string, agentId: string, adapterId: string, sessionRef: string,
    generation: int, segment: int,
    ownershipKnown: bool, ownerRunId: string, ownerSeq: int,
    freshSession: bool, observed: bool)

  datatype Canonical = Canonical(
    runId: string, counters: Counters, cost: Option<Int64>, priced: bool,
    resolved: seq<Kind>, unresolved: seq<Kind>, reasons: seq<ReasonEntry>)

  datatype UsageError = InvalidRequest | ReportRejected | IdentityMismatch | NotObserved | InvalidAnchor

  datatype Outcome = Outcome(canonical: Canonical, nextAnchor: Option<Anchor>)

  predicate HasRunPrefix(s: string) {
    "run_" <= s
  }

  predicate IsTypedRunId(s: string) {
    Text.Trimmed(s) && HasRunPrefix(s) && |s| > 4
  }

  predicate IsText(s: string, maxRunes: nat) {
    !Text.AllSpace(s) && |s| <= maxRunes
  }

  predicate RequestOk(req: Request) {
    && req.report.Some?
    && !Text.AllSpace(req.runId) && HasRunPrefix(req.runId)
    && !Text.AllSpace(req.agentId) && !Text.AllSpace(req.adapterId)
    && req.generation >= 0 && req.segment >= 1
    && (req.sessionRef != "" ==> !Text.AllSpace(req.sessionRef))
  }

  /** The sealed report's shape and digest. */
  predicate Verified(r: Report) {
    && r.digestMatches
    && IsTypedRunId(r.runId)
    && r.counters.Valid()
    && IsText(r.adapterId, 512) && IsText(r.agentId, 512)
    && (r.sessionRef != "" ==> IsText(r.sessionRef, 1024))
  }

  predicate IdentityOk(req: Request)
    requires req.report.Some?
  {
    && req.report.value.runId == req.runId
    && req.report.value.agentId == req.agentId
    && req.report.value.adapterId == req.adapterId
    && (req.sessionRef != "" ==> req.report.value.sessionRef == req.sessionRef)
  }

  predicate OwnerMatch(req: Request) {
    || (!req.ownershipKnown && req.ownerRunId == "")
    || (req.ownerRunId == req.runId && req.ownerSeq >= 1)
  }

  predicate CompatibleAnchor(req: Request)
    requires req.report.Some?
  {
    && req.anchor.Some?
    && var a := req.anchor.value;
       && a.ready && a.adapterId == req.adapterId
       && a.sessionRef != "" && a.sessionRef == req.report.value.sessionRef
       && a.generation == req.generation && a.segment == req.segment
  }

  predicate ZeroBaseline(req: Request)
    requires req.report.Some?
  {
    OwnerMatch(req) && req.freshSession && !Text.AllSpace(req.report.value.sessionRef)
  }

  function ZeroKnown(c: Counters): Counters {
    Counters(Zero(c.total), Zero(c.uncached), Zero(c.cacheRead), Zero(c.cacheWrite), Zero(c.output))
  }

  function Zero(v: Option<Int64>): Option<Int64> {
    if v.None? then None else Some(0)
  }

  function BaselineOf(req: Request): Option<Counters>
    requires req.report.Some?
  {
    if ZeroBaseline(req) then Some(ZeroKnown(req.report.value.counters))
    else if OwnerMatch(req) && CompatibleAnchor(req) then Some(req.anchor.value.counters)
    else None
  }

  function BaselineReasonOf(req: Request): BaselineReason
    requires req.report.Some?
  {
    var ref := Text.TrimSpace(req.report.value.sessionRef);
    if !OwnerMatch(req) then NotOwner
    else if BaselineOf(req).Some? then NotNeeded
    else if ref == "" then SessionRefMissing
    else if req.anchor.None? then AnchorUnavailable
    else if !req.anchor.value.ready then AnchorInvalidated
    else if req.anchor.value.adapterId != req.adapterId || req.anchor.value.sessionRef != ref then SessionChanged
    else if req.anchor.value.generation != req.generation then GenerationChanged
    else if req.anchor.value.segment != req.segment then SegmentChanged
    else NotComparable
  }

  /** Watermark of one kind after an observation: unknown and lower reports keep the old value. */
  function MergeWatermark(previous: Option<Int64>, report: Option<Int64>): Option<Int64> {
    if report.None? then previous
    else if previous.None? then report
    else if report.value >= previous.value then report
    else previous
  }

  function MergeCounters(anchor: Counters, report: Counters): Counters {
    Counters(MergeWatermark(anchor.total, report.total),
             MergeWatermark(anchor.uncached, report.uncached),
             MergeWatermark(anchor.cacheRead, report.cacheRead),
             MergeWatermark(anchor.cacheWrite, report.cacheWrite),
             MergeWatermark(anchor.output, report.output))
  }

  function BuildNextAnchor(req: Request, sessionRef: string, counters: Counters): Option<Anchor> {
    var a := Anchor(true, req.adapterId, sessionRef, req.generation, req.segment, counters, req.runId);
    if sessionRef == "" || !counters.AnyKnown() || !a.Valid() then None else Some(a)
  }

  function NextAnchorOf(req: Request): Option<Anchor>
    requires req.report.Some?
  {
    var ref := Text.TrimSpace(req.report.value.sessionRef);
    if !OwnerMatch(req) then None
    else if ZeroBaseline(req) || req.anchor.None? then BuildNextAnchor(req, ref, req.report.value.counters)
    else if CompatibleAnchor(req) then
      BuildNextAnchor(req, ref, MergeCounters(req.anchor.value.counters, req.report.value.counters))
    else None
  }

  /** The numbers a request decides: the per-Run delta and the next watermark. */
  datatype Decision = Decision(delta: Counters, nextAnchor: Option<Anchor>)

  function Decide(req: Request): Result<Decision, UsageError> {
    if !RequestOk(req) then Failure(InvalidRequest)
    else if !Verified(req.report.value) then Failure(ReportRejected)
    else if !IdentityOk(req) then Failure(IdentityMismatch)
    else if req.report.value.basis == PerRun then Success(Decision(req.report.value.counters, None))
    else if !req.observed then Failure(NotObserved)
    else if req.anchor.Some? && !req.anchor.value.Valid() then Failure(InvalidAnchor)
    else Success(Decision(DeltaOf(req.report.value.counters, BaselineOf(req)), NextAnchorOf(req)))
  }

  /** What sealing a canonical usage demands of its counters, cost and kind lists. */
  ghost predicate SealOk(c: Canonical) {
    && c.counters.Valid()
    && NonNeg(c.cost) && (c.cost.Some? ==> c.priced)
    && Ascending(c.resolved) && Ascending(c.unresolved)
    && (forall k | k in c.resolved :: k !in c.unresolved)
    && (c.unresolved != [] <==> c.reasons != [])
    && (forall k | k != Cost ::
          && (k in c.resolved <==> c.counters.Get(k).Some?)
          && (c.counters.Get(k).None? ==> k in c.unresolved))
    && (Cost in c.resolved <==> c.cost.Some?)
  }

  method CanonicalizePerRun(report: Report) returns (canonical: Canonical)
    requires Verified(report)
    ensures canonical.counters == report.counters && canonical.runId == report.runId
    ensures canonical.cost.None? && !canonical.priced && Cost !in canonical.unresolved && SealOk(canonical)
  {
    var resolved, unresolved, reasons := [], [], [];
    for i := 0 to |ENTRIES|
      invariant Distinct(resolved) && Distinct(unresolved)
      invariant forall k :: k in resolved <==> k in ENTRIES[..i] && report.counters.Get(k).Some?
      invariant forall k :: k in unresolved <==> k in ENTRIES[..i] && report.counters.Get(k).None?
      invariant KindsOf(reasons) == unresolved
    {
      assert ENTRIES[..i + 1] == ENTRIES[..i] + [ENTRIES[i]];
      assert ENTRIES[i] !in ENTRIES[..i];
      if report.counters.Get(ENTRIES[i]).Some? {
        resolved := resolved + [ENTRIES[i]];
      } else {
        unresolved := unresolved + [ENTRIES[i]];
        reasons := reasons + [ReasonEntry(ENTRIES[i], CounterUnknown)];
        assert KindsOf(reasons) == unresolved;
      }
    }
    assert ENTRIES[..|ENTRIES|] == ENTRIES;
    assert forall k :: k in ENTRIES <==> k != Cost;
    ghost var all := unresolved;
    resolved := SortKinds(resolved);
    unresolved := SortKinds(unresolved);
    EmptyTogether(all, unresolved);
    canonical := Canonical(report.runId, report.counters, None, false, resolved, unresolved, reasons);
  }

  lemma {:induction false} EmptyTogether(xs: seq<Kind>, ys: seq<Kind>)
    requires forall k :: k in xs <==> k in ys
    ensures xs == [] <==> ys == []
  {
    if xs != [] { assert xs[0] in ys; }
    if ys != [] { assert ys[0] in xs; }
  }

  /**
    The whole canonicalization. On success the numbers are exactly the decided
    ones and sealing them cannot fail, whatever the report and the anchor were.
   */
  method CanonicalizeProviderUsageV1(req: Request) returns (result: Result<Outcome, UsageError>)
    ensures result.Success? <==> Decide(req).Success?
    ensures result.Failure? ==> Decide(req) == Failure(result.error)
    ensures result.Success? ==>
              && Decide(req) == Success(Decision(result.value.canonical.counters, result.value.nextAnchor))
              && result.value.canonical.runId == req.runId
              && result.value.canonical.cost.None? && !result.value.canonical.priced
              && Cost !in result.value.canonical.unresolved
              && SealOk(result.value.canonical)
  {
    if !RequestOk(req) {
      return Failure(InvalidRequest);
    }
    var report := req.report.value;
    if !Verified(report) {
      return Failure(ReportRejected);
    }
    if !IdentityOk(req) {
      return Failure(IdentityMismatch);
    }
    if report.basis == PerRun {
      var perRun := CanonicalizePerRun(report);
      return Success(Outcome(perRun, None));
    }
    if !req.observed {
      return Failure(NotObserved);
    }
    if req.anchor.Some? && !req.anchor.value.Valid() {
      return Failure(InvalidAnchor);
    }
    var baseline := BaselineOf(req);
    var delta, resolved, unresolved, reasons :=
      CumulativeDelta(report.counters, baseline, BaselineReasonOf(req));
    DeltaIsValid(report.counters, baseline);
    EmptyTogether(unresolved, KindsOf(reasons));
    var canonical := Canonical(req.runId, delta, None, false, resolved, unresolved, reasons);
    return Success(Outcome(canonical, NextAnchorOf(req)));
  }

  // ----- decomposition -----

  /** Every delta obeys the decomposition rule of the canonical contract. */
  lemma {:induction false} DeltaIsValid(report: Counters, baseline: Option<Counters>)
    ensures DeltaOf(report, baseline).Valid()
  {
  }

  /** All input counters known, non-negative, and adding up to the total. */
  predicate Exact(c: Counters) {
    c.NonNegative() && c.total.Some? && c.AllComponentsKnown() && c.KnownInput() == c.total.value
  }

  predicate NotBelow(report: Counters, baseline: Counters, k: Kind)
    requires report.Get(k).Some? && baseline.Get(k).Some?
  {
    baseline.Get(k).value <= report.Get(k).value
  }

  /**
    Between two exact observations the total is resolved exactly when no
    component regressed, and then the component deltas add up to it.
   */
  lemma {:induction false} ExactDecomposition(report: Counters, baseline: Counters)
    requires Exact(report) && Exact(baseline)
    ensures var d := DeltaOf(report, Some(baseline));
            && (d.total.Some? <==>
                  && NotBelow(report, baseline, InputUncached)
                  && NotBelow(report, baseline, CacheRead)
                  && NotBelow(report, baseline, CacheWrite))
            && (d.total.Some? ==> Exact(d) && d.total.value == report.total.value - baseline.total.value)
  {
    var d := RawDeltas(report, Some(baseline));
    assert d.uncached.Some? ==> d.uncached.value == report.uncached.value - baseline.uncached.value;
    assert d.cacheRead.Some? ==> d.cacheRead.value == report.cacheRead.value - baseline.cacheRead.value;
    assert d.cacheWrite.Some? ==> d.cacheWrite.value == report.cacheWrite.value - baseline.cacheWrite.value;
  }

  // ----- conservation over a provider session -----

  /** The identity under which one provider session accumulates. */
  datatype Session = Session(adapterId: string, ref: string, generation: int, segment: int)

  /** A cumulative report of the session by a Run that owns the anchor. */
  predicate InSession(req: Request, s: Session) {
    && req.report.Some?
    && RequestOk(req) && Verified(req.report.value) && IdentityOk(req)
    && req.report.value.basis == SessionCumulative && req.observed
    && OwnerMatch(req)
    && req.adapterId == s.adapterId && req.report.value.sessionRef == s.ref
    && req.generation == s.generation && req.segment == s.segment
  }

  predicate AnchorOfSession(anchor: Option<Anchor>, s: Session) {
    anchor.Some? ==>
      && anchor.value.Valid() && anchor.value.ready
      && anchor.value.adapterId == s.adapterId && anchor.value.sessionRef == s.ref
      && anchor.value.generation == s.generation && anchor.value.segment == s.segment
  }

  function DecisionFor(req: Request, anchor: Option<Anchor>): Decision {
    match Decide(req.(anchor := anchor))
    case Success(d) => d
    case Failure(_) => Decision(UNKNOWN, None)
  }

  /** The stored anchor after a Run: it only changes when the decision brings a new one. */
  function Advance(req: Request, anchor: Option<Anchor>): Option<Anchor> {
    var d := DecisionFor(req, anchor);
    if d.nextAnchor.Some? then d.nextAnchor else anchor
  }

  function FinalAnchor(anchor: Option<Anchor>, reqs: seq<Request>): Option<Anchor>
    decreases |reqs|
  {
    if reqs == [] then anchor else FinalAnchor(Advance(reqs[0], anchor), reqs[1..])
  }

  function Watermark(anchor: Option<Anchor>, k: Kind): Option<Int64> {
    if anchor.None? then None else anchor.value.counters.Get(k)
  }

  /** Sum of the deltas the ledger accepts for one kind over the Runs of a chain. */
  function Ledger(anchor: Option<Anchor>, reqs: seq<Request>, k: Kind): int
    decreases |reqs|
  {
    if reqs == [] then 0
    else ValueOr0(DecisionFor(reqs[0], anchor).delta.Get(k)) + Ledger(Advance(reqs[0], anchor), reqs[1..], k)
  }

  function ReportedBy(req: Request, k: Kind): Option<Int64> {
    if req.report.None? then None else req.report.value.counters.Get(k)
  }

  /** The values a provider reported for one kind, in order. */
  function Reported(reqs: seq<Request>, k: Kind): seq<Int64>
  {
    if reqs == [] then []
    else
      Known(ReportedBy(reqs[0], k)) + Reported(reqs[1..], k)
  }

  /** All values observed for one kind: the watermark at the start, then the reports. */
  function Observed(anchor: Option<Anchor>, reqs: seq<Request>, k: Kind): seq<Int64>
  {
    Known(Watermark(anchor, k)) + Reported(reqs, k)
  }

  /** The largest of x and the values that follow. */
  function Peak(x: Int64, rest: seq<Int64>): (r: Int64)
    ensures r >= x && (forall v | v in rest :: v <= r)
    ensures r == x || r in rest
    decreases |rest|
  {
    if rest == [] then x
    else
      assert rest == [rest[0]] + rest[1..];
      Peak(if rest[0] >= x then rest[0] else x, rest[1..])
  }

  function Highest(values: seq<Int64>): Option<Int64> {
    if values == [] then None else Some(Peak(values[0], values[1..]))
  }

  /** Highest value observed minus the first one observed. */
  function Movement(values: seq<Int64>): int {
    if values == [] then 0 else Peak(values[0], values[1..]) - values[0]
  }

  lemma {:induction false} MergeByKind(anchor: Counters, report: Counters, k: Kind)
    ensures MergeCounters(anchor, report).Get(k) == MergeWatermark(anchor.Get(k), report.Get(k))
  {
  }

  /** One Run of the session: the new anchor is the merge, still of the session. */
  lemma {:induction false} SessionStep(req: Request, s: Session, anchor: Option<Anchor>)
    requires InSession(req, s) && !req.freshSession && AnchorOfSession(anchor, s)
    requires s.ref != "" && Text.Trimmed(s.ref)
    ensures AnchorOfSession(Advance(req, anchor), s)
    ensures forall k :: Watermark(Advance(req, anchor), k) ==
                        MergeWatermark(Watermark(anchor, k), req.report.value.counters.Get(k))
    ensures DecisionFor(req, anchor).delta ==
            DeltaOf(req.report.value.counters, if anchor.Some? then Some(anchor.value.counters) else None)
  {
    hide Text.IsSpace;
    Text.TrimOfTrimmed(s.ref);
    var r := req.(anchor := anchor);
    var report := req.report.value.counters;
    assert Decide(r).Success?;
    assert BaselineOf(r) == if anchor.Some? then Some(anchor.value.counters) else None;
    if anchor.Some? {
      var merged := MergeCounters(anchor.value.counters, report);
      forall k ensures merged.Get(k) == MergeWatermark(anchor.value.counters.Get(k), report.Get(k)) {
        MergeByKind(anchor.value.counters, report, k);
      }
      assert merged.NonNegative();
      assert merged.AnyKnown();
      assert NextAnchorOf(r).Some?;
    }
  }

  function Known(v: Option<Int64>): seq<Int64> {
    if v.Some? then [v.value] else []
  }

  /** Merging one report into the watermark moves it by what the Run is charged. */
  lemma {:induction false} MergeMoves(w: Option<Int64>, v: Option<Int64>, rest: seq<Int64>)
    ensures var seen, next := Known(w) + (Known(v) + rest), Known(MergeWatermark(w, v)) + rest;
            && (seen == [] <==> next == [])
            && (seen != [] ==> Peak(seen[0], seen[1..]) == Peak(next[0], next[1..]))
            && Movement(seen) == Movement(next) +
                 (if w.Some? && v.Some? && w.value <= v.value then v.value - w.value else 0)
  {
    var seen, next := Known(w) + (Known(v) + rest), Known(MergeWatermark(w, v)) + rest;
    if w.Some? && v.Some? {
      assert seen[1..] == [v.value] + rest && seen[1..][1..] == rest && next[1..] == rest;
    } else {
      assert seen == next;
    }
  }

  /**
    Conservation over any chain of Runs of one provider session, with reports
    missing or regressing arbitrarily: the deltas of a kind add up to the highest
    value observed minus the first, the final watermark is that highest value,
    and for the input total the deltas never add up to more.
   */
  lemma {:induction false} SessionConservation(s: Session, anchor: Option<Anchor>, reqs: seq<Request>, k: Kind)
    requires s.ref != "" && Text.Trimmed(s.ref) && k != Cost
    requires AnchorOfSession(anchor, s)
    requires forall r | r in reqs :: InSession(r, s) && !r.freshSession
    ensures AnchorOfSession(FinalAnchor(anchor, reqs), s)
    ensures Watermark(FinalAnchor(anchor, reqs), k) == Highest(Observed(anchor, reqs, k))
    ensures if k == InputTotal then Ledger(anchor, reqs, k) <= Movement(Observed(anchor, reqs, k))
            else Ledger(anchor, reqs, k) == Movement(Observed(anchor, reqs, k))
    decreases |reqs|
  {
    if reqs == [] {
      assert Observed(anchor, reqs, k) == Known(Watermark(anchor, k));
    } else {
      SessionStep(reqs[0], s, anchor);
      var next := Advance(reqs[0], anchor);
      SessionConservation(s, next, reqs[1..], k);
      var w, v := Watermark(anchor, k), ReportedBy(reqs[0], k);
      MergeMoves(w, v, Reported(reqs[1..], k));
      ChargedByKind(reqs[0].report.value.counters, anchor, k);
    }
  }

  /** What a Run of the session is charged for one kind. */
  lemma {:induction false} ChargedByKind(report: Counters, anchor: Option<Anchor>, k: Kind)
    requires k != Cost
    ensures var d := DeltaOf(report, if anchor.Some? then Some(anchor.value.counters) else None).Get(k);
            var w, v := Watermark(anchor, k), report.Get(k);
            && 0 <= ValueOr0(d) <= (if w.Some? && v.Some? && w.value <= v.value then v.value - w.value else 0)
            && (k != InputTotal && NonNeg(w) && w.Some? && v.Some? && w.value <= v.value ==>
                  ValueOr0(d) == v.value - w.value)
  {
  }

  /** A fresh session counts from zero for every kind its first report knows. */
  lemma {:induction false} FreshSessionConservation(s: Session, anchor: Option<Anchor>, reqs: seq<Request>, k: Kind)
    requires s.ref != "" && Text.Trimmed(s.ref) && k != Cost
    requires anchor.Some? ==> anchor.value.Valid()
    requires reqs != [] && InSession(reqs[0], s)
    requires reqs[0].freshSession && reqs[0].report.value.counters.AnyKnown()
    requires forall r | r in reqs[1..] :: InSession(r, s) && !r.freshSession
    ensures Watermark(FinalAnchor(anchor, reqs), k) == Highest(Reported(reqs, k))
    ensures if k == InputTotal then Ledger(anchor, reqs, k) <= FromZero(reqs, k)
            else Ledger(anchor, reqs, k) == FromZero(reqs, k)
  {
    FreshStep(reqs[0], s, anchor);
    SessionConservation(s, Advance(reqs[0], anchor), reqs[1..], k);
  }

  /** Highest value reported, or its rise over the first one when the first report did not know the kind. */
  function FromZero(reqs: seq<Request>, k: Kind): int
    requires reqs != []
  {
    Movement(Reported(reqs, k)) + ValueOr0(ReportedBy(reqs[0], k))
  }

  lemma {:induction false} FreshStep(first: Request, s: Session, anchor: Option<Anchor>)
    requires s.ref != "" && Text.Trimmed(s.ref)
    requires anchor.Some? ==> anchor.value.Valid()
    requires InSession(first, s) && first.freshSession && first.report.value.counters.AnyKnown()
    ensures AnchorOfSession(Advance(first, anchor), s)
    ensures Advance(first, anchor).Some? && Advance(first, anchor).value.counters == first.report.value.counters
    ensures DecisionFor(first, anchor).delta == first.report.value.counters
  {
    hide Text.IsSpace;
    Text.TrimOfTrimmed(s.ref);
    var r := first.(anchor := anchor);
    var report := first.report.value.counters;
    assert Decide(r).Success? && ZeroBaseline(r);
    assert BaselineOf(r) == Some(ZeroKnown(report));
    assert RawDeltas(report, Some(ZeroKnown(report))) == report;
  }

  /** No Run of the session lowers a watermark or makes one unknown. */
  lemma {:induction false} WatermarksNeverFall(s: Session, anchor: Option<Anchor>, req: Request, k: Kind)
    requires s.ref != "" && Text.Trimmed(s.ref)
    requires AnchorOfSession(anchor, s) && InSession(req, s) && !req.freshSession
    requires Watermark(anchor, k).Some?
    ensures Watermark(Advance(req, anchor), k).Some?
    ensures Watermark(Advance(req, anchor), k).value >= Watermark(anchor, k).value
  {
    SessionStep(req, s, anchor);
  }

  /**
    The session reference is trimmed when it is stored but compared untrimmed:
    an anchor written by a report is usable by the next report of the same
    session exactly when the reference carries no white space at its ends.
   */
  lemma {:induction false} PaddedReferenceNeverMatches(req: Request, next: Request)
    requires Decide(req).Success? && req.report.value.basis == SessionCumulative
    requires NextAnchorOf(req).Some?
    requires next.report.Some? && next.report.value.sessionRef == req.report.value.sessionRef
    requires next.adapterId == req.adapterId
    requires next.generation == req.generation && next.segment == req.segment
    ensures CompatibleAnchor(next.(anchor := NextAnchorOf(req))) <==> Text.Trimmed(req.report.value.sessionRef)
  {
    var ref := req.report.value.sessionRef;
    assert NextAnchorOf(req).value.sessionRef == Text.TrimSpace(ref);
    Text.TrimSpaceCuts(ref);
    if Text.Trimmed(ref) { Text.TrimOfTrimmed(ref); }
  }

  /** A cumulative report of five output tokens by the owning Run of a session. */
  function ExampleRequest(run: string, ref: string, anchor: Option<Anchor>): Request {
    var output := Counters(None, None, None, None, Some(5));
    Request(Some(Report(run, SessionCumulative, "kimi", "agent_1", ref, output, true)), anchor,
            run, "agent_1", "kimi", "", 0, 1, true, run, 1, anchor.None?, true)
  }

  lemma {:induction false} ExampleTexts()
    ensures Text.TrimSpace("s ") == "s" && Text.TrimSpace("s") == "s" && !Text.Trimmed("s ") && !Text.AllSpace("s ")
    ensures Text.Trimmed("run_1") && Text.Trimmed("run_2") && !Text.AllSpace("s")
    ensures "s " != "s"
  {
    assert "s "[0] == 's' && Text.IsSpace("s "[1]) && !Text.IsSpace("s "[0]);
    assert Text.TrimLeft("s ") == "s ";
    assert "s "[..1] == "s";
    assert Text.TrimRight("s ") == Text.TrimRight("s") == "s";
  }

  /** Such a report is in order, whichever anchor it meets. */
  lemma {:induction false} ExampleIsAccepted(run: string, anchor: Option<Anchor>)
    requires run == "run_1" || run == "run_2"
    requires anchor.Some? ==> anchor.value.Valid()
    ensures Decide(ExampleRequest(run, "s ", anchor)).Success?
  {
    var req := ExampleRequest(run, "s ", anchor);
    assert run[..4] == "run_" && |run| == 5;
    assert !Text.IsSpace(run[0]) && !Text.IsSpace(run[4]) && !Text.IsSpace("s "[0]);
    assert !Text.IsSpace("kimi"[0]) && !Text.IsSpace("agent_1"[0]);
    assert RequestOk(req) && Verified(req.report.value) && IdentityOk(req);
  }

  /** A reference with a trailing blank: the first report stores an anchor that the next one cannot use. */
  lemma {:induction false} PaddedReferenceExample(first: Request, next: Request)
    requires first == ExampleRequest("run_1", "s ", None)
    requires next == ExampleRequest("run_2", "s ", NextAnchorOf(first))
    ensures Decide(first).Success? && NextAnchorOf(first).Some?
    ensures Decide(next).Success? && !CompatibleAnchor(next) && !Decide(next).value.delta.AnyKnown()
  {
    ExampleTexts();
    ExampleIsAccepted("run_1", None);
    var anchor := Anchor(true, "kimi", "s", 0, 1, Counters(None, None, None, None, Some(5)), "run_1");
    assert anchor.Valid() by {
      assert "run_1"[..4] == "run_" && !Text.IsSpace("kimi"[0]);
    }
    assert ZeroBaseline(first);
    assert NextAnchorOf(first) == Some(anchor);
    ExampleIsAccepted("run_2", Some(anchor));
    assert BaselineOf(next).None?;
  }
}
