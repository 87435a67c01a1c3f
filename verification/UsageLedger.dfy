/**
  The terminal hook that freezes a Run's usage and advances the session anchor
  (internal/application/canonical_usage_hook.go), against a store in which reads
  may be stale: an attempt reads a Run and its session, and commits later.
 */
module UsageLedger {
  import opened Wrappers
  import opened CanonicalUsage
  import Text
  import UsageCost

  // ----- the stored rows -----

  datatype PriceInput = NoPrice | BadPrice | Priced(price: UsageCost.Price)

  datatype Run = Run(
    id: string, agentId: string, freshStart: bool, governed: bool, price: PriceInput,
    terminal: bool, report: Option<Report>, canonical: Option<Canonical>, version: nat)

  /** The session row of one (workspace, agent, adapter, task) key. */
  datatype TaskSession = TaskSession(
    lastRunId: string, anchorRunSeq: int, generation: int, segment: int,
    anchor: Option<Anchor>, anchorSeq: int)

  datatype Store = Store(runs: map<string, Run>, session: Option<TaskSession>)

  /** What a hook read before it decided. */
  datatype Attempt = Attempt(run: Run, session: Option<TaskSession>, allowAbsent: bool)

  datatype HookError =
    | BadUsage(error: UsageError)
    | PriceRejected
    | CostFailed
    | CasRejected
    | VersionConflict

  // ----- the decision of one attempt -----

  function RequestFor(run: Run, session: Option<TaskSession>): Request
    requires run.report.Some?
  {
    var adapter := run.report.value.adapterId;
    match session
    case None => Request(run.report, None, run.id, run.agentId, adapter, "", 0, 1, true, "", 0, run.freshStart, true)
    case Some(t) =>
      Request(run.report, t.anchor, run.id, run.agentId, adapter, "", t.generation,
              if t.segment > 1 then t.segment else 1, true, t.lastRunId, t.anchorRunSeq, run.freshStart, true)
  }

  datatype Usage = Usage(counters: Counters, nextAnchor: Option<Anchor>, cost: Option<Int64>, priced: bool)

  /** The usage an attempt writes; None when there is nothing to write yet. */
  function UsageOf(att: Attempt): Result<Option<Usage>, HookError> {
    if att.run.report.Some? then
      match Decide(RequestFor(att.run, att.session))
      case Failure(e) => Failure(BadUsage(e))
      case Success(d) => WithCost(att.run, d.delta, d.nextAnchor)
    else if att.allowAbsent then WithCost(att.run, UNKNOWN, None)
    else Success(None)
  }

  function WithCost(run: Run, counters: Counters, nextAnchor: Option<Anchor>): Result<Option<Usage>, HookError> {
    match run.price
    case NoPrice => Success(Some(Usage(counters, nextAnchor, None, false)))
    case BadPrice => Failure(PriceRejected)
    case Priced(p) =>
      if !p.Valid() then Failure(PriceRejected)
      else
        match UsageCost.CostOf(counters, p)
        case Micros(amount) => Success(Some(Usage(counters, nextAnchor, Some(amount), true)))
        case Unresolved(_) => Success(Some(Usage(counters, nextAnchor, None, true)))
        case ArithmeticFailure => Failure(CostFailed)
  }

  /** A sealed record carrying exactly a usage. */
  ghost predicate Carries(c: Canonical, run: Run, u: Usage) {
    && c.runId == run.id && c.counters == u.counters && c.cost == u.cost && c.priced == u.priced
    && SealOk(c)
    && (Cost in c.unresolved <==> u.cost.None? && (u.priced || run.governed))
  }

  method AppendKindSorted(kinds: seq<Kind>, kind: Kind) returns (sorted: seq<Kind>)
    requires Ascending(kinds) && kind !in kinds
    ensures Ascending(sorted) && forall k :: k in sorted <==> k in kinds || k == kind
  {
    forall i, j | 0 <= i < j < |kinds|
      ensures kinds[i] != kinds[j]
    {
      assert Rank(kinds[i]) < Rank(kinds[j]);
    }
    sorted := SortKinds(kinds + [kind]);
  }

  method AppendKindUniqueSorted(kinds: seq<Kind>, kind: Kind) returns (sorted: seq<Kind>)
    requires Ascending(kinds)
    ensures Ascending(sorted) && forall k :: k in sorted <==> k in kinds || k == kind
  {
    if kind in kinds {
      return kinds;
    }
    sorted := AppendKindSorted(kinds, kind);
  }

  /** A first-stage record: sealed, with the cost not yet considered. */
  ghost predicate BeforeCost(c: Canonical, run: Run, counters: Counters) {
    && c.runId == run.id && c.counters == counters && c.cost.None? && !c.priced
    && SealOk(c) && Cost !in c.resolved && Cost !in c.unresolved
  }

  method StampCost(run: Run, canonical: Canonical, ghost nextAnchor: Option<Anchor>)
    returns (stamped: Result<Canonical, HookError>)
    requires BeforeCost(canonical, run, canonical.counters)
    ensures stamped.Failure? ==> WithCost(run, canonical.counters, nextAnchor) == Failure(stamped.error)
    ensures stamped.Success? ==>
              && WithCost(run, canonical.counters, nextAnchor).Success?
              && WithCost(run, canonical.counters, nextAnchor).value.Some?
              && Carries(stamped.value, run, WithCost(run, canonical.counters, nextAnchor).value.value)
  {
    match run.price
    case BadPrice =>
      return Failure(PriceRejected);
    case NoPrice =>
      if !run.governed {
        return Success(canonical);
      }
      var unresolved := AppendKindUniqueSorted(canonical.unresolved, Cost);
      assert Cost in unresolved;
      return Success(canonical.(unresolved := unresolved,
                                reasons := canonical.reasons + [ReasonEntry(Cost, PriceMissing)]));
    case Priced(p) =>
      if !p.Valid() {
        return Failure(PriceRejected);
      }
      var cost := UsageCost.ComputeCostMicroUSD(canonical.counters, p);
      match cost
      case ArithmeticFailure =>
        return Failure(CostFailed);
      case Micros(amount) =>
        var resolved := AppendKindSorted(canonical.resolved, Cost);
        return Success(canonical.(cost := Some(amount), priced := true, resolved := resolved));
      case Unresolved(_) =>
        var unresolved := AppendKindUniqueSorted(canonical.unresolved, Cost);
        assert Cost in unresolved;
        return Success(canonical.(priced := true, unresolved := unresolved,
                                  reasons := canonical.reasons + [ReasonEntry(Cost, CostUnprovable)]));
  }

  method AbsentUsage(run: Run) returns (c: Canonical)
    ensures BeforeCost(c, run, UNKNOWN)
    ensures forall k :: k in c.unresolved <==> k != Cost
  {
    var kinds := [CacheRead, CacheWrite, InputTotal, InputUncached, Output];
    assert forall i | 0 <= i < 5 :: Rank(kinds[i]) == if i < 2 then i else i + 1;
    assert forall k :: k in kinds <==> k != Cost by {
      assert kinds[0] == CacheRead && kinds[1] == CacheWrite && kinds[2] == InputTotal;
      assert kinds[3] == InputUncached && kinds[4] == Output;
    }
    return Canonical(run.id, UNKNOWN, None, false, [], kinds,
                     seq(5, i requires 0 <= i < 5 => ReasonEntry(kinds[i], NotReported)));
  }

  /** A record ready to be written, with the anchor it brings. */
  datatype Draft = Draft(canonical: Canonical, nextAnchor: Option<Anchor>)

  /** The part of the hook that only computes. */
  method DraftUsage(att: Attempt) returns (draft: Result<Option<Draft>, HookError>)
    ensures draft.Failure? <==> UsageOf(att).Failure?
    ensures draft.Failure? ==> UsageOf(att) == Failure(draft.error)
    ensures draft.Success? ==> (draft.value.Some? <==> UsageOf(att).value.Some?)
    ensures draft.Success? && draft.value.Some? ==>
              && Carries(draft.value.value.canonical, att.run, UsageOf(att).value.value)
              && draft.value.value.nextAnchor == UsageOf(att).value.value.nextAnchor
  {
    var canonical: Canonical, nextAnchor: Option<Anchor> := *, None;
    if att.run.report.Some? {
      var outcome := CanonicalizeProviderUsageV1(RequestFor(att.run, att.session));
      if outcome.Failure? {
        return Failure(BadUsage(outcome.error));
      }
      canonical, nextAnchor := outcome.value.canonical, outcome.value.nextAnchor;
    } else if att.allowAbsent {
      canonical := AbsentUsage(att.run);
    } else {
      return Success(None);
    }
    var stamped := StampCost(att.run, canonical, nextAnchor);
    if stamped.Failure? {
      return Failure(stamped.error);
    }
    return Success(Some(Draft(stamped.value, nextAnchor)));
  }

  // ----- one commit -----

  predicate CasAdmissible(t: TaskSession) {
    0 <= t.anchorSeq < MAX_INT64 && t.anchorRunSeq >= 1
  }

  /** The write succeeds only if nothing it depends on has moved since it was read. */
  predicate StillCurrent(s: Store, att: Attempt, u: Usage) {
    && att.run.id in s.runs && s.runs[att.run.id].version == att.run.version
    && (u.nextAnchor.Some? && att.session.Some? ==>
          && CasAdmissible(att.session.value)
          && s.session.Some?
          && s.session.value.anchorSeq == att.session.value.anchorSeq
          && s.session.value.lastRunId == att.run.id
          && s.session.value.anchorRunSeq == att.session.value.anchorRunSeq)
  }

  function Written(s: Store, att: Attempt, u: Usage, c: Canonical): Store {
    var frozen := att.run.(canonical := Some(c), version := att.run.version + 1);
    var runs := s.runs[att.run.id := frozen];
    if u.nextAnchor.Some? && att.session.Some? && s.session.Some? then
      Store(runs, Some(s.session.value.(anchor := u.nextAnchor, anchorSeq := s.session.value.anchorSeq + 1)))
    else Store(runs, s.session)
  }

  /** Whether an attempt has anything to write. */
  predicate Writes(att: Attempt) {
    att.run.terminal && att.run.canonical.None? && UsageOf(att).Success? && UsageOf(att).value.Some?
  }

  /** Whether an attempt's commit changes the store. */
  predicate TakesEffect(store: Store, att: Attempt) {
    Writes(att) && StillCurrent(store, att, UsageOf(att).value.value)
  }

  /** One attempt's transaction: the Run and the anchor change together or not at all. */
  ghost predicate Committed(s: Store, att: Attempt, s': Store) {
    if TakesEffect(s, att) then
      && s'.runs.Keys == s.runs.Keys
      && s'.runs[att.run.id].canonical.Some?
      && Carries(s'.runs[att.run.id].canonical.value, att.run, UsageOf(att).value.value)
      && s' == Written(s, att, UsageOf(att).value.value, s'.runs[att.run.id].canonical.value)
    else s' == s
  }

  class Ledger {
    var runs: map<string, Run>
    var session: Option<TaskSession>

    ghost function State(): Store
      reads this
    {
      Store(runs, session)
    }

    method UpdateRun(run: Run) returns (ok: bool)
      modifies this`runs
      ensures ok <==> run.id in old(runs) && old(runs)[run.id].version == run.version
      ensures runs == if ok then old(runs)[run.id := run.(version := run.version + 1)] else old(runs)
    {
      ok := run.id in runs && runs[run.id].version == run.version;
      if ok { runs := runs[run.id := run.(version := run.version + 1)]; }
    }

    method UpdateAnchorCAS(anchor: Anchor, expectedSeq: int, ownerRunId: string, ownerRunSeq: int) returns (ok: bool)
      modifies this`session
      ensures ok <==>
                && 0 <= expectedSeq < MAX_INT64 && ownerRunSeq >= 1
                && old(session).Some? && old(session).value.anchorSeq == expectedSeq
                && old(session).value.lastRunId == ownerRunId && old(session).value.anchorRunSeq == ownerRunSeq
      ensures session == if ok then Some(old(session).value.(anchor := Some(anchor), anchorSeq := expectedSeq + 1))
                         else old(session)
    {
      ok := 0 <= expectedSeq < MAX_INT64 && ownerRunSeq >= 1 && session.Some? &&
        session.value.anchorSeq == expectedSeq && session.value.lastRunId == ownerRunId &&
        session.value.anchorRunSeq == ownerRunSeq;
      if ok { session := Some(session.value.(anchor := Some(anchor), anchorSeq := expectedSeq + 1)); }
    }

    /**
      The hook's transaction. It writes the Run first and the anchor second, and
      puts the Run back when the anchor cannot be advanced.
     */
    method CanonicalizeRunUsageLocked(att: Attempt) returns (frozen: Result<bool, HookError>)
      modifies this
      ensures Committed(old(State()), att, State())
      ensures frozen == Success(true) <==>
                att.run.terminal && (att.run.canonical.Some? ||
                  TakesEffect(old(State()), att))
      ensures frozen.Failure? ==> State() == old(State())
    {
      hide UsageOf, SealOk;
      if !att.run.terminal {
        return Success(false);
      }
      if att.run.canonical.Some? {
        return Success(true);
      }
      var draft := DraftUsage(att);
      if draft.Failure? {
        return Failure(draft.error);
      }
      if draft.value.None? {
        return Success(false);
      }
      var canonical, nextAnchor := draft.value.value.canonical, draft.value.value.nextAnchor;
      var before := runs;
      var ok := UpdateRun(att.run.(canonical := Some(canonical)));
      if !ok {
        return Failure(VersionConflict);
      }
      if nextAnchor.Some? && att.session.Some? {
        var t := att.session.value;
        var advanced := UpdateAnchorCAS(nextAnchor.value, t.anchorSeq, att.run.id, t.anchorRunSeq);
        if !advanced {
          runs := before;
          return Failure(if CasAdmissible(t) then VersionConflict else CasRejected);
        }
      }
      return Success(true);
    }
  }

  // ----- what one decision does to the watermark -----

  function WatermarkIn(c: Option<Counters>, k: Kind): Option<Int64> {
    if c.None? then None else c.value.Get(k)
  }

  /** How one frozen usage relates to the watermark before and after it. */
  datatype Entry = Entry(
    runId: string, charge: Counters, cumulative: bool, zeroBased: bool, watermarks: Option<Counters>)

  /** Charges are the movement of the watermark, kind by kind. */
  ghost predicate Moves(before: Option<Counters>, e: Entry) {
    if !e.cumulative then e.watermarks == before
    else if e.zeroBased then e.watermarks == Some(e.charge)
    else forall k | k != Cost :: MovesKind(WatermarkIn(before, k), WatermarkIn(e.watermarks, k), e.charge.Get(k), k)
  }

  predicate MovesKind(w: Option<Int64>, w': Option<Int64>, charge: Option<Int64>, k: Kind) {
    if w.None? then charge.None?
    else
      && w'.Some?
      && 0 <= ValueOr0(charge) <= w'.value - w.value
      && (k != InputTotal ==> ValueOr0(charge) == w'.value - w.value)
  }

  predicate ZeroBased(req: Request)
    requires req.report.Some?
  {
    ZeroBaseline(req) && req.report.value.counters.AnyKnown()
  }

  /**
    A cumulative decision that brings no anchor charges nothing; one that brings
    an anchor belongs to the anchor owner and charges the movement of the anchor.
   */
  lemma {:induction false} DecisionMoves(req: Request)
    requires Decide(req).Success? && req.report.value.basis == SessionCumulative
    ensures var d := Decide(req).value;
            && (d.nextAnchor.None? ==> !d.delta.AnyKnown() && !ZeroBased(req))
            && (d.nextAnchor.Some? ==> OwnerMatch(req) && d.nextAnchor.value.Valid())
            && (d.nextAnchor.Some? && ZeroBased(req) ==>
                  d.delta == req.report.value.counters == d.nextAnchor.value.counters)
            && (d.nextAnchor.Some? && !ZeroBased(req) ==>
                  forall k | k != Cost ::
                    MovesKind(if req.anchor.Some? then req.anchor.value.counters.Get(k) else None,
                              d.nextAnchor.value.counters.Get(k), d.delta.Get(k), k))
  {
    if !OwnerMatch(req) {
    } else if ZeroBaseline(req) {
      ZeroMoves(req);
    } else if CompatibleAnchor(req) {
      CompatibleMoves(req);
    } else {
      FirstSight(req);
    }
  }

  /** A fresh provider session is charged what it reports, from zero. */
  lemma {:induction false} ZeroMoves(req: Request)
    requires Decide(req).Success? && req.report.value.basis == SessionCumulative && ZeroBaseline(req)
    ensures var d, report := Decide(req).value, req.report.value.counters;
            && d.delta == report
            && (d.nextAnchor.Some? <==> report.AnyKnown())
            && (d.nextAnchor.Some? ==> d.nextAnchor.value.Valid() && d.nextAnchor.value.counters == report)
  {
    var report := req.report.value.counters;
    RefIsText(req.report.value.sessionRef);
    assert RawDeltas(report, Some(ZeroKnown(report))) == report;
  }

  /** Without a usable baseline nothing is charged; at most a first anchor is stored. */
  lemma {:induction false} FirstSight(req: Request)
    requires Decide(req).Success? && req.report.value.basis == SessionCumulative
    requires OwnerMatch(req) && !ZeroBaseline(req) && !CompatibleAnchor(req)
    ensures !Decide(req).value.delta.AnyKnown()
    ensures Decide(req).value.nextAnchor.Some? ==> req.anchor.None? && Decide(req).value.nextAnchor.value.Valid()
  {
  }

  lemma {:induction false} RefIsText(ref: string)
    requires ref != "" ==> IsText(ref, 1024)
    ensures Text.TrimSpace(ref) != "" <==> ref != ""
    ensures ref != "" ==> IsText(Text.TrimSpace(ref), 1024)
  {
    Text.BlankTrims(ref);
    Text.TrimSpaceCuts(ref);
    var t := Text.TrimSpace(ref);
    if t != "" { assert !Text.IsSpace(t[0]); }
  }

  lemma {:induction false} CompatibleMoves(req: Request)
    requires Decide(req).Success? && req.report.value.basis == SessionCumulative
    requires OwnerMatch(req) && !ZeroBaseline(req) && CompatibleAnchor(req)
    ensures var d := Decide(req).value;
            && d.nextAnchor.Some? && d.nextAnchor.value.Valid()
            && forall k | k != Cost ::
                 MovesKind(req.anchor.value.counters.Get(k), d.nextAnchor.value.counters.Get(k), d.delta.Get(k), k)
  {
    var anchor, report := req.anchor.value.counters, req.report.value.counters;
    var merged := MergeCounters(anchor, report);
    RefIsText(req.report.value.sessionRef);
    assert merged.NonNegative() && merged.AnyKnown();
    forall k | k != Cost
      ensures MovesKind(anchor.Get(k), merged.Get(k), DeltaOf(report, Some(anchor)).Get(k), k)
    {
      MergeByKind(anchor, report, k);
      ChargedByKind(report, req.anchor, k);
      assert NonNeg(anchor.Get(k));
    }
  }

  // ----- runs of the whole system -----

  /** The store, the reads still in flight, and the usages frozen so far in order. */
  datatype System = System(store: Store, attempts: seq<Attempt>, journal: seq<Entry>)

  datatype Event =
    | CreateRun(run: Run)
    | TouchRun(run: Run)
    | Claim(runId: string, generation: int)
    | Rotate
    | Read(runId: string, allowAbsent: bool)
    | Commit(index: nat)

  function EntryFor(att: Attempt, store': Store): Entry
    requires Writes(att)
  {
    var cumulative := att.run.report.Some? && att.run.report.value.basis == SessionCumulative;
    Entry(att.run.id, UsageOf(att).value.value.counters, cumulative,
          cumulative && ZeroBased(RequestFor(att.run, att.session)), Watermarks(store'))
  }

  function Watermarks(store: Store): Option<Counters> {
    if store.session.None? || store.session.value.anchor.None? then None
    else Some(store.session.value.anchor.value.counters)
  }

  ghost predicate Next(s: System, e: Event, s': System) {
    match e
    case CreateRun(run) =>
      run.id !in s.store.runs && run.canonical.None? &&
      s' == s.(store := s.store.(runs := s.store.runs[run.id := run]))
    case TouchRun(run) =>
      // any other writer: status, report, session references, under the Run's version
      run.id in s.store.runs && run.version == s.store.runs[run.id].version + 1 &&
      run.canonical == s.store.runs[run.id].canonical &&
      s' == s.(store := s.store.(runs := s.store.runs[run.id := run]))
    case Claim(runId, generation) =>
      s' == s.(store := s.store.(session := Some(
        match s.store.session
        case None => TaskSession(runId, 1, generation, 1, None, 0)
        case Some(t) => t.(lastRunId := runId, anchorRunSeq := t.anchorRunSeq + 1, generation := generation))))
    case Rotate =>
      s.store.session.Some? &&
      s' == s.(store := s.store.(session := Some(s.store.session.value.(segment := s.store.session.value.segment + 1))))
    case Read(runId, allowAbsent) =>
      runId in s.store.runs &&
      s' == s.(attempts := s.attempts + [Attempt(s.store.runs[runId], s.store.session, allowAbsent)])
    case Commit(i) =>
      i < |s.attempts| && CommitStep(s, s.attempts[i], s')
  }

  /** A commit may use any earlier read, any number of times. */
  ghost predicate CommitStep(s: System, att: Attempt, s': System) {
    && s'.attempts == s.attempts
    && Committed(s.store, att, s'.store)
    && s'.journal == if TakesEffect(s.store, att) then s.journal + [EntryFor(att, s'.store)] else s.journal
  }

  const EMPTY := System(Store(map[], None), [], [])

  ghost predicate Behavior(states: seq<System>, events: seq<Event>) {
    && |states| == |events| + 1 && states[0] == EMPTY
    && forall i | 0 <= i < |events| :: Next(states[i], events[i], states[i + 1])
  }

  // ----- the invariant -----

  /** A read is still usable exactly when nothing it covers has been rewritten. */
  ghost predicate ReadOk(store: Store, att: Attempt) {
    && att.run.id in store.runs
    && att.run.version <= store.runs[att.run.id].version
    && (att.run.version == store.runs[att.run.id].version ==> att.run == store.runs[att.run.id])
    && (att.session.Some? ==>
          && store.session.Some?
          && att.session.value.anchorSeq <= store.session.value.anchorSeq
          && (att.session.value.anchorSeq == store.session.value.anchorSeq ==>
                att.session.value.anchor == store.session.value.anchor))
  }

  function WatermarksAfter(journal: seq<Entry>): Option<Counters> {
    if journal == [] then None else journal[|journal| - 1].watermarks
  }

  ghost predicate Chained(journal: seq<Entry>) {
    forall i | 0 <= i < |journal| :: Moves(WatermarksAfter(journal[..i]), journal[i])
  }

  ghost predicate Recorded(store: Store, journal: seq<Entry>) {
    && (forall i, j | 0 <= i < j < |journal| :: journal[i].runId != journal[j].runId)
    && (forall e | e in journal ::
          && e.runId in store.runs && store.runs[e.runId].canonical.Some?
          && store.runs[e.runId].canonical.value.counters == e.charge)
    && (forall id | id in store.runs && store.runs[id].canonical.Some? :: exists e :: e in journal && e.runId == id)
  }

  ghost predicate Inv(s: System) {
    && (forall id | id in s.store.runs :: s.store.runs[id].id == id)
    && (forall a | a in s.attempts :: ReadOk(s.store, a))
    && Recorded(s.store, s.journal)
    && Chained(s.journal)
    && WatermarksAfter(s.journal) == Watermarks(s.store)
  }

  lemma {:induction false} ChainedExtends(journal: seq<Entry>, e: Entry)
    requires Chained(journal) && Moves(WatermarksAfter(journal), e)
    ensures Chained(journal + [e])
  {
    var longer := journal + [e];
    forall i | 0 <= i < |longer|
      ensures Moves(WatermarksAfter(longer[..i]), longer[i])
    {
      if i < |journal| {
        assert longer[..i] == journal[..i];
      } else {
        assert longer[..i] == journal;
      }
    }
  }

  /** A commit that writes charges exactly what it moves, however stale its read was. */
  lemma {:induction false} CommitMoves(store: Store, att: Attempt, store': Store)
    requires ReadOk(store, att) && TakesEffect(store, att)
    requires Committed(store, att, store')
    ensures Moves(Watermarks(store), EntryFor(att, store'))
  {
    hide Carries;
    var u := UsageOf(att).value.value;
    if att.run.report.Some? {
      var req := RequestFor(att.run, att.session);
      assert u.counters == Decide(req).value.delta && u.nextAnchor == Decide(req).value.nextAnchor;
      if att.run.report.value.basis == SessionCumulative {
        DecisionMoves(req);
        if u.nextAnchor.Some? {
          assert att.session.Some?;
          assert att.session.value.anchor == store.session.value.anchor;
        } else {
          NothingMoves(Watermarks(store), u.counters);
        }
      }
    }
  }

  lemma {:induction false} NothingMoves(w: Option<Counters>, charge: Counters)
    requires !charge.AnyKnown()
    ensures forall k | k != Cost :: MovesKind(WatermarkIn(w, k), WatermarkIn(w, k), charge.Get(k), k)
  {
  }

  lemma {:induction false} ReadsStayOk(store: Store, att: Attempt, store': Store, other: Attempt)
    requires ReadOk(store, att) && ReadOk(store, other) && Committed(store, att, store')
    requires forall id | id in store.runs :: store.runs[id].id == id
    ensures ReadOk(store', other)
  {
    hide UsageOf, Carries;
  }

  /** The write touches its own Run only, freezing what was not frozen. */
  lemma {:induction false} CommitFreezes(store: Store, att: Attempt, store': Store)
    requires ReadOk(store, att) && Committed(store, att, store') && TakesEffect(store, att)
    ensures att.run == store.runs[att.run.id] && att.run.canonical.None?
    ensures store'.runs.Keys == store.runs.Keys
    ensures forall id | id in store.runs && id != att.run.id :: store'.runs[id] == store.runs[id]
    ensures store'.runs[att.run.id].id == att.run.id && store'.runs[att.run.id].canonical.Some?
    ensures store'.runs[att.run.id].canonical.value.counters == UsageOf(att).value.value.counters
  {
  }

  lemma {:induction false} RecordedExtends(store: Store, journal: seq<Entry>, store': Store, e: Entry)
    requires Recorded(store, journal)
    requires e.runId in store.runs && store.runs[e.runId].canonical.None?
    requires store'.runs.Keys == store.runs.Keys
    requires forall id | id in store.runs && id != e.runId :: store'.runs[id] == store.runs[id]
    requires store'.runs[e.runId].canonical.Some? && store'.runs[e.runId].canonical.value.counters == e.charge
    ensures Recorded(store', journal + [e])
  {
    var longer := journal + [e];
    forall id | id in store'.runs && store'.runs[id].canonical.Some?
      ensures exists f :: f in longer && f.runId == id
    {
      if id == e.runId {
        assert e in longer;
      } else {
        var f :| f in journal && f.runId == id;
        assert f in longer;
      }
    }
    forall i, j | 0 <= i < j < |longer|
      ensures longer[i].runId != longer[j].runId
    {
      assert journal[i] in journal;
    }
  }

  lemma {:induction false} CommitKeepsInv(s: System, att: Attempt, s': System)
    requires Inv(s) && att in s.attempts && CommitStep(s, att, s')
    ensures Inv(s')
  {
    hide UsageOf, Carries, ReadOk, Recorded, Chained, Moves, Written;
    forall a | a in s'.attempts
      ensures ReadOk(s'.store, a)
    {
      ReadsStayOk(s.store, att, s'.store, a);
    }
    if TakesEffect(s.store, att) {
      var e := EntryFor(att, s'.store);
      CommitFreezes(s.store, att, s'.store);
      CommitMoves(s.store, att, s'.store);
      ChainedExtends(s.journal, e);
      RecordedExtends(s.store, s.journal, s'.store, e);
    }
  }

  lemma {:induction false} RunWriteKeepsRecorded(store: Store, journal: seq<Entry>, run: Run)
    requires Recorded(store, journal)
    requires run.canonical == if run.id in store.runs then store.runs[run.id].canonical else None
    ensures Recorded(store.(runs := store.runs[run.id := run]), journal)
  {
    var runs := store.runs[run.id := run];
    forall id | id in runs && runs[id].canonical.Some?
      ensures exists e :: e in journal && e.runId == id
    {
      assert id in store.runs && store.runs[id].canonical.Some?;
    }
  }

  lemma {:induction false} RunWriteKeepsInv(s: System, run: Run, s': System)
    requires Inv(s) && s' == s.(store := s.store.(runs := s.store.runs[run.id := run]))
    requires if run.id in s.store.runs then
               run.version == s.store.runs[run.id].version + 1 && run.canonical == s.store.runs[run.id].canonical
             else run.canonical.None?
    ensures Inv(s')
  {
    hide Moves, Recorded, Chained;
    RunWriteKeepsRecorded(s.store, s.journal, run);
    forall a | a in s'.attempts
      ensures ReadOk(s'.store, a)
    {
      assert ReadOk(s.store, a);
    }
  }

  lemma {:induction false} SessionWriteKeepsInv(s: System, session: TaskSession, s': System)
    requires Inv(s) && s' == s.(store := s.store.(session := Some(session)))
    requires if s.store.session.Some? then
               session.anchor == s.store.session.value.anchor && session.anchorSeq == s.store.session.value.anchorSeq
             else session.anchor.None?
    ensures Inv(s')
  {
    hide Moves, Chained;
    forall a | a in s'.attempts
      ensures ReadOk(s'.store, a)
    {
      assert ReadOk(s.store, a);
    }
  }

  lemma {:induction false} TouchKeepsInv(s: System, e: Event, s': System)
    requires Inv(s) && Next(s, e, s') && !e.Commit?
    ensures Inv(s')
  {
    hide Moves, Chained, Recorded, CommitStep;
    match e
    case CreateRun(run) => RunWriteKeepsInv(s, run, s');
    case TouchRun(run) => RunWriteKeepsInv(s, run, s');
    case Claim(_, _) => SessionWriteKeepsInv(s, s'.store.session.value, s');
    case Rotate => SessionWriteKeepsInv(s, s'.store.session.value, s');
    case Read(_, _) =>
    case Commit(_) =>
  }

  function AttemptOf(s: System, e: Event): Attempt
    requires e.Commit? && e.index < |s.attempts|
  {
    s.attempts[e.index]
  }

  lemma {:induction false} Reachable(states: seq<System>, events: seq<Event>)
    requires Behavior(states, events)
    ensures Inv(states[|events|])
  {
    var n := |events|;
    if n == 0 {
    } else {
      Reachable(states[..n], events[..n - 1]);
      assert Next(states[n - 1], events[n - 1], states[n - 1 + 1]);
      if events[n - 1].Commit? {
        CommitKeepsInv(states[n - 1], AttemptOf(states[n - 1], events[n - 1]), states[n]);
      } else {
        TouchKeepsInv(states[n - 1], events[n - 1], states[n]);
      }
    }
  }

  // ----- conservation -----

  /** Sum of the cumulative charges of one kind. */
  function Charged(journal: seq<Entry>, k: Kind): int {
    if journal == [] then 0
    else
      var e := journal[|journal| - 1];
      Charged(journal[..|journal| - 1], k) + (if e.cumulative then ValueOr0(e.charge.Get(k)) else 0)
  }

  /** Where the running provider session started counting: zero, or the first watermark seen. */
  function Base(journal: seq<Entry>, k: Kind): Option<int> {
    if journal == [] then None
    else
      var e, before := journal[|journal| - 1], Base(journal[..|journal| - 1], k);
      if e.zeroBased then (if e.charge.Get(k).Some? then Some(0) else None)
      else if before.Some? || WatermarkIn(e.watermarks, k).None? then before
      else Some(WatermarkIn(e.watermarks, k).value)
  }

  /** What provider sessions that a fresh one has replaced had moved. */
  function Closed(journal: seq<Entry>, k: Kind): int {
    if journal == [] then 0
    else
      var rest, e := journal[..|journal| - 1], journal[|journal| - 1];
      Closed(rest, k) + (if e.zeroBased then Moved(rest, k) else 0)
  }

  /** Watermark of the running provider session minus where it started. */
  function Moved(journal: seq<Entry>, k: Kind): int {
    var w, b := WatermarkIn(WatermarksAfter(journal), k), Base(journal, k);
    if w.Some? && b.Some? then w.value - b.value else 0
  }

  lemma {:induction false} JournalConserves(journal: seq<Entry>, k: Kind)
    requires Chained(journal) && k != Cost
    requires forall e | e in journal :: e.zeroBased ==> e.cumulative
    ensures WatermarkIn(WatermarksAfter(journal), k).Some? <==> Base(journal, k).Some?
    ensures if k == InputTotal then Charged(journal, k) <= Closed(journal, k) + Moved(journal, k)
            else Charged(journal, k) == Closed(journal, k) + Moved(journal, k)
  {
    if journal == [] {
    } else {
      var n := |journal| - 1;
      var rest, e := journal[..n], journal[n];
      assert e in journal;
      forall i | 0 <= i < |rest|
        ensures Moves(WatermarksAfter(rest[..i]), rest[i])
      {
        assert rest[..i] == journal[..i];
      }
      JournalConserves(rest, k);
      assert Moves(WatermarksAfter(rest), e);
    }
  }

  /**
    In every reachable state, whatever was read stale, lost a race or was
    replayed: each Run's usage is frozen at most once, and the charges of a kind
    add up to the movement of the stored anchor plus the movements of the
    provider sessions it replaced; for the input total they never exceed it.
   */
  lemma {:induction false} LedgerConservation(states: seq<System>, events: seq<Event>, k: Kind)
    requires Behavior(states, events) && k != Cost
    ensures var s := states[|events|];
            && Recorded(s.store, s.journal)
            && WatermarkIn(WatermarksAfter(s.journal), k) == WatermarkIn(Watermarks(s.store), k)
            && (if k == InputTotal then Charged(s.journal, k) <= Closed(s.journal, k) + Moved(s.journal, k)
                else Charged(s.journal, k) == Closed(s.journal, k) + Moved(s.journal, k))
  {
    Reachable(states, events);
    JournalFlags(states, events);
    JournalConserves(states[|events|].journal, k);
  }

  lemma {:induction false} JournalFlags(states: seq<System>, events: seq<Event>)
    requires Behavior(states, events)
    ensures forall e | e in states[|events|].journal :: e.zeroBased ==> e.cumulative
  {
    var n := |events|;
    if n > 0 { JournalFlags(states[..n], events[..n - 1]); }
  }

  lemma {:induction false} OneStepKeepsFrozen(s: System, e: Event, s': System, id: string)
    requires Inv(s) && Next(s, e, s')
    requires id in s.store.runs && s.store.runs[id].canonical.Some?
    ensures id in s'.store.runs && s'.store.runs[id].canonical == s.store.runs[id].canonical
    ensures s.journal <= s'.journal
  {
    if e.Commit? {
      var att := s.attempts[e.index];
      assert att in s.attempts;
      if TakesEffect(s.store, att) { CommitFreezes(s.store, att, s'.store); }
    }
  }

  /** Once frozen, a Run's usage never changes: the store agrees at every later point. */
  lemma {:induction false} FrozenForever(states: seq<System>, events: seq<Event>, i: nat, id: string)
    requires Behavior(states, events) && i <= |events|
    requires id in states[i].store.runs && states[i].store.runs[id].canonical.Some?
    ensures id in states[|events|].store.runs
    ensures states[|events|].store.runs[id].canonical == states[i].store.runs[id].canonical
    ensures states[i].journal <= states[|events|].journal
  {
    var n := |events|;
    if i == n {
    } else {
      FrozenForever(states[..n], events[..n - 1], i, id);
      Reachable(states[..n], events[..n - 1]);
      OneStepKeepsFrozen(states[n - 1], events[n - 1], states[n], id);
    }
  }

  /**
    Only the current owner is charged: when a commit freezes a cumulative delta
    with any known counter, the Run owns the session row at that very moment and
    the anchor it subtracted is the stored one.
   */
  lemma {:induction false} OnlyTheOwnerIsCharged(store: Store, att: Attempt, store': Store)
    requires ReadOk(store, att) && TakesEffect(store, att) && Committed(store, att, store')
    requires att.run.report.Some? && att.run.report.value.basis == SessionCumulative
    requires UsageOf(att).value.value.counters.AnyKnown()
    ensures store.session.Some? && store.session.value.lastRunId == att.run.id
    ensures att.session.Some? && att.session.value.anchor == store.session.value.anchor
    ensures store'.session == Some(store.session.value.(
              anchor := UsageOf(att).value.value.nextAnchor, anchorSeq := store.session.value.anchorSeq + 1))
  {
    hide Carries;
    var req := RequestFor(att.run, att.session);
    assert UsageOf(att).value.value.counters == Decide(req).value.delta;
    DecisionMoves(req);
  }
}
