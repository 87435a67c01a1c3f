/**
  The usage settlement of a governed turn: the spend of each of its Runs is
  recorded once the Run has ended, and the turn's reservations are closed once
  nothing of the turn can still spend (internal/application/quota_settlement.go).
 */
module TurnSettlement {
  import opened Wrappers
  import opened CanonicalUsage
  import opened TurnQuota
  import Text
  import U = UsageLedger
  import UsageCost

  /**
    What a settlement finds out about a Run when its turn comes. A Run without a
    report is Missing until the closing, which records it as unresolved with the
    facts given here, if its price can be read at all.
   */
  datatype Evidence =
    | Going
    | Unfreezable
    | Frozen(facts: Facts)
    | Missing(closing: Option<Facts>)

  datatype TurnRun = TurnRun(id: string, evidence: Evidence)

  // ----- evidence from the usage hook -----

  function AmountOf(c: Counters, cost: Option<Int64>, kind: Kind): Option<Int64> {
    if kind == Cost then cost else c.Get(kind)
  }

  function FactsOf(c: Counters, cost: Option<Int64>, priced: bool): Facts {
    Facts(map kind: Kind | AmountOf(c, cost, kind).Some? && AmountOf(c, cost, kind).value >= 0 ::
            AmountOf(c, cost, kind).value as nat, priced)
  }

  /** The anchor write that freezing may bring can be refused as well. */
  predicate AnchorFits(u: U.Usage, session: Option<U.TaskSession>) {
    u.nextAnchor.Some? && session.Some? ==> U.CasAdmissible(session.value)
  }

  function EvidenceOf(run: U.Run, session: Option<U.TaskSession>): Evidence {
    if !run.terminal then Going
    else if run.canonical.Some? then
      var c := run.canonical.value;
      Frozen(FactsOf(c.counters, c.cost, c.priced))
    else
      match U.UsageOf(U.Attempt(run, session, run.report.None?))
      case Failure(_) => if run.report.Some? then Unfreezable else Missing(None)
      case Success(usage) =>
        if usage.None? || !AnchorFits(usage.value, session) then Unfreezable
        else
          var facts := FactsOf(usage.value.counters, usage.value.cost, usage.value.priced);
          if run.report.Some? then Frozen(facts) else Missing(Some(facts))
  }

  // ----- the settlement -----

  /** One pass over kinds or Runs; incomplete when something of it stays due. */
  datatype Pass = Stopped | Passed(book: Book, complete: bool)

  function SpendRun(b: Book, key: TurnKey, run: string, facts: Facts, kinds: seq<Kind>): Pass
    decreases |kinds|
  {
    if kinds == [] then Passed(b, true)
    else if (key, kinds[0]) !in b.rows || HasSpend(b.spend, key, kinds[0], run) then
      SpendRun(b, key, run, facts, kinds[1..])
    else if kinds[0] == Cost && !facts.priced then
      match SpendRun(b, key, run, facts, kinds[1..])
      case Stopped => Stopped
      case Passed(book, _) => Passed(book, false)
    else if b.rows[(key, kinds[0])].status != Reserved then Stopped
    else SpendRun(b.(spend := b.spend + [EntryFor(b, key, kinds[0], run, facts)]), key, run, facts, kinds[1..])
  }

  /** The first pass: every Run that has ended and reported. */
  function SpendRuns(b: Book, key: TurnKey, runs: seq<TurnRun>): Pass
    decreases |runs|
  {
    if runs == [] then Passed(b, true)
    else
      match runs[0].evidence
      case Unfreezable => Stopped
      case Missing(_) => SpendRuns(b, key, runs[1..])
      case Going =>
        (match SpendRuns(b, key, runs[1..])
         case Stopped => Stopped
         case Passed(book, _) => Passed(book, false))
      case Frozen(facts) =>
        match SpendRun(b, key, runs[0].id, facts, USAGE_KINDS)
        case Stopped => Stopped
        case Passed(book, complete) =>
          match SpendRuns(book, key, runs[1..])
          case Stopped => Stopped
          case Passed(rest, others) => Passed(rest, complete && others)
  }

  /** The Runs without a report, as the closing records them. */
  function MissingOf(runs: seq<TurnRun>): (absent: seq<TurnRun>)
    ensures forall r | r in absent :: r.evidence.Frozen? || r.evidence.Unfreezable?
  {
    if runs == [] then [] else Synthesized(runs[0]) + MissingOf(runs[1..])
  }

  function Synthesized(r: TurnRun): seq<TurnRun> {
    match r.evidence
    case Missing(Some(facts)) => [TurnRun(r.id, Frozen(facts))]
    case Missing(None) => [TurnRun(r.id, Unfreezable)]
    case _ => []
  }

  datatype Sweep = Refused | StillOpen(book: Book) | AllClosed(book: Book)

  /**
    One settlement, a single transaction. It may close when nothing of the turn is
    pending or due for a retry, and records Runs without a report only where its
    caller lets it.
   */
  function Settle(b: Book, key: TurnKey, runs: seq<TurnRun>, mayClose: bool, allowAbsent: bool): Sweep {
    if !AnyRow(b, key) then StillOpen(b)
    else
      match SpendRuns(b, key, runs)
      case Stopped => Refused
      case Passed(book, complete) =>
        if !complete || !mayClose || (MissingOf(runs) != [] && !allowAbsent) then StillOpen(book)
        else
          // here a kind that cannot be recorded is an error as well
          match SpendRuns(book, key, MissingOf(runs))
          case Stopped => Refused
          case Passed(spent, all) =>
            if !all then Refused
            else
              match CloseKinds(spent, key, USAGE_KINDS)
              case Failure(_) => Refused
              case Success(closed) => AllClosed(closed)
  }

  // ----- the same, in place -----

  /** What a pass says about a call that changed the book. */
  ghost predicate Made(pass: Pass, after: Book, ok: bool, complete: bool) {
    match pass
    case Stopped => !ok
    case Passed(book, c) => ok && after == book && complete == c
  }

  method AppendTurnRunSpend(quota: QuotaBook, key: TurnKey, run: string, facts: Facts)
    returns (ok: bool, complete: bool)
    modifies quota
    ensures quota.turns == old(quota.turns) && quota.rows == old(quota.rows)
    ensures Made(SpendRun(old(quota.State()), key, run, facts, USAGE_KINDS), quota.State(), ok, complete)
  {
    ghost var start := quota.State();
    complete := true;
    for i := 0 to |USAGE_KINDS|
      invariant quota.turns == start.turns && quota.rows == start.rows
      invariant SpendRun(start, key, run, facts, USAGE_KINDS) ==
                (match SpendRun(quota.State(), key, run, facts, USAGE_KINDS[i..])
                 case Stopped => Stopped
                 case Passed(book, c) => Passed(book, c && complete))
    {
      var kind := USAGE_KINDS[i];
      assert USAGE_KINDS[i..][0] == kind && USAGE_KINDS[i..][1..] == USAGE_KINDS[i + 1..];
      if (key, kind) in quota.rows && !HasSpend(quota.spend, key, kind, run) {
        if kind == Cost && !facts.priced {
          complete := false;
        } else if quota.rows[(key, kind)].status != Reserved {
          return false, complete;
        } else {
          var b := Book(quota.turns, quota.rows, quota.spend);
          quota.spend := quota.spend + [EntryFor(b, key, kind, run, facts)];
        }
      }
    }
    return true, complete;
  }

  datatype Answer = SettlementRefused | Open | Closing

  ghost predicate Answers(sweep: Sweep, before: Book, after: Book, answer: Answer) {
    match sweep
    case Refused => answer == SettlementRefused && after == before
    case StillOpen(book) => answer == Open && after == book
    case AllClosed(book) => answer == Closing && after == book
  }

  lemma {:induction false} NotMissing(r: TurnRun)
    ensures !r.evidence.Missing? ==> Synthesized(r) == []
  {
  }

  /** Spends for the Runs that reported; the ones without a report are noted for the closing. */
  method SettleReported(quota: QuotaBook, key: TurnKey, runs: seq<TurnRun>)
    returns (ok: bool, complete: bool, pending: seq<TurnRun>)
    modifies quota
    ensures quota.turns == old(quota.turns) && quota.rows == old(quota.rows)
    ensures Made(SpendRuns(old(quota.State()), key, runs), quota.State(), ok, complete)
    ensures ok ==> pending == MissingOf(runs)
  {
    hide SpendRun, Synthesized;
    ghost var start := quota.State();
    complete, pending := true, [];
    for i := 0 to |runs|
      invariant quota.turns == start.turns && quota.rows == start.rows
      invariant SpendRuns(start, key, runs) ==
                (match SpendRuns(quota.State(), key, runs[i..])
                 case Stopped => Stopped
                 case Passed(book, c) => Passed(book, c && complete))
      invariant pending + MissingOf(runs[i..]) == MissingOf(runs)
    {
      var run := runs[i];
      assert runs[i..][0] == run && runs[i..][1..] == runs[i + 1..];
      match run.evidence
      case Unfreezable => return false, complete, pending;
      case Going => complete := false; NotMissing(run);
      case Missing(closing) => pending := pending + Synthesized(run);
      case Frozen(facts) =>
        var paid, all := AppendTurnRunSpend(quota, key, run.id, facts);
        if !paid {
          return false, complete, pending;
        }
        complete := complete && all;
        NotMissing(run);
    }
    return true, complete, pending;
  }

  method SettleMissing(quota: QuotaBook, key: TurnKey, pending: seq<TurnRun>) returns (ok: bool)
    requires forall r | r in pending :: r.evidence.Frozen? || r.evidence.Unfreezable?
    modifies quota
    ensures quota.turns == old(quota.turns) && quota.rows == old(quota.rows)
    ensures ok <==>
              && SpendRuns(old(quota.State()), key, pending).Passed?
              && SpendRuns(old(quota.State()), key, pending).complete
    ensures ok ==> quota.State() == SpendRuns(old(quota.State()), key, pending).book
  {
    hide SpendRun;
    ghost var start := quota.State();
    for i := 0 to |pending|
      invariant quota.turns == start.turns && quota.rows == start.rows
      invariant SpendRuns(quota.State(), key, pending[i..]) == SpendRuns(start, key, pending)
    {
      var run := pending[i];
      assert pending[i..][0] == run && pending[i..][1..] == pending[i + 1..];
      if !run.evidence.Frozen? {
        return false;
      }
      var paid, all := AppendTurnRunSpend(quota, key, run.id, run.evidence.facts);
      if !paid || !all {
        return false;
      }
    }
    return true;
  }

  /** A refusal takes back everything the settlement did before it. */
  method SettleGovernanceTurnQuotaLocked(
      quota: QuotaBook, key: TurnKey, runs: seq<TurnRun>, mayClose: bool, allowAbsent: bool) returns (answer: Answer)
    modifies quota
    ensures Answers(Settle(old(quota.State()), key, runs, mayClose, allowAbsent), old(quota.State()), quota.State(),
              answer)
  {
    hide SpendRuns, MissingOf, CloseKinds;
    if !AnyRow(Book(quota.turns, quota.rows, quota.spend), key) {
      return Open;
    }
    var before := quota.spend;
    var ok, complete, pending := SettleReported(quota, key, runs);
    if ok {
      if !complete || !mayClose || (pending != [] && !allowAbsent) {
        return Open;
      }
      ok := SettleMissing(quota, key, pending);
    }
    if ok { ok := quota.CloseReservations(key); }
    if !ok {
      quota.spend := before;
      return SettlementRefused;
    }
    return Closing;
  }

  // ----- one Run's spends -----

  /** The ledger owes an entry for a Run. */
  predicate Due(b: Book, key: TurnKey, kind: Kind, run: string) {
    (key, kind) in b.rows && !HasSpend(b.spend, key, kind, run)
  }

  /** A cost without a price is never recorded. */
  predicate Payable(facts: Facts, kind: Kind) {
    kind != Cost || facts.priced
  }

  predicate ClosedRow(b: Book, key: TurnKey, kind: Kind) {
    (key, kind) in b.rows && b.rows[(key, kind)].status != Reserved
  }

  /** What a settlement may add: entries of this turn, within its reservations. */
  ghost predicate Adds(b: Book, b': Book, key: TurnKey) {
    && Sound(b') && b'.rows == b.rows && b'.turns == b.turns && b.spend <= b'.spend
    && (forall kind :: SpentBy(b', key, kind) == SpentBy(b, key, kind))
    && (forall kind :: !Holds(b, key, kind) ==> SpentIn(b'.spend, key, kind) == SpentIn(b.spend, key, kind))
  }

  /** Exactly the payable kinds of one Run have been recorded. */
  ghost predicate Recorded(b: Book, b': Book, key: TurnKey, run: string, facts: Facts, kinds: seq<Kind>) {
    forall kind, r ::
      HasSpend(b'.spend, key, kind, r) <==>
        || HasSpend(b.spend, key, kind, r)
        || (r == run && kind in kinds && (key, kind) in b.rows && Payable(facts, kind))
  }

  lemma {:induction false} AddsNothing(b: Book, key: TurnKey)
    requires Sound(b)
    ensures Adds(b, b, key)
  {
  }

  lemma {:induction false} AddsTrans(a: Book, b: Book, c: Book, key: TurnKey)
    requires Adds(a, b, key) && Adds(b, c, key)
    ensures Adds(a, c, key)
  {
    hide Sound, SpentBy, SpentIn;
  }

  lemma {:induction false} EntryAdds(b: Book, key: TurnKey, kind: Kind, run: string, facts: Facts)
    requires Sound(b) && Holds(b, key, kind)
    ensures Adds(b, b.(spend := b.spend + [EntryFor(b, key, kind, run, facts)]), key)
    ensures Sound(b.(spend := b.spend + [EntryFor(b, key, kind, run, facts)]))
    ensures forall k, r :: HasSpend(b.spend + [EntryFor(b, key, kind, run, facts)], key, k, r) <==>
              HasSpend(b.spend, key, k, r) || (k == kind && r == run)
  {
    hide Sound, SpentBy, SpentIn, HasSpend;
    var e := EntryFor(b, key, kind, run, facts);
    EntryKeepsSound(b, key, kind, run, facts);
    EntryNames(b, key, kind, run, facts);
    forall k
      ensures k != kind ==> SpentIn(b.spend + [e], key, k) == SpentIn(b.spend, key, k)
    {
      SpendAppends(b.spend, e, key, k);
    }
    forall k, r
      ensures HasSpend(b.spend + [e], key, k, r) <==> HasSpend(b.spend, key, k, r) || (k == kind && r == run)
    {
      HasSpendAppends(b.spend, e, key, k, r);
    }
  }

  /** A Run's pass stops exactly at a payable kind whose reservation was closed without it. */
  lemma {:induction false} RunPass(b: Book, key: TurnKey, run: string, facts: Facts, kinds: seq<Kind>)
    requires Sound(b)
    ensures SpendRun(b, key, run, facts, kinds).Stopped? <==>
              exists kind :: kind in kinds && Due(b, key, kind, run) && Payable(facts, kind) && ClosedRow(b, key, kind)
    ensures SpendRun(b, key, run, facts, kinds).Passed? ==>
              && Adds(b, SpendRun(b, key, run, facts, kinds).book, key)
              && Recorded(b, SpendRun(b, key, run, facts, kinds).book, key, run, facts, kinds)
              && (SpendRun(b, key, run, facts, kinds).complete <==>
                  !(Cost in kinds && Due(b, key, Cost, run) && !facts.priced))
    decreases |kinds|
  {
    hide Sound, Adds, HasSpend, EntryFor;
    AddsNothing(b, key);
    if kinds != [] {
      assert kinds == [kinds[0]] + kinds[1..];
      if !Due(b, key, kinds[0], run) || !Payable(facts, kinds[0]) {
        RunPass(b, key, run, facts, kinds[1..]);
      } else if ClosedRow(b, key, kinds[0]) {
        assert kinds[0] in kinds;
      } else {
        var next := b.(spend := b.spend + [EntryFor(b, key, kinds[0], run, facts)]);
        EntryAdds(b, key, kinds[0], run, facts);
        RunPass(next, key, run, facts, kinds[1..]);
        if SpendRun(next, key, run, facts, kinds[1..]).Passed? {
          AddsTrans(b, next, SpendRun(next, key, run, facts, kinds[1..]).book, key);
        }
      }
    }
  }

  // ----- all Runs -----

  ghost predicate Distinct(runs: seq<TurnRun>) {
    forall i, j | 0 <= i < j < |runs| :: runs[i].id != runs[j].id
  }

  /** A closed reservation still lacks a payable entry of the Run. */
  ghost predicate Late(b: Book, key: TurnKey, run: string, facts: Facts) {
    exists kind :: Due(b, key, kind, run) && Payable(facts, kind) && ClosedRow(b, key, kind)
  }

  predicate Unpriced(b: Book, key: TurnKey, run: string, facts: Facts) {
    Due(b, key, Cost, run) && !facts.priced
  }

  /** A Run that makes any settlement of its turn fail. */
  ghost predicate Stops(b: Book, key: TurnKey, r: TurnRun) {
    match r.evidence
    case Unfreezable => true
    case Frozen(facts) => Late(b, key, r.id, facts)
    case _ => false
  }

  /** A Run of which nothing is left to wait for. */
  predicate Finished(b: Book, key: TurnKey, r: TurnRun) {
    match r.evidence
    case Going => false
    case Frozen(facts) => !Unpriced(b, key, r.id, facts)
    case _ => true
  }

  /** A Run without a report that makes the closing fail. */
  ghost predicate StopsClosing(b: Book, key: TurnKey, r: TurnRun) {
    r.evidence.Missing? &&
    (match r.evidence.closing
     case None => true
     case Some(facts) => Late(b, key, r.id, facts) || Unpriced(b, key, r.id, facts))
  }

  /** Of the Runs of a list exactly the payable kinds have been recorded. */
  ghost predicate AllRecorded(b: Book, b': Book, key: TurnKey, runs: seq<TurnRun>) {
    forall kind, id ::
      HasSpend(b'.spend, key, kind, id) <==>
        || HasSpend(b.spend, key, kind, id)
        || ((key, kind) in b.rows &&
            exists r :: r in runs && r.id == id && r.evidence.Frozen? && Payable(r.evidence.facts, kind))
  }

  /** What a Run still owes depends on its own entries only. */
  lemma {:induction false} OthersDoNotMatter(b: Book, b': Book, key: TurnKey, r: TurnRun)
    requires b'.rows == b.rows
    requires forall kind :: HasSpend(b'.spend, key, kind, r.id) <==> HasSpend(b.spend, key, kind, r.id)
    ensures Stops(b', key, r) <==> Stops(b, key, r)
    ensures Finished(b', key, r) <==> Finished(b, key, r)
    ensures StopsClosing(b', key, r) <==> StopsClosing(b, key, r)
  {
    hide HasSpend;
    forall facts
      ensures Late(b', key, r.id, facts) <==> Late(b, key, r.id, facts)
    {
      if Late(b, key, r.id, facts) {
        var kind :| Due(b, key, kind, r.id) && Payable(facts, kind) && ClosedRow(b, key, kind);
        assert Due(b', key, kind, r.id);
      }
      if Late(b', key, r.id, facts) {
        var kind :| Due(b', key, kind, r.id) && Payable(facts, kind) && ClosedRow(b', key, kind);
        assert Due(b, key, kind, r.id);
      }
    }
  }

  lemma {:induction false} FrozenPass(b: Book, key: TurnKey, r: TurnRun)
    requires Sound(b) && r.evidence.Frozen?
    ensures SpendRun(b, key, r.id, r.evidence.facts, USAGE_KINDS).Stopped? <==> Stops(b, key, r)
    ensures SpendRun(b, key, r.id, r.evidence.facts, USAGE_KINDS).Passed? ==>
              && Adds(b, SpendRun(b, key, r.id, r.evidence.facts, USAGE_KINDS).book, key)
              && Sound(SpendRun(b, key, r.id, r.evidence.facts, USAGE_KINDS).book)
              && AllRecorded(b, SpendRun(b, key, r.id, r.evidence.facts, USAGE_KINDS).book, key, [r])
              && (SpendRun(b, key, r.id, r.evidence.facts, USAGE_KINDS).complete <==> Finished(b, key, r))
  {
    hide HasSpend, Sound;
    AllUsageKinds();
    RunPass(b, key, r.id, r.evidence.facts, USAGE_KINDS);
    assert r in [r];
  }

  lemma {:induction false} RecordedTrans(a: Book, b: Book, c: Book, key: TurnKey, r: TurnRun, runs: seq<TurnRun>)
    requires b.rows == a.rows && AllRecorded(a, b, key, [r]) && AllRecorded(b, c, key, runs)
    ensures AllRecorded(a, c, key, [r] + runs)
  {
    hide HasSpend;
    assert forall q :: q in [r] + runs <==> q in [r] || q in runs;
  }

  lemma {:induction false} RecordedNothing(b: Book, key: TurnKey, r: TurnRun)
    requires !r.evidence.Frozen?
    ensures AllRecorded(b, b, key, [r]) && AllRecorded(b, b, key, [])
  {
    hide HasSpend;
  }

  /** Whatever the Runs, a pass adds to the book as it may. */
  lemma {:induction false} RunsAdd(b: Book, key: TurnKey, runs: seq<TurnRun>)
    requires Sound(b)
    ensures SpendRuns(b, key, runs).Passed? ==>
              Adds(b, SpendRuns(b, key, runs).book, key) && Sound(SpendRuns(b, key, runs).book)
    decreases |runs|
  {
    hide Sound, Adds, SpendRun;
    AddsNothing(b, key);
    if runs != [] {
      if runs[0].evidence.Frozen? {
        FrozenAdds(b, key, runs[0]);
        var pass := SpendRun(b, key, runs[0].id, runs[0].evidence.facts, USAGE_KINDS);
        if pass.Passed? {
          RunsAdd(pass.book, key, runs[1..]);
          if SpendRuns(pass.book, key, runs[1..]).Passed? {
            AddsTrans(b, pass.book, SpendRuns(pass.book, key, runs[1..]).book, key);
          }
        }
      } else {
        RunsAdd(b, key, runs[1..]);
      }
    }
  }

  lemma {:induction false} FrozenAdds(b: Book, key: TurnKey, r: TurnRun)
    requires Sound(b) && r.evidence.Frozen?
    ensures SpendRun(b, key, r.id, r.evidence.facts, USAGE_KINDS).Passed? ==>
              && Adds(b, SpendRun(b, key, r.id, r.evidence.facts, USAGE_KINDS).book, key)
              && Sound(SpendRun(b, key, r.id, r.evidence.facts, USAGE_KINDS).book)
  {
    FrozenPass(b, key, r);
  }

  /** The pass over the Runs stops exactly at a Run that stops it, whatever the others recorded before. */
  lemma {:induction false} RunsPass(b: Book, key: TurnKey, runs: seq<TurnRun>)
    requires Sound(b) && Distinct(runs)
    ensures SpendRuns(b, key, runs).Stopped? <==> exists r :: r in runs && Stops(b, key, r)
    ensures SpendRuns(b, key, runs).Passed? ==>
              && Adds(b, SpendRuns(b, key, runs).book, key)
              && Sound(SpendRuns(b, key, runs).book)
              && AllRecorded(b, SpendRuns(b, key, runs).book, key, runs)
              && (SpendRuns(b, key, runs).complete <==>
                  forall r | r in runs :: Finished(b, key, r))
    decreases |runs|
  {
    hide Sound, Adds, AllRecorded, Stops, Finished, SpendRun;
    AddsNothing(b, key);
    RecordedNothing(b, key, TurnRun("", Going));
    if runs != [] {
      var first, rest := runs[0], runs[1..];
      assert runs == [first] + rest;
      assert first in runs && forall r :: r in rest ==> r in runs;
      FirstRun(b, key, first);
      if first.evidence.Frozen? {
        FrozenPass(b, key, first);
        var pass := SpendRun(b, key, first.id, first.evidence.facts, USAGE_KINDS);
        if pass.Passed? {
          RestOfRuns(b, pass.book, key, first, rest);
          RunsPass(pass.book, key, rest);
          var all := SpendRuns(pass.book, key, rest);
          if all.Passed? {
            AddsTrans(b, pass.book, all.book, key);
            AddsRows(b, pass.book, key);
            RecordedTrans(b, pass.book, all.book, key, first, rest);
          }
        }
      } else {
        RunsPass(b, key, rest);
        if SpendRuns(b, key, rest).Passed? {
          RecordedNothing(b, key, first);
          RecordedTrans(b, b, SpendRuns(b, key, rest).book, key, first, rest);
        }
      }
    }
  }

  lemma {:induction false} AddsRows(b: Book, b': Book, key: TurnKey)
    requires Adds(b, b', key)
    ensures b'.rows == b.rows
  {
  }

  lemma {:induction false} FirstRun(b: Book, key: TurnKey, r: TurnRun)
    ensures r.evidence.Unfreezable? ==> Stops(b, key, r)
    ensures r.evidence.Going? || r.evidence.Missing? ==> !Stops(b, key, r)
    ensures r.evidence.Going? ==> !Finished(b, key, r)
    ensures r.evidence.Missing? || r.evidence.Unfreezable? ==> Finished(b, key, r)
  {
  }

  lemma {:induction false} RestOfRuns(b: Book, b': Book, key: TurnKey, first: TurnRun, rest: seq<TurnRun>)
    requires Distinct([first] + rest) && AllRecorded(b, b', key, [first]) && Adds(b, b', key)
    ensures Distinct(rest)
    ensures forall r | r in rest :: (Stops(b', key, r) <==> Stops(b, key, r))
    ensures forall r | r in rest :: (Finished(b', key, r) <==> Finished(b, key, r))
  {
    hide HasSpend, Stops, Finished, Sound, SpentBy, SpentIn;
    var runs := [first] + rest;
    forall i, j | 0 <= i < j < |rest|
      ensures rest[i].id != rest[j].id
    {
      assert runs[i + 1] == rest[i] && runs[j + 1] == rest[j];
    }
    forall r | r in rest
      ensures Stops(b', key, r) <==> Stops(b, key, r)
      ensures Finished(b', key, r) <==> Finished(b, key, r)
    {
      var i :| 0 <= i < |rest| && rest[i] == r;
      assert runs[i + 1] == r && runs[0] == first;
      OthersDoNotMatter(b, b', key, r);
    }
  }

  // ----- the outcome of a settlement -----

  /** Nothing of the turn is left to wait for, and what never reported may be given up. */
  predicate ReachesClosing(b: Book, key: TurnKey, runs: seq<TurnRun>, mayClose: bool, allowAbsent: bool) {
    && mayClose
    && (forall r | r in runs :: Finished(b, key, r))
    && (allowAbsent || forall r | r in runs :: !r.evidence.Missing?)
  }

  /** Every reservation of the turn has an entry of every Run. */
  ghost predicate FullyRecorded(b: Book, key: TurnKey, runs: seq<TurnRun>) {
    forall r, kind | r in runs && (key, kind) in b.rows :: HasSpend(b.spend, key, kind, r.id)
  }

  ghost predicate ComesFrom(runs: seq<TurnRun>, q: TurnRun) {
    exists r :: r in runs && r.evidence.Missing? && Synthesized(r) == [q]
  }

  lemma {:induction false} OneSynthesized(r: TurnRun)
    ensures r.evidence.Missing? ==> |Synthesized(r)| == 1 && Synthesized(r)[0].id == r.id
    ensures !r.evidence.Missing? ==> Synthesized(r) == []
  {
  }

  lemma {:induction false} MissingMeans(runs: seq<TurnRun>)
    ensures forall r | r in runs && r.evidence.Missing? :: Synthesized(r) != [] && Synthesized(r)[0] in MissingOf(runs)
    ensures forall q | q in MissingOf(runs) :: ComesFrom(runs, q)
    ensures Distinct(runs) ==> Distinct(MissingOf(runs))
  {
    hide Synthesized, Distinct;
    if runs == [] {
      NoneDistinct();
    } else {
      var first, rest := runs[0], runs[1..];
      assert runs == [first] + rest;
      MissingMeans(rest);
      OneSynthesized(first);
      forall q | q in MissingOf(runs)
        ensures ComesFrom(runs, q)
      {
        if q in MissingOf(rest) {
          var r :| r in rest && r.evidence.Missing? && Synthesized(r) == [q];
          assert r in runs;
        } else {
          assert first in runs && Synthesized(first) == [q];
        }
      }
      if Distinct(runs) { DistinctMissing(first, rest); }
    }
  }

  lemma {:induction false} NoneDistinct()
    ensures Distinct([])
  {
  }

  lemma {:induction false} NoneMissing(runs: seq<TurnRun>)
    ensures MissingOf(runs) == [] <==> forall r | r in runs :: !r.evidence.Missing?
  {
    MissingMeans(runs);
    if MissingOf(runs) != [] {
      var q := MissingOf(runs)[0];
      assert q in MissingOf(runs) && ComesFrom(runs, q);
    }
  }

  lemma {:induction false} DistinctMissing(first: TurnRun, rest: seq<TurnRun>)
    requires Distinct([first] + rest)
    requires Distinct(rest) ==> Distinct(MissingOf(rest))
    requires forall q | q in MissingOf(rest) :: ComesFrom(rest, q)
    ensures Distinct(Synthesized(first) + MissingOf(rest))
  {
    hide Synthesized, MissingOf;
    var runs, absent := [first] + rest, Synthesized(first) + MissingOf(rest);
    OneSynthesized(first);
    forall i, j | 0 <= i < j < |rest|
      ensures rest[i].id != rest[j].id
    {
      assert runs[i + 1] == rest[i] && runs[j + 1] == rest[j];
    }
    forall q | q in MissingOf(rest)
      ensures q.id != first.id
    {
      var r :| r in rest && r.evidence.Missing? && Synthesized(r) == [q];
      OneSynthesized(r);
      var k :| 0 <= k < |rest| && rest[k] == r;
      assert runs[k + 1] == r && runs[0] == first;
    }
    forall i, j | 0 <= i < j < |absent|
      ensures absent[i].id != absent[j].id
    {
      if first.evidence.Missing? {
        assert absent[j] == MissingOf(rest)[j - 1];
        if i > 0 { assert absent[i] == MissingOf(rest)[i - 1]; }
      }
    }
  }

  /** The first pass leaves the Runs without a report as they were. */
  lemma {:induction false} MissingUntouched(b: Book, b': Book, key: TurnKey, runs: seq<TurnRun>, r: TurnRun)
    requires Distinct(runs) && AllRecorded(b, b', key, runs) && b'.rows == b.rows
    requires r in runs && r.evidence.Missing?
    ensures StopsClosing(b', key, r) <==> StopsClosing(b, key, r)
  {
    hide HasSpend, StopsClosing;
    forall q | q in runs && q.id == r.id
      ensures q == r
    {
      var i :| 0 <= i < |runs| && runs[i] == r;
      var j :| 0 <= j < |runs| && runs[j] == q;
      assert i == j;
    }
    OthersDoNotMatter(b, b', key, r);
  }

  lemma {:induction false} SynthesizedStops(b: Book, key: TurnKey, r: TurnRun)
    requires r.evidence.Missing?
    ensures Synthesized(r) != []
    ensures StopsClosing(b, key, r) <==> Stops(b, key, Synthesized(r)[0]) || !Finished(b, key, Synthesized(r)[0])
  {
  }

  /** The closing pass goes through exactly when no Run without a report stands in the way. */
  lemma {:induction false} MissingPass(b: Book, key: TurnKey, runs: seq<TurnRun>)
    requires Sound(b) && Distinct(runs)
    ensures SpendRuns(b, key, MissingOf(runs)).Passed? && SpendRuns(b, key, MissingOf(runs)).complete <==>
              forall r | r in runs :: !StopsClosing(b, key, r)
    ensures SpendRuns(b, key, MissingOf(runs)).Passed? ==>
              && Adds(b, SpendRuns(b, key, MissingOf(runs)).book, key)
              && Sound(SpendRuns(b, key, MissingOf(runs)).book)
              && AllRecorded(b, SpendRuns(b, key, MissingOf(runs)).book, key, MissingOf(runs))
  {
    hide Sound, Adds, AllRecorded, Stops, Finished, StopsClosing, SpendRuns, Distinct, Synthesized;
    MissingMeans(runs);
    RunsPass(b, key, MissingOf(runs));
    MissingBars(b, key, runs);
  }

  /** What bars the closing pass bars it through a Run without a report. */
  lemma {:induction false} MissingBars(b: Book, key: TurnKey, runs: seq<TurnRun>)
    ensures (exists r :: r in runs && StopsClosing(b, key, r)) <==>
              exists q :: q in MissingOf(runs) && (Stops(b, key, q) || !Finished(b, key, q))
  {
    hide Stops, Finished, StopsClosing, MissingOf, Synthesized;
    MissingMeans(runs);
    OnlyMissing(b, key);
    if exists r :: r in runs && StopsClosing(b, key, r) {
      var r :| r in runs && StopsClosing(b, key, r);
      SynthesizedStops(b, key, r);
      assert Synthesized(r)[0] in MissingOf(runs);
    }
    if exists q :: q in MissingOf(runs) && (Stops(b, key, q) || !Finished(b, key, q)) {
      var q :| q in MissingOf(runs) && (Stops(b, key, q) || !Finished(b, key, q));
      assert ComesFrom(runs, q);
      var r :| r in runs && r.evidence.Missing? && Synthesized(r) == [q];
      SynthesizedStops(b, key, r);
    }
  }

  lemma {:induction false} OnlyMissing(b: Book, key: TurnKey)
    ensures forall r | StopsClosing(b, key, r) :: r.evidence.Missing?
  {
  }

  /** After a first pass that went through, the closing pass closes the turn or refuses. */
  lemma {:induction false} ClosingSettles(b: Book, b': Book, key: TurnKey, runs: seq<TurnRun>)
    requires Sound(b) && Sound(b') && Distinct(runs) && Adds(b, b', key) && AllRecorded(b, b', key, runs)
    requires forall r | r in runs :: !Stops(b, key, r) && Finished(b, key, r)
    ensures SpendRuns(b', key, MissingOf(runs)).Passed? && SpendRuns(b', key, MissingOf(runs)).complete <==>
              forall r | r in runs :: !StopsClosing(b, key, r)
    ensures SpendRuns(b', key, MissingOf(runs)).Passed? && SpendRuns(b', key, MissingOf(runs)).complete ==>
              && CloseKinds(SpendRuns(b', key, MissingOf(runs)).book, key, USAGE_KINDS).Success?
              && FullyRecorded(CloseKinds(SpendRuns(b', key, MissingOf(runs)).book, key, USAGE_KINDS).value, key, runs)
  {
    hide Sound, Adds, AllRecorded, Stops, StopsClosing, SpendRuns, Finished, Distinct, MissingOf, CloseKinds, Settled,
         FullyRecorded;
    AddsRows(b, b', key);
    MissingPass(b', key, runs);
    OnlyMissing(b, key);
    OnlyMissing(b', key);
    forall r | r in runs
      ensures StopsClosing(b', key, r) <==> StopsClosing(b, key, r)
    {
      if r.evidence.Missing? { MissingUntouched(b, b', key, runs, r); }
    }
    var pass := SpendRuns(b', key, MissingOf(runs));
    if pass.Passed? && pass.complete {
      AddsTrans(b, b', pass.book, key);
      ClosePass(pass.book, key, USAGE_KINDS);
      CloseSettles(b, pass.book, key);
      forall r | r in runs
        ensures RunRecorded(pass.book, key, r)
      {
        RecordedRun(b, b', pass.book, key, runs, r);
      }
      AllRunsRecorded(pass.book, key, runs);
      RecordedStays(pass.book, CloseKinds(pass.book, key, USAGE_KINDS).value, key, runs);
    }
  }

  ghost predicate RunRecorded(b: Book, key: TurnKey, r: TurnRun) {
    forall kind | (key, kind) in b.rows :: HasSpend(b.spend, key, kind, r.id)
  }

  lemma {:induction false} AllRunsRecorded(b: Book, key: TurnKey, runs: seq<TurnRun>)
    requires forall r | r in runs :: RunRecorded(b, key, r)
    ensures FullyRecorded(b, key, runs)
  {
    hide HasSpend;
  }

  lemma {:induction false} RecordedStays(b: Book, b': Book, key: TurnKey, runs: seq<TurnRun>)
    requires FullyRecorded(b, key, runs) && b'.spend == b.spend && b'.rows.Keys == b.rows.Keys
    ensures FullyRecorded(b', key, runs)
  {
    hide HasSpend;
    assert forall k :: k in b'.rows <==> k in b'.rows.Keys;
    assert forall k :: k in b.rows <==> k in b.rows.Keys;
  }

  /** Everything a Run owes is there after both passes: paid for, or a gap on the record. */
  lemma {:induction false} RecordedRun(b: Book, b': Book, b'': Book, key: TurnKey, runs: seq<TurnRun>, r: TurnRun)
    requires Adds(b, b', key) && Adds(b', b'', key)
    requires AllRecorded(b, b', key, runs) && AllRecorded(b', b'', key, MissingOf(runs))
    requires r in runs && !Stops(b, key, r) && Finished(b, key, r) && !StopsClosing(b, key, r)
    ensures RunRecorded(b'', key, r)
  {
    hide HasSpend, Sound, SpentBy, SpentIn, MissingOf, Synthesized;
    MissingMeans(runs);
    forall kind | (key, kind) in b''.rows
      ensures HasSpend(b''.spend, key, kind, r.id)
    {
      match r.evidence
      case Missing(closing) => SynthesizedEntry(r);
      case _ =>
    }
  }

  lemma {:induction false} SynthesizedEntry(r: TurnRun)
    requires r.evidence.Missing? && r.evidence.closing.Some?
    ensures Synthesized(r) == [TurnRun(r.id, Frozen(r.evidence.closing.value))]
  {
  }

  /** Closing after a pass that added only this turn's spends settles the turn. */
  lemma {:induction false} CloseSettles(b: Book, spent: Book, key: TurnKey)
    requires Sound(b) && Sound(spent) && Adds(b, spent, key)
    ensures CloseKinds(spent, key, USAGE_KINDS).Success? && Settled(b, CloseKinds(spent, key, USAGE_KINDS).value, key)
  {
    hide Sound, Used, SpentIn, HasSpend, CloseKinds, SpentBy;
    AllUsageKinds();
    ClosePass(spent, key, USAGE_KINDS);
    var after := CloseKinds(spent, key, USAGE_KINDS).value;
    forall kind
      ensures Used(after, kind) <= Used(b, kind)
    {
      TurnExposure(b, spent, after, key, kind);
    }
    forall k | k in b.rows && Holds(b, k.0, k.1)
      ensures SpentIn(after.spend, k.0, k.1) <= b.rows[k].reserved
    {
      ClosingKeepsSound(spent, k.0, k.1);
    }
  }

  /**
    Left open, a turn has gained entries of its own within its reservations;
    closed, every reservation of it balances and nothing else has changed.
   */
  lemma {:induction false} SettleKeeps(b: Book, key: TurnKey, runs: seq<TurnRun>, mayClose: bool, allowAbsent: bool)
    requires Sound(b)
    ensures Settle(b, key, runs, mayClose, allowAbsent).StillOpen? ==>
              Adds(b, Settle(b, key, runs, mayClose, allowAbsent).book, key)
    ensures Settle(b, key, runs, mayClose, allowAbsent).AllClosed? ==>
              Settled(b, Settle(b, key, runs, mayClose, allowAbsent).book, key)
  {
    hide Sound, Adds, SpendRuns, MissingOf, CloseKinds, Settled, AnyRow;
    AddsNothing(b, key);
    RunsAdd(b, key, runs);
    if SpendRuns(b, key, runs).Passed? {
      var book := SpendRuns(b, key, runs).book;
      RunsAdd(book, key, MissingOf(runs));
      if SpendRuns(book, key, MissingOf(runs)).Passed? {
        AddsTrans(b, book, SpendRuns(book, key, MissingOf(runs)).book, key);
        CloseSettles(b, SpendRuns(book, key, MissingOf(runs)).book, key);
      }
    }
  }

  /**
    When a settlement is refused, when it closes the turn and when it leaves it
    open, from the reservations, the Runs and the caller alone. Once it is closed
    every Run is accounted for under every reservation.
   */
  lemma {:induction false} SettlesExactly(b: Book, key: TurnKey, runs: seq<TurnRun>, mayClose: bool, allowAbsent: bool)
    requires Sound(b) && Distinct(runs)
    ensures Settle(b, key, runs, mayClose, allowAbsent).Refused? <==>
              && AnyRow(b, key)
              && exists r :: r in runs &&
                   (|| Stops(b, key, r)
                    || (ReachesClosing(b, key, runs, mayClose, allowAbsent) && StopsClosing(b, key, r)))
    ensures Settle(b, key, runs, mayClose, allowAbsent).AllClosed? <==>
              && AnyRow(b, key) && ReachesClosing(b, key, runs, mayClose, allowAbsent)
              && forall r | r in runs :: !Stops(b, key, r) && !StopsClosing(b, key, r)
    ensures Settle(b, key, runs, mayClose, allowAbsent).AllClosed? ==>
              FullyRecorded(Settle(b, key, runs, mayClose, allowAbsent).book, key, runs)
  {
    hide Sound, Adds, AllRecorded, Stops, StopsClosing, SpendRuns, Finished, Distinct, MissingOf, CloseKinds, Settled,
         FullyRecorded, AnyRow;
    AddsNothing(b, key);
    RunsPass(b, key, runs);
    NoneMissing(runs);
    if SpendRuns(b, key, runs).Passed? && ReachesClosing(b, key, runs, mayClose, allowAbsent) {
      ClosingSettles(b, SpendRuns(b, key, runs).book, key, runs);
    }
  }

  // ----- settling again -----

  /** A Run whose payable entries are all there. */
  ghost predicate Rests(b: Book, key: TurnKey, r: TurnRun) {
    match r.evidence
    case Unfreezable => false
    case Frozen(facts) =>
      forall kind | (key, kind) in b.rows && Payable(facts, kind) :: HasSpend(b.spend, key, kind, r.id)
    case _ => true
  }

  lemma {:induction false} RestingKinds(b: Book, key: TurnKey, run: string, facts: Facts, kinds: seq<Kind>)
    requires Rests(b, key, TurnRun(run, Frozen(facts)))
    ensures SpendRun(b, key, run, facts, kinds) == Passed(b, !(Cost in kinds && Unpriced(b, key, run, facts)))
    decreases |kinds|
  {
    hide HasSpend;
    if kinds != [] {
      assert kinds == [kinds[0]] + kinds[1..];
      RestingKinds(b, key, run, facts, kinds[1..]);
    }
  }

  /** A pass over resting Runs changes nothing. */
  lemma {:induction false} RestingRuns(b: Book, key: TurnKey, runs: seq<TurnRun>)
    requires forall r | r in runs :: Rests(b, key, r)
    ensures SpendRuns(b, key, runs) == Passed(b, forall r | r in runs :: Finished(b, key, r))
    decreases |runs|
  {
    hide HasSpend, SpendRun, Finished, Rests;
    if runs != [] {
      assert runs == [runs[0]] + runs[1..];
      assert runs[0] in runs && forall r :: r in runs[1..] ==> r in runs;
      RestingRuns(b, key, runs[1..]);
      FirstRun(b, key, runs[0]);
      FirstRests(b, key, runs[0]);
    }
  }

  lemma {:induction false} FirstRests(b: Book, key: TurnKey, r: TurnRun)
    requires Rests(b, key, r)
    ensures r.evidence != Unfreezable
    ensures r.evidence.Frozen? ==>
              SpendRun(b, key, r.id, r.evidence.facts, USAGE_KINDS) == Passed(b, Finished(b, key, r))
  {
    hide HasSpend;
    AllUsageKinds();
    if r.evidence.Frozen? {
      assert r == TurnRun(r.id, Frozen(r.evidence.facts));
      RestingKinds(b, key, r.id, r.evidence.facts, USAGE_KINDS);
    }
  }

  /** The evidence of a Run once the closing has recorded it. */
  function Later(r: TurnRun): TurnRun {
    if r.evidence.Missing? && r.evidence.closing.Some? then TurnRun(r.id, Frozen(r.evidence.closing.value)) else r
  }

  /** A turn that was left open is left open, with the same entries, as long as nothing about it changes. */
  lemma {:induction false} OpenStaysOpen(b: Book, key: TurnKey, runs: seq<TurnRun>, mayClose: bool, allowAbsent: bool)
    requires Sound(b) && Distinct(runs) && Settle(b, key, runs, mayClose, allowAbsent).StillOpen?
    ensures Settle(Settle(b, key, runs, mayClose, allowAbsent).book, key, runs, mayClose, allowAbsent)
              == Settle(b, key, runs, mayClose, allowAbsent)
  {
    hide Sound, Adds, AllRecorded, Stops, SpendRuns, Finished, Distinct, MissingOf, Rests;
    if AnyRow(b, key) {
      RunsPass(b, key, runs);
      var b' := SpendRuns(b, key, runs).book;
      AddsRows(b, b', key);
      forall r | r in runs
        ensures Rests(b', key, r) && (Finished(b', key, r) <==> Finished(b, key, r))
      {
        RestsAfter(b, b', key, runs, r);
      }
      RestingRuns(b', key, runs);
    }
  }

  lemma {:induction false} RestsAfter(b: Book, b': Book, key: TurnKey, runs: seq<TurnRun>, r: TurnRun)
    requires Distinct(runs) && AllRecorded(b, b', key, runs) && b'.rows == b.rows
    requires r in runs && !Stops(b, key, r)
    ensures Rests(b', key, r) && (Finished(b', key, r) <==> Finished(b, key, r))
  {
    hide HasSpend;
    forall q | q in runs && q.id == r.id
      ensures q == r
    {
      var i :| 0 <= i < |runs| && runs[i] == r;
      var j :| 0 <= j < |runs| && runs[j] == q;
      assert i == j;
    }
  }

  /** A closed turn is not touched again, however often it is settled. */
  lemma {:induction false} ClosedStaysClosed(
      b: Book, key: TurnKey, runs: seq<TurnRun>, mayClose: bool, allowAbsent: bool,
      later: seq<TurnRun>, mayCloseNow: bool, allowAbsentNow: bool)
    requires Sound(b) && Distinct(runs) && Settle(b, key, runs, mayClose, allowAbsent).AllClosed?
    requires |later| == |runs| && forall i | 0 <= i < |runs| :: later[i] == Later(runs[i])
    ensures var closed := Settle(b, key, runs, mayClose, allowAbsent).book;
            Settle(closed, key, later, mayCloseNow, allowAbsentNow)
              == if mayCloseNow then AllClosed(closed) else StillOpen(closed)
  {
    hide Sound, Adds, Stops, SpendRuns, Distinct, MissingOf, HasSpend, CloseKinds, SpentIn, Used;
    SettlesExactly(b, key, runs, mayClose, allowAbsent);
    SettleKeeps(b, key, runs, mayClose, allowAbsent);
    var closed := Settle(b, key, runs, mayClose, allowAbsent).book;
    forall r | r in later
      ensures Rests(closed, key, r) && Finished(closed, key, r) && r.evidence.Frozen?
    {
      var i :| 0 <= i < |later| && later[i] == r;
      assert runs[i] in runs && r == Later(runs[i]) && r.id == runs[i].id;
      assert Finished(b, key, runs[i]) && !Stops(b, key, runs[i]) && !StopsClosing(b, key, runs[i]);
      FirstRun(b, key, runs[i]);
    }
    RestingRuns(closed, key, later);
    NoneMissing(later);
    NoRowsLeft(closed, key, USAGE_KINDS);
    NoRuns(closed, key);
    assert AnyRow(closed, key) by { SameRows(b, closed, key); }
  }

  lemma {:induction false} SameRows(b: Book, b': Book, key: TurnKey)
    requires b'.rows.Keys == b.rows.Keys && AnyRow(b, key)
    ensures AnyRow(b', key)
  {
    var i :| 0 <= i < |USAGE_KINDS| && (key, USAGE_KINDS[i]) in b.rows;
    assert (key, USAGE_KINDS[i]) in b'.rows.Keys;
  }

  lemma {:induction false} NoRuns(b: Book, key: TurnKey)
    ensures SpendRuns(b, key, []) == Passed(b, true)
  {
  }

  lemma {:induction false} NoRowsLeft(b: Book, key: TurnKey, kinds: seq<Kind>)
    requires forall kind :: !Holds(b, key, kind)
    ensures CloseKinds(b, key, kinds) == Success(b)
    decreases |kinds|
  {
    if kinds != [] {
      assert !Holds(b, key, kinds[0]);
      NoRowsLeft(b, key, kinds[1..]);
    }
  }

  // ----- which Runs cannot be frozen -----

  predicate BadPrice(run: U.Run) {
    run.price.BadPrice? || (run.price.Priced? && !run.price.price.Valid())
  }

  /** A per-Run report is settled unless the price input is unreadable or the cost exceeds int64. */
  lemma {:induction false} FreezesExactly(run: U.Run, session: Option<U.TaskSession>)
    requires run.terminal && run.canonical.None? && run.report.Some? && run.report.value.basis == PerRun
    requires Decide(U.RequestFor(run, session)).Success?
    ensures EvidenceOf(run, session).Unfreezable? <==>
              || BadPrice(run)
              || (run.price.Priced? && UsageCost.CostOf(run.report.value.counters, run.price.price).ArithmeticFailure?)
    ensures !EvidenceOf(run, session).Unfreezable? ==> EvidenceOf(run, session).Frozen?
    ensures EvidenceOf(run, session).Frozen? ==> (EvidenceOf(run, session).facts.priced <==> run.price.Priced?)
  {
    hide UsageCost.CostOf, FactsOf;
    FactsPriced();
  }

  lemma {:induction false} FactsPriced()
    ensures forall c, cost, priced :: FactsOf(c, cost, priced).priced == priced
  {
  }

  /** A Run without a report is recorded with no amounts at the closing, unless its price input is unreadable. */
  lemma {:induction false} AbsenceCloses(run: U.Run, session: Option<U.TaskSession>)
    requires run.terminal && run.canonical.None? && run.report.None?
    ensures EvidenceOf(run, session) ==
            Missing(if BadPrice(run) then None else Some(Facts(map[], run.price.Priced?)))
  {
    if run.price.Priced? { assert UsageCost.CostOf(UNKNOWN, run.price.price).Unresolved?; }
    forall priced
      ensures FactsOf(UNKNOWN, None, priced) == Facts(map[], priced)
    {
      forall kind: Kind
        ensures AmountOf(UNKNOWN, None, kind).None?
      {
      }
      assert FactsOf(UNKNOWN, None, priced).amounts == map[];
    }
  }

  /** A million million uncached tokens at ten dollars a million. */
  const OVERFLOWING_RUN := U.Run(
    "run_1", "agent_1", true, true, U.Priced(UsageCost.Price(10_000_000, 0, 0, 0)), true,
    Some(Report("run_1", PerRun, "kimi", "agent_1", "",
                Counters(None, Some(1_000_000_000_000), Some(0), Some(0), Some(0)), true)), None, 1)

  /** Its cost does not fit int64, so it can never be frozen. */
  lemma {:induction false} OverflowExample(session: Option<U.TaskSession>)
    requires session.Some? ==> session.value.generation >= 0
    ensures EvidenceOf(OVERFLOWING_RUN, session) == Unfreezable
  {
    var run := OVERFLOWING_RUN;
    var req := U.RequestFor(run, session);
    assert run.id[..4] == "run_" && !Text.IsSpace(run.id[0]) && !Text.IsSpace(run.id[4]);
    assert !Text.IsSpace("kimi"[0]) && !Text.IsSpace("agent_1"[0]);
    assert RequestOk(req) && Verified(req.report.value) && IdentityOk(req);
    FreezesExactly(run, session);
  }

  // ----- first come, first served -----

  /** What a Run claims under a reservation that has no entry of it yet. */
  function ClaimOf(b: Book, key: TurnKey, kind: Kind, r: TurnRun): Option<nat> {
    if Due(b, key, kind, r.id) && r.evidence.Frozen? && Payable(r.evidence.facts, kind)
       && kind in r.evidence.facts.amounts
    then Some(r.evidence.facts.amounts[kind])
    else None
  }

  function Room(b: Book, key: TurnKey, kind: Kind): int {
    if (key, kind) in b.rows then b.rows[(key, kind)].reserved - SpentIn(b.spend, key, kind) else 0
  }

  /** The Runs whose claims are met, one after the other, out of what is left. */
  function Served(b: Book, key: TurnKey, kind: Kind, runs: seq<TurnRun>, room: int): set<string>
    decreases |runs|
  {
    if runs == [] then {}
    else
      var claim := ClaimOf(b, key, kind, runs[0]);
      if claim.Some? && claim.value <= room then
        {runs[0].id} + Served(b, key, kind, runs[1..], room - claim.value)
      else Served(b, key, kind, runs[1..], room)
  }

  /** A claim counts if it could be met on its own. */
  function Weight(b: Book, key: TurnKey, kind: Kind, r: TurnRun, cap: int): nat {
    var claim := ClaimOf(b, key, kind, r);
    if claim.Some? && claim.value <= cap then claim.value else 0
  }

  function Fitting(b: Book, key: TurnKey, kind: Kind, runs: seq<TurnRun>, cap: int): nat {
    if runs == [] then 0 else Weight(b, key, kind, runs[0], cap) + Fitting(b, key, kind, runs[1..], cap)
  }

  /** The full amount of a Run is on the ledger. */
  predicate Paid(spend: seq<Spend>, key: TurnKey, kind: Kind, run: string) {
    exists i :: 0 <= i < |spend| && spend[i].key == key && spend[i].kind == kind && spend[i].run == run
      && spend[i].resolved
  }

  lemma {:induction false} PaidAppends(spend: seq<Spend>, e: Spend, key: TurnKey, kind: Kind, run: string)
    ensures Paid(spend + [e], key, kind, run) <==>
              Paid(spend, key, kind, run) || (e.key == key && e.kind == kind && e.run == run && e.resolved)
    ensures Paid(spend, key, kind, run) ==> HasSpend(spend, key, kind, run)
  {
    var longer := spend + [e];
    if Paid(spend, key, kind, run) {
      var i :| 0 <= i < |spend| && spend[i].key == key && spend[i].kind == kind && spend[i].run == run
        && spend[i].resolved;
      assert longer[i] == spend[i];
    }
    if e.key == key && e.kind == kind && e.run == run && e.resolved { assert longer[|spend|] == e; }
  }

  /** The claim of one Run is met exactly if it fits. */
  ghost predicate PaidFor(b: Book, b': Book, key: TurnKey, kind: Kind, r: TurnRun) {
    var claim := ClaimOf(b, key, kind, r);
    var met := claim.Some? && claim.value <= Room(b, key, kind);
    && (forall id :: Paid(b'.spend, key, kind, id) <==> Paid(b.spend, key, kind, id) || (id == r.id && met))
    && Room(b', key, kind) == Room(b, key, kind) - (if met then claim.value else 0)
  }

  /** Entries of other kinds do not matter to a kind. */
  lemma {:induction false} OtherKindsAside(b: Book, key: TurnKey, run: string, facts: Facts, kinds: seq<Kind>,
      kind: Kind)
    requires SpendRun(b, key, run, facts, kinds).Passed?
    requires kind !in kinds || !Due(b, key, kind, run) || !Payable(facts, kind)
    ensures var b' := SpendRun(b, key, run, facts, kinds).book;
            && b'.rows == b.rows && SpentIn(b'.spend, key, kind) == SpentIn(b.spend, key, kind)
            && (forall id :: Paid(b'.spend, key, kind, id) <==> Paid(b.spend, key, kind, id))
    decreases |kinds|
  {
    hide HasSpend, Paid, SpentIn, EntryFor;
    if kinds != [] {
      assert kinds == [kinds[0]] + kinds[1..];
      if Due(b, key, kinds[0], run) && Payable(facts, kinds[0]) {
        var e := EntryFor(b, key, kinds[0], run, facts);
        EntryNames(b, key, kinds[0], run, facts);
        SpendAppends(b.spend, e, key, kind);
        HasSpendAppends(b.spend, e, key, kind, run);
        forall id
          ensures Paid(b.spend + [e], key, kind, id) <==> Paid(b.spend, key, kind, id)
        {
          PaidAppends(b.spend, e, key, kind, id);
        }
        OtherKindsAside(b.(spend := b.spend + [e]), key, run, facts, kinds[1..], kind);
      } else {
        OtherKindsAside(b, key, run, facts, kinds[1..], kind);
      }
    }
  }

  /** An entry of one kind, seen from a kind. */
  lemma {:induction false} EntrySeen(b: Book, key: TurnKey, first: Kind, run: string, facts: Facts, kind: Kind)
    requires (key, first) in b.rows
    ensures var e := EntryFor(b, key, first, run, facts);
            var next := b.(spend := b.spend + [e]);
            && Room(next, key, kind) == Room(b, key, kind) - (if first == kind && e.resolved then e.amount else 0)
            && (forall id :: HasSpend(next.spend, key, kind, id) <==>
                  HasSpend(b.spend, key, kind, id) || (first == kind && id == run))
            && (forall id :: Paid(next.spend, key, kind, id) <==>
                  Paid(b.spend, key, kind, id) || (first == kind && id == run && e.resolved))
  {
    hide HasSpend, Paid, SpentIn;
    var e := EntryFor(b, key, first, run, facts);
    EntryNames(b, key, first, run, facts);
    SpendAppends(b.spend, e, key, kind);
    forall id
      ensures HasSpend(b.spend + [e], key, kind, id) <==>
                HasSpend(b.spend, key, kind, id) || (first == kind && id == run)
      ensures Paid(b.spend + [e], key, kind, id) <==>
                Paid(b.spend, key, kind, id) || (first == kind && id == run && e.resolved)
    {
      HasSpendAppends(b.spend, e, key, kind, id);
      PaidAppends(b.spend, e, key, kind, id);
    }
  }

  lemma {:induction false} RunIsPaid(b: Book, key: TurnKey, r: TurnRun, kinds: seq<Kind>, kind: Kind)
    requires r.evidence.Frozen? && SpendRun(b, key, r.id, r.evidence.facts, kinds).Passed? && kind in kinds
    ensures PaidFor(b, SpendRun(b, key, r.id, r.evidence.facts, kinds).book, key, kind, r)
    decreases |kinds|
  {
    hide HasSpend, Paid, SpentIn, EntryFor, Room;
    var facts, run := r.evidence.facts, r.id;
    assert kinds == [kinds[0]] + kinds[1..];
    if !Due(b, key, kind, run) || !Payable(facts, kind) {
      OtherKindsAside(b, key, run, facts, kinds, kind);
      SameRoom(b, SpendRun(b, key, run, facts, kinds).book, key, kind);
    } else if kinds[0] == kind {
      OwnKindPaid(b, key, r, kinds[1..], kind);
    } else if Due(b, key, kinds[0], run) && Payable(facts, kinds[0]) {
      EntrySeen(b, key, kinds[0], run, facts, kind);
      RunIsPaid(b.(spend := b.spend + [EntryFor(b, key, kinds[0], run, facts)]), key, r, kinds[1..], kind);
    } else {
      RunIsPaid(b, key, r, kinds[1..], kind);
    }
  }

  lemma {:induction false} SameRoom(b: Book, b': Book, key: TurnKey, kind: Kind)
    requires b'.rows == b.rows && SpentIn(b'.spend, key, kind) == SpentIn(b.spend, key, kind)
    ensures Room(b', key, kind) == Room(b, key, kind)
  {
  }

  lemma {:induction false} OwnKindPaid(b: Book, key: TurnKey, r: TurnRun, rest: seq<Kind>, kind: Kind)
    requires r.evidence.Frozen? && Due(b, key, kind, r.id) && Payable(r.evidence.facts, kind)
    requires var next := b.(spend := b.spend + [EntryFor(b, key, kind, r.id, r.evidence.facts)]);
             SpendRun(next, key, r.id, r.evidence.facts, rest).Passed?
    ensures var next := b.(spend := b.spend + [EntryFor(b, key, kind, r.id, r.evidence.facts)]);
            PaidFor(b, SpendRun(next, key, r.id, r.evidence.facts, rest).book, key, kind, r)
  {
    hide HasSpend, Paid, SpentIn, SpendRun;
    var next := b.(spend := b.spend + [EntryFor(b, key, kind, r.id, r.evidence.facts)]);
    EntrySeen(b, key, kind, r.id, r.evidence.facts, kind);
    OtherKindsAside(next, key, r.id, r.evidence.facts, rest, kind);
    SameRoom(next, SpendRun(next, key, r.id, r.evidence.facts, rest).book, key, kind);
  }

  lemma {:induction false} SameClaims(b: Book, b': Book, key: TurnKey, kind: Kind, runs: seq<TurnRun>, room: int)
    requires forall r | r in runs :: ClaimOf(b', key, kind, r) == ClaimOf(b, key, kind, r)
    ensures Served(b', key, kind, runs, room) == Served(b, key, kind, runs, room)
    decreases |runs|
  {
    hide ClaimOf;
    if runs != [] {
      assert runs[0] in runs && forall r :: r in runs[1..] ==> r in runs;
      var claim := ClaimOf(b, key, kind, runs[0]);
      SameClaims(b, b', key, kind, runs[1..], if claim.Some? then room - claim.value else room);
      SameClaims(b, b', key, kind, runs[1..], room);
    }
  }

  /** The claims of the others are what they were. */
  lemma {:induction false} ClaimsOfRest(b: Book, b': Book, key: TurnKey, kind: Kind, first: TurnRun, rest: seq<TurnRun>)
    requires Distinct([first] + rest) && AllRecorded(b, b', key, [first]) && b'.rows == b.rows
    ensures Distinct(rest)
    ensures forall r | r in rest :: ClaimOf(b', key, kind, r) == ClaimOf(b, key, kind, r)
  {
    hide HasSpend;
    var runs := [first] + rest;
    forall i, j | 0 <= i < j < |rest|
      ensures rest[i].id != rest[j].id
    {
      assert runs[i + 1] == rest[i] && runs[j + 1] == rest[j];
    }
    forall r | r in rest
      ensures ClaimOf(b', key, kind, r) == ClaimOf(b, key, kind, r)
    {
      var i :| 0 <= i < |rest| && rest[i] == r;
      assert runs[i + 1] == r && runs[0] == first;
    }
  }

  /** The book the rest of the Runs meets, once the first one has been dealt with. */
  function AfterFirst(b: Book, key: TurnKey, r: TurnRun): Book {
    if !r.evidence.Frozen? then b
    else
      match SpendRun(b, key, r.id, r.evidence.facts, USAGE_KINDS)
      case Stopped => b
      case Passed(book, _) => book
  }

  lemma {:induction false} FirstSettled(b: Book, key: TurnKey, kind: Kind, runs: seq<TurnRun>)
    requires Sound(b) && Distinct(runs) && runs != [] && SpendRuns(b, key, runs).Passed?
    ensures var next := AfterFirst(b, key, runs[0]);
            && Sound(next) && Distinct(runs[1..]) && SpendRuns(next, key, runs[1..]).Passed?
            && SpendRuns(b, key, runs).book == SpendRuns(next, key, runs[1..]).book
            && PaidFor(b, next, key, kind, runs[0])
            && (forall r | r in runs[1..] :: ClaimOf(next, key, kind, r) == ClaimOf(b, key, kind, r))
  {
    hide Sound, HasSpend, Paid, SpendRun, AllRecorded, Adds, Room, Distinct;
    var first, rest := runs[0], runs[1..];
    assert runs == [first] + rest;
    if first.evidence.Frozen? {
      FrozenPass(b, key, first);
      AllUsageKinds();
      RunIsPaid(b, key, first, USAGE_KINDS, kind);
      AddsRows(b, AfterFirst(b, key, first), key);
      ClaimsOfRest(b, AfterFirst(b, key, first), key, kind, first, rest);
    } else {
      RecordedNothing(b, key, first);
      ClaimsOfRest(b, b, key, kind, first, rest);
    }
  }

  /** The ledger meets the claims first come, first served, in the order of the Runs. */
  lemma {:induction false} RunsArePaid(b: Book, key: TurnKey, kind: Kind, runs: seq<TurnRun>, id: string)
    requires Sound(b) && Distinct(runs) && SpendRuns(b, key, runs).Passed?
    ensures Paid(SpendRuns(b, key, runs).book.spend, key, kind, id) <==>
              Paid(b.spend, key, kind, id) || id in Served(b, key, kind, runs, Room(b, key, kind))
    decreases |runs|
  {
    hide Sound, Distinct, Paid, Room, ClaimOf, AfterFirst;
    if runs == [] {
      NoRuns(b, key);
    } else {
      var next := AfterFirst(b, key, runs[0]);
      FirstSettled(b, key, kind, runs);
      SameClaims(b, next, key, kind, runs[1..], Room(next, key, kind));
      RunsArePaid(next, key, kind, runs[1..], id);
      hide SpendRuns;
    }
  }

  // ----- when the order does not matter -----

  ghost predicate Claimant(b: Book, key: TurnKey, kind: Kind, runs: seq<TurnRun>, id: string, cap: int) {
    exists r :: r in runs && r.id == id && ClaimOf(b, key, kind, r).Some? && ClaimOf(b, key, kind, r).value <= cap
  }

  /** If all claims that fit alone fit together, they are the ones that are met. */
  lemma {:induction false} FittingAreServed(b: Book, key: TurnKey, kind: Kind, runs: seq<TurnRun>, room: int, cap: int,
      id: string)
    requires room <= cap && Fitting(b, key, kind, runs, cap) <= room
    ensures id in Served(b, key, kind, runs, room) <==> Claimant(b, key, kind, runs, id, cap)
    decreases |runs|
  {
    hide ClaimOf;
    if runs != [] {
      assert runs == [runs[0]] + runs[1..];
      var claim := ClaimOf(b, key, kind, runs[0]);
      FittingAreServed(b, key, kind, runs[1..], if claim.Some? && claim.value <= room then room - claim.value else room,
        cap, id);
      assert Claimant(b, key, kind, runs, id, cap) <==>
               || (runs[0].id == id && claim.Some? && claim.value <= cap)
               || Claimant(b, key, kind, runs[1..], id, cap);
    }
  }

  lemma {:induction false} ServedAreRuns(b: Book, key: TurnKey, kind: Kind, runs: seq<TurnRun>, room: int, id: string)
    requires id in Served(b, key, kind, runs, room)
    ensures exists i :: 0 <= i < |runs| && runs[i].id == id
    decreases |runs|
  {
    hide ClaimOf;
    var claim := ClaimOf(b, key, kind, runs[0]);
    if claim.Some? && claim.value <= room && id == runs[0].id {
    } else {
      ServedAreRuns(b, key, kind, runs[1..],
        if claim.Some? && claim.value <= room then room - claim.value else room, id);
      var i :| 0 <= i < |runs[1..]| && runs[1..][i].id == id;
      assert runs[i + 1].id == id;
    }
  }

  lemma {:induction false} DistinctTail(runs: seq<TurnRun>)
    requires Distinct(runs) && runs != []
    ensures Distinct(runs[1..]) && forall r | r in runs[1..] :: r.id != runs[0].id
  {
    forall i | 0 <= i < |runs[1..]|
      ensures runs[1..][i] == runs[i + 1]
    {
    }
  }

  /** If every claim that fits alone is met, they fit together. */
  lemma {:induction false} ServedFit(b: Book, key: TurnKey, kind: Kind, runs: seq<TurnRun>, room: int, cap: int)
    requires 0 <= room <= cap && Distinct(runs)
    requires forall r | r in runs && Weight(b, key, kind, r, cap) > 0 :: r.id in Served(b, key, kind, runs, room)
    ensures Fitting(b, key, kind, runs, cap) <= room
    decreases |runs|
  {
    hide ClaimOf, Distinct;
    if runs != [] {
      var first, rest := runs[0], runs[1..];
      var claim := ClaimOf(b, key, kind, first);
      var left := if claim.Some? && claim.value <= room then room - claim.value else room;
      assert runs == [first] + rest && first in runs;
      DistinctTail(runs);
      forall id | id in Served(b, key, kind, rest, left)
        ensures id != first.id
      {
        ServedAreRuns(b, key, kind, rest, left, id);
      }
      forall r | r in rest && Weight(b, key, kind, r, cap) > 0
        ensures r.id in Served(b, key, kind, rest, left)
      {
        assert r in runs;
      }
      ServedFit(b, key, kind, rest, left, cap);
    }
  }

  lemma {:induction false} FittingWithout(b: Book, key: TurnKey, kind: Kind, runs: seq<TurnRun>, i: nat, cap: int)
    requires i < |runs|
    ensures Fitting(b, key, kind, runs, cap) ==
            Weight(b, key, kind, runs[i], cap) + Fitting(b, key, kind, runs[..i] + runs[i + 1..], cap)
    decreases |runs|
  {
    hide Weight;
    if i == 0 {
      assert runs[..0] + runs[1..] == runs[1..];
    } else {
      FittingWithout(b, key, kind, runs[1..], i - 1, cap);
      assert runs[1..][..i - 1] + runs[1..][i..] == (runs[..i] + runs[i + 1..])[1..];
      assert (runs[..i] + runs[i + 1..])[0] == runs[0];
    }
  }

  lemma {:induction false} FittingPermutes(b: Book, key: TurnKey, kind: Kind, runs: seq<TurnRun>, other: seq<TurnRun>,
      cap: int)
    requires multiset(other) == multiset(runs)
    ensures Fitting(b, key, kind, other, cap) == Fitting(b, key, kind, runs, cap)
    decreases |runs|
  {
    hide Weight;
    hide Fitting;
    if runs == [] {
      assert |multiset(other)| == |multiset(runs)|;
    } else {
      assert runs[0] in multiset(runs) && runs[0] in multiset(other);
      var i :| 0 <= i < |other| && other[i] == runs[0];
      WithoutOne(other, i);
      WithoutOne(runs, 0);
      FittingWithout(b, key, kind, other, i, cap);
      FittingWithout(b, key, kind, runs, 0, cap);
      FittingPermutes(b, key, kind, runs[..0] + runs[1..], other[..i] + other[i + 1..], cap);
    }
  }

  lemma {:induction false} WithoutOne(runs: seq<TurnRun>, i: nat)
    requires i < |runs|
    ensures multiset(runs[..i] + runs[i + 1..]) == multiset(runs) - multiset{runs[i]}
  {
    assert runs == runs[..i] + [runs[i]] + runs[i + 1..];
  }

  /** Two orders of the same Runs put the same amounts of a kind on the ledger. */
  ghost predicate SameLedger(b: Book, key: TurnKey, kind: Kind, runs: seq<TurnRun>, other: seq<TurnRun>) {
    && SpendRuns(b, key, runs).Passed? && SpendRuns(b, key, other).Passed?
    && forall id ::
         Paid(SpendRuns(b, key, runs).book.spend, key, kind, id)
         <==> Paid(SpendRuns(b, key, other).book.spend, key, kind, id)
  }

  lemma {:induction false} SameMembers(runs: seq<TurnRun>, other: seq<TurnRun>)
    requires multiset(other) == multiset(runs)
    ensures forall r :: r in other <==> r in runs
  {
    forall r
      ensures r in other <==> r in runs
    {
      assert r in other <==> r in multiset(other);
      assert r in runs <==> r in multiset(runs);
    }
  }

  lemma {:induction false} DistinctPermutes(runs: seq<TurnRun>, other: seq<TurnRun>)
    requires Distinct(runs) && multiset(other) == multiset(runs)
    ensures Distinct(other)
  {
    SameMembers(runs, other);
    forall i, j | 0 <= i < j < |other| && other[i].id == other[j].id
      ensures false
    {
      assert other[i] in runs && other[j] in runs;
      var p :| 0 <= p < |runs| && runs[p] == other[i];
      var q :| 0 <= q < |runs| && runs[q] == other[j];
      assert p == q;
      OnlyOnce(runs, p);
      Twice(other, i, j);
    }
  }

  lemma {:induction false} Twice(runs: seq<TurnRun>, i: nat, j: nat)
    requires i < j < |runs| && runs[i] == runs[j]
    ensures multiset(runs)[runs[i]] >= 2
  {
    WithoutOne(runs, i);
    var rest := runs[..i] + runs[i + 1..];
    assert rest[j - 1] == runs[i] && rest[j - 1] in multiset(rest);
  }

  lemma {:induction false} OnlyOnce(runs: seq<TurnRun>, i: nat)
    requires Distinct(runs) && i < |runs|
    ensures multiset(runs)[runs[i]] == 1
  {
    WithoutOne(runs, i);
    var rest := runs[..i] + runs[i + 1..];
    forall k | 0 <= k < |rest|
      ensures rest[k] != runs[i]
    {
      assert rest[k] == if k < i then runs[k] else runs[k + 1];
    }
    assert runs[i] !in rest && runs[i] !in multiset(rest);
  }

  /** A Run that is settled first is paid if its claim fits alone. */
  lemma {:induction false} FirstIsServed(b: Book, key: TurnKey, kind: Kind, r: TurnRun, rest: seq<TurnRun>, room: int)
    requires ClaimOf(b, key, kind, r).Some? && ClaimOf(b, key, kind, r).value <= room
    ensures r.id in Served(b, key, kind, [r] + rest, room)
  {
    assert ([r] + rest)[0] == r;
  }

  lemma {:induction false} ClaimIsUnpaid(b: Book, key: TurnKey, kind: Kind, r: TurnRun)
    requires ClaimOf(b, key, kind, r).Some?
    ensures !Paid(b.spend, key, kind, r.id)
  {
  }

  lemma {:induction false} HeldRoom(b: Book, key: TurnKey, kind: Kind)
    requires Sound(b) && Holds(b, key, kind)
    ensures 0 <= Room(b, key, kind)
  {
    hide SpentIn, Balanced;
    assert RowSound(b, (key, kind));
  }

  /** If they do not fit together, some Run that goes without would be paid if it came first. */
  lemma {:induction false} SomeoneGoesWithout(b: Book, key: TurnKey, kind: Kind, runs: seq<TurnRun>) returns (i: nat)
    requires Sound(b) && Distinct(runs) && Holds(b, key, kind)
    requires Fitting(b, key, kind, runs, Room(b, key, kind)) > Room(b, key, kind)
    ensures i < |runs| && Weight(b, key, kind, runs[i], Room(b, key, kind)) > 0
    ensures runs[i].id !in Served(b, key, kind, runs, Room(b, key, kind))
  {
    hide Sound, Distinct, Weight, Served, Room, Fitting;
    HeldRoom(b, key, kind);
    var room := Room(b, key, kind);
    if forall r | r in runs && Weight(b, key, kind, r, room) > 0 :: r.id in Served(b, key, kind, runs, room) {
      ServedFit(b, key, kind, runs, room, room);
    }
    i :| 0 <= i < |runs| && Weight(b, key, kind, runs[i], room) > 0
         && runs[i].id !in Served(b, key, kind, runs, room);
  }

  lemma {:induction false} PermutationPasses(b: Book, key: TurnKey, runs: seq<TurnRun>, other: seq<TurnRun>)
    requires Sound(b) && Distinct(runs) && SpendRuns(b, key, runs).Passed? && multiset(other) == multiset(runs)
    ensures SpendRuns(b, key, other).Passed? && Distinct(other)
  {
    hide Sound, Distinct, SpendRuns, Stops, Adds, AllRecorded, Finished;
    SameMembers(runs, other);
    DistinctPermutes(runs, other);
    RunsPass(b, key, runs);
    RunsPass(b, key, other);
  }

  /**
    Which Runs get their full amounts on the ledger of a reservation does not
    depend on the order they are settled in exactly if all amounts that fit the
    reservation alone fit it together. The source fixes the order within one
    settlement; between settlements it is the order in which the Runs end.
   */
  lemma {:induction false} OrderFreeExactly(b: Book, key: TurnKey, kind: Kind, runs: seq<TurnRun>)
    requires Sound(b) && Distinct(runs) && Holds(b, key, kind) && SpendRuns(b, key, runs).Passed?
    ensures (forall other | multiset(other) == multiset(runs) :: SameLedger(b, key, kind, runs, other)) <==>
              Fitting(b, key, kind, runs, Room(b, key, kind)) <= Room(b, key, kind)
  {
    hide Sound, Distinct, Weight, Served, Room, Fitting, SpendRuns, SameLedger, ClaimOf;
    if Fitting(b, key, kind, runs, Room(b, key, kind)) <= Room(b, key, kind) {
      forall other | multiset(other) == multiset(runs)
        ensures SameLedger(b, key, kind, runs, other)
      {
        FittingOrder(b, key, kind, runs, other);
      }
    } else {
      var i := SomeoneGoesWithout(b, key, kind, runs);
      ComesFirst(b, key, kind, runs, i);
    }
  }

  lemma {:induction false} FittingOrder(b: Book, key: TurnKey, kind: Kind, runs: seq<TurnRun>, other: seq<TurnRun>)
    requires Sound(b) && Distinct(runs) && SpendRuns(b, key, runs).Passed? && multiset(other) == multiset(runs)
    requires Fitting(b, key, kind, runs, Room(b, key, kind)) <= Room(b, key, kind)
    ensures SameLedger(b, key, kind, runs, other)
  {
    hide Sound, Distinct, Served, Room, Fitting, SpendRuns, ClaimOf, Paid;
    var room := Room(b, key, kind);
    PermutationPasses(b, key, runs, other);
    FittingPermutes(b, key, kind, runs, other, room);
    SameMembers(runs, other);
    forall id
      ensures Paid(SpendRuns(b, key, runs).book.spend, key, kind, id)
              <==> Paid(SpendRuns(b, key, other).book.spend, key, kind, id)
    {
      RunsArePaid(b, key, kind, runs, id);
      RunsArePaid(b, key, kind, other, id);
      FittingAreServed(b, key, kind, runs, room, room, id);
      FittingAreServed(b, key, kind, other, room, room, id);
      assert Claimant(b, key, kind, runs, id, room) <==> Claimant(b, key, kind, other, id, room);
    }
  }

  lemma {:induction false} ComesFirst(b: Book, key: TurnKey, kind: Kind, runs: seq<TurnRun>, i: nat)
    requires Sound(b) && Distinct(runs) && SpendRuns(b, key, runs).Passed? && i < |runs|
    requires Weight(b, key, kind, runs[i], Room(b, key, kind)) > 0
    requires runs[i].id !in Served(b, key, kind, runs, Room(b, key, kind))
    ensures multiset([runs[i]] + (runs[..i] + runs[i + 1..])) == multiset(runs)
    ensures !SameLedger(b, key, kind, runs, [runs[i]] + (runs[..i] + runs[i + 1..]))
  {
    hide Sound, Distinct, Served, Room, SpendRuns, ClaimOf, Paid;
    var room, rest := Room(b, key, kind), runs[..i] + runs[i + 1..];
    WithoutOne(runs, i);
    assert multiset([runs[i]] + rest) == multiset{runs[i]} + multiset(rest);
    PermutationPasses(b, key, runs, [runs[i]] + rest);
    FirstIsServed(b, key, kind, runs[i], rest, room);
    ClaimIsUnpaid(b, key, kind, runs[i]);
    RunsArePaid(b, key, kind, runs, runs[i].id);
    RunsArePaid(b, key, kind, [runs[i]] + rest, runs[i].id);
  }

  // ----- settlements at different times -----

  /** The same Runs while only some of them have ended. */
  function Early(runs: seq<TurnRun>, ended: set<string>): (r: seq<TurnRun>)
    ensures |r| == |runs|
  {
    seq(|runs|, i requires 0 <= i < |runs| => if runs[i].id in ended then runs[i] else TurnRun(runs[i].id, Going))
  }

  function Those(runs: seq<TurnRun>, ended: set<string>, inside: bool): seq<TurnRun> {
    if runs == [] then []
    else (if (runs[0].id in ended) == inside then [runs[0]] else []) + Those(runs[1..], ended, inside)
  }

  /** Those that have ended by then, followed by the others. */
  function ByEnd(runs: seq<TurnRun>, ended: set<string>): seq<TurnRun> {
    Those(runs, ended, true) + Those(runs, ended, false)
  }

  function Taken(b: Book, key: TurnKey, kind: Kind, runs: seq<TurnRun>, room: int): nat
    decreases |runs|
  {
    if runs == [] then 0
    else
      var claim := ClaimOf(b, key, kind, runs[0]);
      if claim.Some? && claim.value <= room then
        claim.value + Taken(b, key, kind, runs[1..], room - claim.value)
      else Taken(b, key, kind, runs[1..], room)
  }

  lemma {:induction false} SameTaken(b: Book, b': Book, key: TurnKey, kind: Kind, runs: seq<TurnRun>, room: int)
    requires forall r | r in runs :: ClaimOf(b', key, kind, r) == ClaimOf(b, key, kind, r)
    ensures Taken(b', key, kind, runs, room) == Taken(b, key, kind, runs, room)
    decreases |runs|
  {
    hide ClaimOf;
    if runs != [] {
      assert runs[0] in runs && forall r :: r in runs[1..] ==> r in runs;
      var claim := ClaimOf(b, key, kind, runs[0]);
      SameTaken(b, b', key, kind, runs[1..], if claim.Some? then room - claim.value else room);
      SameTaken(b, b', key, kind, runs[1..], room);
    }
  }

  lemma {:induction false} RoomAfter(b: Book, key: TurnKey, kind: Kind, runs: seq<TurnRun>)
    requires Sound(b) && Distinct(runs) && SpendRuns(b, key, runs).Passed?
    ensures Room(SpendRuns(b, key, runs).book, key, kind) ==
            Room(b, key, kind) - Taken(b, key, kind, runs, Room(b, key, kind))
    decreases |runs|
  {
    hide Sound, Distinct, Paid, Room, ClaimOf, AfterFirst;
    if runs == [] {
      NoRuns(b, key);
    } else {
      var next := AfterFirst(b, key, runs[0]);
      FirstSettled(b, key, kind, runs);
      SameTaken(b, next, key, kind, runs[1..], Room(next, key, kind));
      RoomAfter(next, key, kind, runs[1..]);
      hide SpendRuns;
    }
  }

  /** One list of Runs behind another. */
  lemma {:induction false} ServedInTurn(b: Book, key: TurnKey, kind: Kind, runs: seq<TurnRun>, more: seq<TurnRun>,
      room: int)
    ensures Served(b, key, kind, runs + more, room) ==
            Served(b, key, kind, runs, room)
            + Served(b, key, kind, more, room - Taken(b, key, kind, runs, room))
    decreases |runs|
  {
    hide ClaimOf;
    if runs == [] {
      assert runs + more == more;
    } else {
      var claim := ClaimOf(b, key, kind, runs[0]);
      assert (runs + more)[0] == runs[0] && (runs + more)[1..] == runs[1..] + more;
      ServedInTurn(b, key, kind, runs[1..], more,
        if claim.Some? && claim.value <= room then room - claim.value else room);
    }
  }

  /** Runs without a claim may be left out. */
  lemma {:induction false} OnlyClaimsCount(b: Book, key: TurnKey, kind: Kind, runs: seq<TurnRun>, ended: set<string>,
      inside: bool, room: int)
    requires forall r | r in runs && (r.id in ended) != inside :: ClaimOf(b, key, kind, r).None?
    ensures Served(b, key, kind, runs, room) == Served(b, key, kind, Those(runs, ended, inside), room)
    ensures Taken(b, key, kind, runs, room) == Taken(b, key, kind, Those(runs, ended, inside), room)
    decreases |runs|
  {
    hide ClaimOf;
    if runs != [] {
      assert runs[0] in runs && forall r :: r in runs[1..] ==> r in runs;
      var claim := ClaimOf(b, key, kind, runs[0]);
      OnlyClaimsCount(b, key, kind, runs[1..], ended, inside,
        if claim.Some? && claim.value <= room then room - claim.value else room);
      if (runs[0].id in ended) == inside {
        assert Those(runs, ended, inside)[0] == runs[0];
        assert Those(runs, ended, inside)[1..] == Those(runs[1..], ended, inside);
      } else {
        assert Those(runs, ended, inside) == Those(runs[1..], ended, inside);
      }
    }
  }

  lemma {:induction false} EarlyOnes(runs: seq<TurnRun>, ended: set<string>)
    ensures Those(Early(runs, ended), ended, true) == Those(runs, ended, true)
    ensures Distinct(runs) ==> Distinct(Early(runs, ended))
    ensures forall r | r in Early(runs, ended) :: if r.id in ended then r in runs else r.evidence.Going?
    decreases |runs|
  {
    if runs != [] {
      assert Early(runs, ended)[1..] == Early(runs[1..], ended);
      EarlyOnes(runs[1..], ended);
    }
  }

  lemma {:induction false} ThoseMembers(runs: seq<TurnRun>, ended: set<string>, inside: bool)
    ensures forall r :: r in Those(runs, ended, inside) <==> r in runs && (r.id in ended) == inside
  {
    if runs != [] {
      assert runs == [runs[0]] + runs[1..];
      ThoseMembers(runs[1..], ended, inside);
    }
  }

  lemma {:induction false} ByEndPermutes(runs: seq<TurnRun>, ended: set<string>)
    ensures multiset(ByEnd(runs, ended)) == multiset(runs)
  {
    if runs != [] {
      assert runs == [runs[0]] + runs[1..];
      ByEndPermutes(runs[1..], ended);
    }
  }

  /**
    A settlement while only some of the Runs had ended, and another one when all
    had, pay the same Runs as a single one over the early ones first.
   */
  lemma {:induction false} EarlySettlementsGoFirst(b: Book, key: TurnKey, kind: Kind, runs: seq<TurnRun>,
      ended: set<string>, id: string)
    requires Sound(b) && Distinct(runs) && SpendRuns(b, key, runs).Passed?
    requires forall r | r in runs :: r.evidence.Frozen?
    ensures multiset(ByEnd(runs, ended)) == multiset(runs)
    ensures SpendRuns(b, key, Early(runs, ended)).Passed?
    ensures var first := SpendRuns(b, key, Early(runs, ended)).book;
            && SpendRuns(first, key, runs).Passed? && SpendRuns(b, key, ByEnd(runs, ended)).Passed?
            && (Paid(SpendRuns(first, key, runs).book.spend, key, kind, id)
                <==> Paid(SpendRuns(b, key, ByEnd(runs, ended)).book.spend, key, kind, id))
  {
    hide Sound, Distinct, Served, Taken, Room, SpendRuns, ClaimOf, Paid, AllRecorded, Early, Those, Stops;
    ByEndPermutes(runs, ended);
    PermutationPasses(b, key, runs, ByEnd(runs, ended));
    EarlyOnes(runs, ended);
    EarlyPasses(b, key, runs, ended);
    var first, room := SpendRuns(b, key, Early(runs, ended)).book, Room(b, key, kind);
    var left := Room(first, key, kind);
    EarlyClaims(b, first, key, kind, runs, ended);
    RunsArePaid(b, key, kind, Early(runs, ended), id);
    RunsArePaid(first, key, kind, runs, id);
    RunsArePaid(b, key, kind, ByEnd(runs, ended), id);
    RoomAfter(b, key, kind, Early(runs, ended));
    OnlyClaimsCount(b, key, kind, Early(runs, ended), ended, true, room);
    OnlyClaimsCount(first, key, kind, runs, ended, false, left);
    ThoseMembers(runs, ended, false);
    SameClaims(b, first, key, kind, Those(runs, ended, false), left);
    ServedInTurn(b, key, kind, Those(runs, ended, true), Those(runs, ended, false), room);
  }

  lemma {:induction false} EarlyPasses(b: Book, key: TurnKey, runs: seq<TurnRun>, ended: set<string>)
    requires Sound(b) && Distinct(runs) && SpendRuns(b, key, runs).Passed?
    ensures SpendRuns(b, key, Early(runs, ended)).Passed? && Sound(SpendRuns(b, key, Early(runs, ended)).book)
    ensures AllRecorded(b, SpendRuns(b, key, Early(runs, ended)).book, key, Early(runs, ended))
    ensures SpendRuns(b, key, Early(runs, ended)).book.rows == b.rows
    ensures SpendRuns(SpendRuns(b, key, Early(runs, ended)).book, key, runs).Passed?
  {
    hide Sound, Distinct, SpendRuns, Finished, Stops, Early;
    EarlyOnes(runs, ended);
    RunsPass(b, key, runs);
    forall r | r in Early(runs, ended)
      ensures !Stops(b, key, r)
    {
      FirstRun(b, key, r);
    }
    RunsPass(b, key, Early(runs, ended));
    var first := SpendRuns(b, key, Early(runs, ended)).book;
    AddsRows(b, first, key);
    RunsPass(first, key, runs);
    forall r | r in runs
      ensures !Stops(first, key, r)
    {
      StopsNoMore(b, first, key, Early(runs, ended), r);
    }
  }

  lemma {:induction false} StopsNoMore(b: Book, b': Book, key: TurnKey, runs: seq<TurnRun>, r: TurnRun)
    requires AllRecorded(b, b', key, runs) && b'.rows == b.rows && !Stops(b, key, r)
    ensures !Stops(b', key, r)
  {
    hide HasSpend;
    forall kind
      ensures Due(b', key, kind, r.id) ==> Due(b, key, kind, r.id)
    {
    }
  }

  /** Afterwards the early Runs have no claim left, and the others have theirs. */
  lemma {:induction false} EarlyClaims(b: Book, b': Book, key: TurnKey, kind: Kind, runs: seq<TurnRun>,
      ended: set<string>)
    requires Distinct(runs) && AllRecorded(b, b', key, Early(runs, ended)) && b'.rows == b.rows
    requires forall r | r in runs :: r.evidence.Frozen?
    ensures forall r | r in Early(runs, ended) && r.id !in ended :: ClaimOf(b, key, kind, r).None?
    ensures forall r | r in runs && r.id in ended :: ClaimOf(b', key, kind, r).None?
    ensures forall r | r in runs && r.id !in ended :: ClaimOf(b', key, kind, r) == ClaimOf(b, key, kind, r)
  {
    hide HasSpend;
    EarlyOnes(runs, ended);
    forall r | r in runs
      ensures r.id in ended ==> ClaimOf(b', key, kind, r).None?
      ensures r.id !in ended ==> ClaimOf(b', key, kind, r) == ClaimOf(b, key, kind, r)
    {
      var i :| 0 <= i < |runs| && runs[i] == r;
      assert r.id in ended ==> Early(runs, ended)[i] == r && r in Early(runs, ended);
    }
  }

  /** Two Runs of six tokens each under a reservation of ten: whichever is settled first is paid. */
  lemma {:induction false} OrderExample(b: Book, key: TurnKey, a: TurnRun, c: TurnRun)
    requires b == Book([key], map[(key, Output) := Row(Reserved, 10, 0, 0)], [])
    requires a == TurnRun("a", Frozen(Facts(map[Output := 6], false)))
    requires c == TurnRun("c", Frozen(Facts(map[Output := 6], false)))
    ensures Sound(b) && Distinct([a, c]) && SpendRuns(b, key, [a, c]).Passed?
    ensures ByEnd([a, c], {"c"}) == [c, a] && !SameLedger(b, key, Output, [a, c], [c, a])
  {
    var runs := [a, c];
    ExampleIsOrdered(a, c);
    ExamplePasses(b, key, a, c);
    ExampleServes(b, key, a, c);
    assert runs[..1] + runs[1 + 1..] == [a] && [runs[1]] + [a] == [c, a];
    hide ByEnd, Distinct, Sound, SpendRuns, Served, SameLedger, Room, Weight;
    ComesFirst(b, key, Output, runs, 1);
  }

  lemma {:induction false} ExampleIsOrdered(a: TurnRun, c: TurnRun)
    requires a.id == "a" && c.id == "c"
    ensures ByEnd([a, c], {"c"}) == [c, a]
  {
    assert "a"[0] != "c"[0];
    assert [a, c][1..] == [c] && [c][1..] == [];
    forall inside
      ensures Those([c], {"c"}, inside) == if inside then [c] else []
    {
      assert Those([c], {"c"}, inside) == (if inside then [c] else []) + Those([c][1..], {"c"}, inside);
    }
    forall inside
      ensures Those([a, c], {"c"}, inside) == if inside then [c] else [a]
    {
      assert Those([a, c], {"c"}, inside) == (if inside then [] else [a]) + Those([c], {"c"}, inside);
    }
  }

  lemma {:induction false} ExamplePasses(b: Book, key: TurnKey, a: TurnRun, c: TurnRun)
    requires b == Book([key], map[(key, Output) := Row(Reserved, 10, 0, 0)], [])
    requires a.id == "a" && c.id == "c" && a.evidence.Frozen? && c.evidence.Frozen?
    ensures Sound(b) && Distinct([a, c]) && SpendRuns(b, key, [a, c]).Passed?
  {
    assert "a"[0] != "c"[0];
    forall r | r in [a, c]
      ensures !Stops(b, key, r)
    {
    }
    hide Stops, SpendRuns;
    RunsPass(b, key, [a, c]);
  }

  lemma {:induction false} ExampleServes(b: Book, key: TurnKey, a: TurnRun, c: TurnRun)
    requires b == Book([key], map[(key, Output) := Row(Reserved, 10, 0, 0)], [])
    requires a == TurnRun("a", Frozen(Facts(map[Output := 6], false)))
    requires c == TurnRun("c", Frozen(Facts(map[Output := 6], false)))
    ensures Room(b, key, Output) == 10 && Weight(b, key, Output, c, 10) == 6
    ensures "c" !in Served(b, key, Output, [a, c], 10)
  {
    assert "a"[0] != "c"[0];
    assert ClaimOf(b, key, Output, a) == ClaimOf(b, key, Output, c) == Some(6);
    assert [a, c][1..] == [c] && [c][1..] == [];
    assert Served(b, key, Output, [c], 4) == {};
    assert Served(b, key, Output, [a, c], 10) == {"a"};
  }
}
