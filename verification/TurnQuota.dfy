/**
  The usage reservations of a governed turn: frozen with its admission, and
  closed when the turn's Plan is rejected for good
  (internal/application/quota.go, internal/application/governance_plan_execution.go).
 */
module TurnQuota {
  import opened Wrappers
  import opened CanonicalUsage

  datatype TurnKey = TurnKey(todo: string, number: nat)

  datatype Status = Reserved | Committed | Released

  datatype Row = Row(status: Status, reserved: nat, committed: nat, released: nat)

  /** One Run's spend of one kind; an unresolved entry carries no amount. */
  datatype Spend = Spend(key: TurnKey, kind: Kind, run: string, resolved: bool, amount: nat)

  /** Turns in the order they were admitted, their reservations, and the spend ledger. */
  datatype Book = Book(turns: seq<TurnKey>, rows: map<(TurnKey, Kind), Row>, spend: seq<Spend>)

  datatype Policy = Policy(kind: Kind, limit: nat)

  /** A source Run's frozen usage: the resolved amounts, and whether a price was fixed. */
  datatype Facts = Facts(amounts: map<Kind, nat>, priced: bool)

  datatype QuotaError = SourceNotTerminal | UsageUnavailable | CostNotProvable | ExceedsReservation

  const USAGE_KINDS := [InputTotal, InputUncached, CacheRead, CacheWrite, Output, Cost]

  // ----- what has been taken of a policy -----

  function SpentIn(spend: seq<Spend>, key: TurnKey, kind: Kind): nat {
    if spend == [] then 0
    else
      var e := spend[|spend| - 1];
      SpentIn(spend[..|spend| - 1], key, kind) + (if e.key == key && e.kind == kind && e.resolved then e.amount else 0)
  }

  function Spent(spend: seq<Spend>, kind: Kind): nat {
    if spend == [] then 0
    else
      var e := spend[|spend| - 1];
      Spent(spend[..|spend| - 1], kind) + (if e.kind == kind && e.resolved then e.amount else 0)
  }

  function ActiveIn(rows: map<(TurnKey, Kind), Row>, key: TurnKey, kind: Kind): nat {
    if (key, kind) in rows && rows[(key, kind)].status == Reserved then rows[(key, kind)].reserved else 0
  }

  function Active(turns: seq<TurnKey>, rows: map<(TurnKey, Kind), Row>, kind: Kind): nat {
    if turns == [] then 0
    else Active(turns[..|turns| - 1], rows, kind) + ActiveIn(rows, turns[|turns| - 1], kind)
  }

  /** Committed spend plus what active reservations hold. */
  function Used(b: Book, kind: Kind): nat {
    Spent(b.spend, kind) + Active(b.turns, b.rows, kind)
  }

  // ----- admission -----

  function ReserveKind(b: Book, key: TurnKey, p: Policy): Book {
    if (key, p.kind) in b.rows then b
    else
      var remaining := if p.limit > Used(b, p.kind) then p.limit - Used(b, p.kind) else 0;
      b.(rows := b.rows[(key, p.kind) := Row(Reserved, remaining, 0, 0)])
  }

  function ReserveKinds(b: Book, key: TurnKey, policies: seq<Policy>): Book
    decreases |policies|
  {
    if policies == [] then b else ReserveKinds(ReserveKind(b, key, policies[0]), key, policies[1..])
  }

  function Opened(b: Book, key: TurnKey): Book {
    if key in b.turns then b else b.(turns := b.turns + [key])
  }

  function ReserveTurn(b: Book, key: TurnKey, policies: seq<Policy>): Book {
    ReserveKinds(Opened(b, key), key, policies)
  }

  // ----- rejection -----

  predicate HasSpend(spend: seq<Spend>, key: TurnKey, kind: Kind, run: string) {
    exists i :: 0 <= i < |spend| && spend[i].key == key && spend[i].kind == kind && spend[i].run == run
  }

  /** A resolved amount is spent only if it still fits the reservation; otherwise the gap is recorded. */
  function EntryFor(b: Book, key: TurnKey, kind: Kind, run: string, facts: Facts): Spend
    requires (key, kind) in b.rows
  {
    if kind in facts.amounts && facts.amounts[kind] <= b.rows[(key, kind)].reserved - SpentIn(b.spend, key, kind)
    then Spend(key, kind, run, true, facts.amounts[kind])
    else Spend(key, kind, run, false, 0)
  }

  function SpendKinds(b: Book, key: TurnKey, run: string, facts: Facts, kinds: seq<Kind>): Result<Book, QuotaError>
    decreases |kinds|
  {
    if kinds == [] then Success(b)
    else if (key, kinds[0]) !in b.rows || b.rows[(key, kinds[0])].status != Reserved
         || HasSpend(b.spend, key, kinds[0], run) then SpendKinds(b, key, run, facts, kinds[1..])
    else if kinds[0] == Cost && !facts.priced then Failure(CostNotProvable)
    else
      SpendKinds(b.(spend := b.spend + [EntryFor(b, key, kinds[0], run, facts)]), key, run, facts, kinds[1..])
  }

  function Closed(row: Row, committed: nat): Row
    requires committed <= row.reserved
  {
    Row(if committed > 0 then Committed else Released, row.reserved, committed, row.reserved - committed)
  }

  function CloseKinds(b: Book, key: TurnKey, kinds: seq<Kind>): Result<Book, QuotaError>
    decreases |kinds|
  {
    if kinds == [] then Success(b)
    else if (key, kinds[0]) !in b.rows || b.rows[(key, kinds[0])].status != Reserved then
      CloseKinds(b, key, kinds[1..])
    else
      var row, committed := b.rows[(key, kinds[0])], SpentIn(b.spend, key, kinds[0]);
      if committed > row.reserved then Failure(ExceedsReservation)
      else CloseKinds(b.(rows := b.rows[(key, kinds[0]) := Closed(row, committed)]), key, kinds[1..])
  }

  predicate AnyRow(b: Book, key: TurnKey) {
    exists i :: 0 <= i < |USAGE_KINDS| && (key, USAGE_KINDS[i]) in b.rows
  }

  /** The compensation of a rejected turn; without reservations there is nothing to prove. */
  function Abort(b: Book, key: TurnKey, run: string, terminal: bool, facts: Option<Facts>): Result<Book, QuotaError> {
    if !AnyRow(b, key) then Success(b)
    else if !terminal then Failure(SourceNotTerminal)
    else if facts.None? then Failure(UsageUnavailable)
    else
      match SpendKinds(b, key, run, facts.value, USAGE_KINDS)
      case Failure(e) => Failure(e)
      case Success(spent) => CloseKinds(spent, key, USAGE_KINDS)
  }

  class QuotaBook {
    var turns: seq<TurnKey>
    var rows: map<(TurnKey, Kind), Row>
    var spend: seq<Spend>

    ghost function State(): Book
      reads this
    {
      Book(turns, rows, spend)
    }

    method EnsureUsageReservations(key: TurnKey, policies: seq<Policy>)
      modifies this
      ensures State() == ReserveTurn(old(State()), key, policies)
    {
      if key !in turns { turns := turns + [key]; }
      ghost var start := State();
      for i := 0 to |policies|
        invariant ReserveKinds(State(), key, policies[i..]) == ReserveKinds(start, key, policies)
      {
        var p := policies[i];
        assert policies[i..][0] == p && policies[i..][1..] == policies[i + 1..];
        if (key, p.kind) !in rows {
          var used := Spent(spend, p.kind) + Active(turns, rows, p.kind);
          var remaining := p.limit - used;
          if remaining < 0 { remaining := 0; }
          rows := rows[(key, p.kind) := Row(Reserved, remaining, 0, 0)];
        }
      }
    }

    /** Every active reservation of the turn is closed with what was spent under it, or none is. */
    method CloseReservations(key: TurnKey) returns (ok: bool)
      modifies this`rows
      ensures ok <==> CloseKinds(old(State()), key, USAGE_KINDS).Success?
      ensures !ok ==> CloseKinds(old(State()), key, USAGE_KINDS) == Failure(ExceedsReservation)
      ensures State() == if ok then CloseKinds(old(State()), key, USAGE_KINDS).value else old(State())
    {
      var before := rows;
      ghost var start := State();
      for i := 0 to |USAGE_KINDS|
        invariant CloseKinds(State(), key, USAGE_KINDS[i..]) == CloseKinds(start, key, USAGE_KINDS)
      {
        var kind := USAGE_KINDS[i];
        assert USAGE_KINDS[i..][0] == kind && USAGE_KINDS[i..][1..] == USAGE_KINDS[i + 1..];
        if (key, kind) in rows && rows[(key, kind)].status == Reserved {
          var row, committed := rows[(key, kind)], SpentIn(spend, key, kind);
          if committed > row.reserved {
            rows := before;
            return false;
          }
          rows := rows[(key, kind) := Closed(row, committed)];
        }
      }
      return true;
    }

    /** Two passes in one transaction: every spend first, then every reservation is closed. */
    method SettlePlanAbortQuota(key: TurnKey, run: string, terminal: bool, facts: Option<Facts>)
      returns (error: Option<QuotaError>)
      modifies this
      ensures error == match Abort(old(State()), key, run, terminal, facts) {
                         case Success(_) => None
                         case Failure(e) => Some(e)
                       }
      ensures State() == if error.None? then Abort(old(State()), key, run, terminal, facts).value else old(State())
    {
      hide CloseKinds;
      ghost var start := State();
      if !AnyRow(Book(turns, rows, spend), key) {
        return None;
      }
      if !terminal {
        return Some(SourceNotTerminal);
      }
      if facts.None? {
        return Some(UsageUnavailable);
      }
      var before := spend;
      for i := 0 to |USAGE_KINDS|
        invariant turns == start.turns && rows == start.rows
        invariant SpendKinds(State(), key, run, facts.value, USAGE_KINDS[i..])
                  == SpendKinds(start, key, run, facts.value, USAGE_KINDS)
      {
        var kind := USAGE_KINDS[i];
        assert USAGE_KINDS[i..][0] == kind && USAGE_KINDS[i..][1..] == USAGE_KINDS[i + 1..];
        if (key, kind) in rows && rows[(key, kind)].status == Reserved && !HasSpend(spend, key, kind, run) {
          if kind == Cost && !facts.value.priced {
            spend := before;
            return Some(CostNotProvable);
          }
          spend := spend + [EntryFor(Book(turns, rows, spend), key, kind, run, facts.value)];
        }
      }
      var closed := CloseReservations(key);
      if !closed {
        spend := before;
        return Some(ExceedsReservation);
      }
      return None;
    }
  }

  // ----- invariants of the book -----

  /** Rows belong to admitted turns, each admitted once, and closed rows balance. */
  predicate Balanced(row: Row) {
    if row.status == Reserved then row.committed == 0 && row.released == 0
    else row.committed + row.released == row.reserved && (row.status == Committed <==> row.committed > 0)
  }

  predicate RowSound(b: Book, k: (TurnKey, Kind))
    requires k in b.rows
  {
    k.0 in b.turns && Balanced(b.rows[k]) &&
    (b.rows[k].status == Reserved ==> SpentIn(b.spend, k.0, k.1) <= b.rows[k].reserved)
  }

  ghost predicate Sound(b: Book) {
    && (forall i, j | 0 <= i < j < |b.turns| :: b.turns[i] != b.turns[j])
    && (forall k | k in b.rows :: RowSound(b, k))
    && (forall e | e in b.spend :: (e.key, e.kind) in b.rows)
  }

  lemma {:induction false} NothingSpentWithoutRow(spend: seq<Spend>, key: TurnKey, kind: Kind)
    requires forall e | e in spend :: e.key != key || e.kind != kind
    ensures SpentIn(spend, key, kind) == 0
  {
    if spend != [] {
      assert spend[|spend| - 1] in spend;
      NothingSpentWithoutRow(spend[..|spend| - 1], key, kind);
    }
  }

  lemma {:induction false} ActiveElsewhere(
      turns: seq<TurnKey>, rows: map<(TurnKey, Kind), Row>, rows': map<(TurnKey, Kind), Row>, key: TurnKey, kind: Kind)
    requires forall k | k != key :: ActiveIn(rows', k, kind) == ActiveIn(rows, k, kind)
    requires forall i, j | 0 <= i < j < |turns| :: turns[i] != turns[j]
    ensures Active(turns, rows', kind) ==
            Active(turns, rows, kind) + (if key in turns then ActiveIn(rows', key, kind) - ActiveIn(rows, key, kind)
              else 0)
  {
    if turns == [] {
    } else {
      var rest, last := turns[..|turns| - 1], turns[|turns| - 1];
      ActiveElsewhere(rest, rows, rows', key, kind);
      assert key in turns <==> key in rest || key == last by { assert turns == rest + [last]; }
      assert last !in rest;
    }
  }

  function Max(a: int, b: int): int {
    if a < b then b else a
  }

  /** Reserving never takes a kind beyond its limit, unless it was beyond it already. */
  lemma {:induction false} ReserveKindBounded(b: Book, key: TurnKey, p: Policy, kind: Kind)
    requires Sound(b) && key in b.turns
    ensures Sound(ReserveKind(b, key, p)) && ReserveKind(b, key, p).turns == b.turns
    ensures Used(ReserveKind(b, key, p), kind) <= if kind == p.kind then Max(Used(b, kind), p.limit) else Used(b, kind)
    ensures (key, p.kind) in ReserveKind(b, key, p).rows
    ensures forall k | k in b.rows :: k in ReserveKind(b, key, p).rows && ReserveKind(b, key, p).rows[k] == b.rows[k]
  {
    hide Active, Spent;
    var after := ReserveKind(b, key, p);
    if (key, p.kind) !in b.rows {
      NothingSpentWithoutRow(b.spend, key, p.kind);
      ActiveElsewhere(b.turns, b.rows, after.rows, key, kind);
    }
  }

  /** A limit that covers every policy of a kind. */
  predicate Within(policies: seq<Policy>, kind: Kind, limit: nat) {
    forall p | p in policies && p.kind == kind :: p.limit <= limit
  }

  /** The highest limit a policy list sets for a kind. */
  function LimitOf(policies: seq<Policy>, kind: Kind): nat {
    if policies == [] then 0
    else
      var rest := LimitOf(policies[1..], kind);
      if policies[0].kind == kind && policies[0].limit > rest then policies[0].limit else rest
  }

  lemma {:induction false} LargestLimit(policies: seq<Policy>, kind: Kind)
    ensures Within(policies, kind, LimitOf(policies, kind))
  {
    if policies != [] {
      LargestLimit(policies[1..], kind);
      assert policies == [policies[0]] + policies[1..];
    }
  }

  lemma {:induction false} ReserveKindsBounded(b: Book, key: TurnKey, policies: seq<Policy>, kind: Kind, limit: nat)
    requires Sound(b) && key in b.turns && Within(policies, kind, limit)
    ensures Sound(ReserveKinds(b, key, policies)) && ReserveKinds(b, key, policies).turns == b.turns
    ensures Used(ReserveKinds(b, key, policies), kind) <= Max(Used(b, kind), limit)
    ensures forall p | p in policies :: (key, p.kind) in ReserveKinds(b, key, policies).rows
    ensures forall k | k in b.rows ::
              k in ReserveKinds(b, key, policies).rows && ReserveKinds(b, key, policies).rows[k] == b.rows[k]
    decreases |policies|
  {
    hide Sound, Used;
    if policies != [] {
      var next := ReserveKind(b, key, policies[0]);
      assert policies[0] in policies;
      ReserveKindBounded(b, key, policies[0], kind);
      ReserveKindsBounded(next, key, policies[1..], kind, limit);
      assert policies == [policies[0]] + policies[1..];
    }
  }

  lemma {:induction false} ActiveAppends(turns: seq<TurnKey>, rows: map<(TurnKey, Kind), Row>, key: TurnKey, kind: Kind)
    ensures Active(turns + [key], rows, kind) == Active(turns, rows, kind) + ActiveIn(rows, key, kind)
  {
    assert (turns + [key])[..|turns|] == turns;
  }

  lemma {:induction false} OpenedIsSound(b: Book, key: TurnKey, kind: Kind)
    requires Sound(b)
    ensures Sound(Opened(b, key)) && key in Opened(b, key).turns && Opened(b, key).rows == b.rows
    ensures Used(Opened(b, key), kind) == Used(b, kind)
  {
    hide Balanced, SpentIn, Spent, Active;
    ActiveAppends(b.turns, b.rows, key, kind);
    assert key !in b.turns ==> (key, kind) !in b.rows;
    var next := Opened(b, key);
    forall k | k in next.rows
      ensures RowSound(next, k)
    {
      assert RowSound(b, k);
    }
  }

  /**
    Across turns a kind is never promised beyond its policy: admitting a turn,
    again and again, keeps committed spend plus active reservations within the
    limit it was within before. Frozen rows are left as they were.
   */
  lemma {:induction false} AdmissionNeverOversubscribes(b: Book, key: TurnKey, policies: seq<Policy>, kind: Kind,
          limit: nat)
    requires Sound(b) && Within(policies, kind, limit)
    ensures Sound(ReserveTurn(b, key, policies))
    ensures Used(ReserveTurn(b, key, policies), kind) <= Max(Used(b, kind), limit)
    ensures forall k | k in b.rows ::
              k in ReserveTurn(b, key, policies).rows && ReserveTurn(b, key, policies).rows[k] == b.rows[k]
    ensures ReserveTurn(ReserveTurn(b, key, policies), key, policies) == ReserveTurn(b, key, policies)
  {
    hide Sound, Used, Within;
    OpenedIsSound(b, key, kind);
    ReserveKindsBounded(Opened(b, key), key, policies, kind, limit);
    ReserveAgain(ReserveTurn(b, key, policies), key, policies);
  }

  lemma {:induction false} ReserveAgain(b: Book, key: TurnKey, policies: seq<Policy>)
    requires forall p | p in policies :: (key, p.kind) in b.rows
    ensures ReserveKinds(b, key, policies) == b
    decreases |policies|
  {
    if policies != [] {
      assert policies[0] in policies;
      ReserveAgain(b, key, policies[1..]);
    }
  }

  /** Admission adds reservations of its own turn only, one for every policy. */
  lemma {:induction false} ReserveAddsOwn(b: Book, key: TurnKey, policies: seq<Policy>)
    ensures forall k | k in ReserveKinds(b, key, policies).rows :: k in b.rows || k.0 == key
    ensures forall k | k in b.rows :: k in ReserveKinds(b, key, policies).rows
              && ReserveKinds(b, key, policies).rows[k] == b.rows[k]
    ensures ReserveKinds(b, key, policies).turns == b.turns
    ensures forall p | p in policies :: (key, p.kind) in ReserveKinds(b, key, policies).rows
    decreases |policies|
  {
    hide Used;
    if policies != [] {
      ReserveAddsOwn(ReserveKind(b, key, policies[0]), key, policies[1..]);
      assert policies == [policies[0]] + policies[1..];
    }
  }

  // ----- what an aborted turn ends with -----

  lemma {:induction false} SpendAppends(spend: seq<Spend>, e: Spend, key: TurnKey, kind: Kind)
    ensures SpentIn(spend + [e], key, kind) ==
            SpentIn(spend, key, kind) + (if e.key == key && e.kind == kind && e.resolved then e.amount else 0)
    ensures Spent(spend + [e], kind) == Spent(spend, kind) + (if e.kind == kind && e.resolved then e.amount else 0)
  {
    assert (spend + [e])[..|spend|] == spend;
  }

  predicate Holds(b: Book, key: TurnKey, kind: Kind) {
    (key, kind) in b.rows && b.rows[(key, kind)].status == Reserved
  }

  /** One entry of the first pass keeps the book sound. */
  lemma {:induction false} EntryKeepsSound(b: Book, key: TurnKey, kind: Kind, run: string, facts: Facts)
    requires Sound(b) && Holds(b, key, kind)
    ensures Sound(b.(spend := b.spend + [EntryFor(b, key, kind, run, facts)]))
    ensures forall k :: SpentBy(b.(spend := b.spend + [EntryFor(b, key, kind, run, facts)]), key, k)
              == SpentBy(b, key, k)
  {
    hide Balanced, Spent, SpentIn;
    var e := EntryFor(b, key, kind, run, facts);
    forall k, m
      ensures SpentIn(b.spend + [e], k, m) ==
              SpentIn(b.spend, k, m) + (if e.key == k && e.kind == m && e.resolved then e.amount else 0)
      ensures Spent(b.spend + [e], m) == Spent(b.spend, m) + (if e.kind == m && e.resolved then e.amount else 0)
    {
      SpendAppends(b.spend, e, k, m);
    }
  }

  /** Spend of a kind outside one turn. */
  function SpentBy(b: Book, key: TurnKey, kind: Kind): int {
    Spent(b.spend, kind) - SpentIn(b.spend, key, kind)
  }

  lemma {:induction false} OnlyHeldIsSpent(b: Book, key: TurnKey, run: string, facts: Facts, kinds: seq<Kind>,
          kind: Kind)
    requires SpendKinds(b, key, run, facts, kinds).Success? && !Holds(b, key, kind)
    ensures SpentIn(SpendKinds(b, key, run, facts, kinds).value.spend, key, kind) == SpentIn(b.spend, key, kind)
    decreases |kinds|
  {
    hide HasSpend, SpentIn;
    if kinds == [] {
    } else if !Holds(b, key, kinds[0]) || HasSpend(b.spend, key, kinds[0], run) {
      OnlyHeldIsSpent(b, key, run, facts, kinds[1..], kind);
    } else {
      var e := EntryFor(b, key, kinds[0], run, facts);
      SpendAppends(b.spend, e, key, kind);
      OnlyHeldIsSpent(b.(spend := b.spend + [e]), key, run, facts, kinds[1..], kind);
    }
  }

  /** The first pass adds spends of this turn only, each within its reservation. */
  lemma {:induction false} SpendPass(b: Book, key: TurnKey, run: string, facts: Facts, kinds: seq<Kind>)
    requires Sound(b)
    ensures SpendKinds(b, key, run, facts, kinds).Success? ==>
              && Sound(SpendKinds(b, key, run, facts, kinds).value)
              && SpendKinds(b, key, run, facts, kinds).value.rows == b.rows
              && SpendKinds(b, key, run, facts, kinds).value.turns == b.turns
              && (forall kind ::
                  SpentBy(SpendKinds(b, key, run, facts, kinds).value, key, kind) == SpentBy(b, key, kind))
    ensures SpendKinds(b, key, run, facts, kinds).Failure? <==>
              Cost in kinds && Holds(b, key, Cost) && !HasSpend(b.spend, key, Cost, run) && !facts.priced
    decreases |kinds|
  {
    hide Sound, HasSpend, SpentBy, EntryFor;
    if kinds == [] {
    } else {
      assert kinds == [kinds[0]] + kinds[1..];
      if !Holds(b, key, kinds[0]) || HasSpend(b.spend, key, kinds[0], run) {
        SpendPass(b, key, run, facts, kinds[1..]);
      } else if kinds[0] != Cost || facts.priced {
        var e := EntryFor(b, key, kinds[0], run, facts);
        EntryKeepsSound(b, key, kinds[0], run, facts);
        SpendPass(b.(spend := b.spend + [e]), key, run, facts, kinds[1..]);
        EntryNames(b, key, kinds[0], run, facts);
        HasSpendAppends(b.spend, e, key, Cost, run);
      }
    }
  }

  lemma {:induction false} EntryNames(b: Book, key: TurnKey, kind: Kind, run: string, facts: Facts)
    requires (key, kind) in b.rows
    ensures EntryFor(b, key, kind, run, facts).key == key && EntryFor(b, key, kind, run, facts).kind == kind
    ensures EntryFor(b, key, kind, run, facts).run == run
  {
  }

  lemma {:induction false} HasSpendAppends(spend: seq<Spend>, e: Spend, key: TurnKey, kind: Kind, run: string)
    ensures HasSpend(spend + [e], key, kind, run) <==>
              HasSpend(spend, key, kind, run) || (e.key == key && e.kind == kind && e.run == run)
  {
    var longer := spend + [e];
    if HasSpend(spend, key, kind, run) {
      var i :| 0 <= i < |spend| && spend[i].key == key && spend[i].kind == kind && spend[i].run == run;
      assert longer[i] == spend[i];
    }
    if e.key == key && e.kind == kind && e.run == run { assert longer[|spend|] == e; }
  }

  lemma {:induction false} ClosingKeepsSound(b: Book, key: TurnKey, kind: Kind)
    requires Sound(b) && Holds(b, key, kind)
    ensures SpentIn(b.spend, key, kind) <= b.rows[(key, kind)].reserved
    ensures Sound(b.(rows := b.rows[(key, kind) := Closed(b.rows[(key, kind)], SpentIn(b.spend, key, kind))]))
  {
    hide SpentIn;
    assert RowSound(b, (key, kind));
    var next := b.(rows := b.rows[(key, kind) := Closed(b.rows[(key, kind)], SpentIn(b.spend, key, kind))]);
    forall k | k in next.rows
      ensures RowSound(next, k)
    {
      if k != (key, kind) { assert RowSound(b, k); }
    }
  }

  /** The second pass always succeeds and closes every reservation of the turn. */
  lemma {:induction false} ClosePass(b: Book, key: TurnKey, kinds: seq<Kind>)
    requires Sound(b)
    ensures CloseKinds(b, key, kinds).Success?
    ensures Sound(CloseKinds(b, key, kinds).value)
    ensures CloseKinds(b, key, kinds).value.turns == b.turns && CloseKinds(b, key, kinds).value.spend == b.spend
    ensures CloseKinds(b, key, kinds).value.rows.Keys == b.rows.Keys
    ensures forall k | k in b.rows :: CloseKinds(b, key, kinds).value.rows[k] ==
              if k.0 == key && k.1 in kinds && b.rows[k].status == Reserved
              then Closed(b.rows[k], SpentIn(b.spend, k.0, k.1)) else b.rows[k]
    decreases |kinds|
  {
    hide SpentIn, Balanced;
    if kinds == [] {
    } else {
      assert kinds == [kinds[0]] + kinds[1..];
      if Holds(b, key, kinds[0]) {
        var closed := Closed(b.rows[(key, kinds[0])], SpentIn(b.spend, key, kinds[0]));
        var next := b.(rows := b.rows[(key, kinds[0]) := closed]);
        ClosingKeepsSound(b, key, kinds[0]);
        ClosePass(next, key, kinds[1..]);
      } else {
        ClosePass(b, key, kinds[1..]);
      }
    }
  }

  lemma {:induction false} AllUsageKinds()
    ensures forall k: Kind :: k in USAGE_KINDS
  {
    assert |USAGE_KINDS| == 6;
    assert USAGE_KINDS[0] == InputTotal && USAGE_KINDS[1] == InputUncached && USAGE_KINDS[2] == CacheRead;
    assert USAGE_KINDS[3] == CacheWrite && USAGE_KINDS[4] == Output && USAGE_KINDS[5] == Cost;
    forall k: Kind
      ensures k in USAGE_KINDS
    {
      match k
      case InputTotal =>
      case InputUncached =>
      case CacheRead =>
      case CacheWrite =>
      case Output =>
      case Cost =>
    }
  }

  /**
    The compensation fails only for want of evidence, and then changes nothing;
    otherwise no reservation of the turn stays active, each one satisfies
    committed + released = reserved with committed the recorded spend, every
    other row is untouched, and no kind is used more than before.
   */
  lemma {:induction false} AbortSettles(b: Book, key: TurnKey, run: string, terminal: bool, facts: Option<Facts>)
    requires Sound(b)
    ensures Abort(b, key, run, terminal, facts).Success? <==>
              || !AnyRow(b, key)
              || (&& terminal && facts.Some?
                  && (Holds(b, key, Cost) && !HasSpend(b.spend, key, Cost, run) ==> facts.value.priced))
    ensures Abort(b, key, run, terminal, facts).Success? ==> Settled(b, Abort(b, key, run, terminal, facts).value, key)
  {
    hide Sound, Used, SpentIn, HasSpend, SpendKinds, CloseKinds, SpentBy;
    AllUsageKinds();
    if AnyRow(b, key) && terminal && facts.Some? {
      SpendPass(b, key, run, facts.value, USAGE_KINDS);
      var spent := SpendKinds(b, key, run, facts.value, USAGE_KINDS);
      if spent.Success? {
        ClosePass(spent.value, key, USAGE_KINDS);
        var after := CloseKinds(spent.value, key, USAGE_KINDS).value;
        forall kind
          ensures Used(after, kind) <= Used(b, kind)
        {
          if !Holds(b, key, kind) { OnlyHeldIsSpent(b, key, run, facts.value, USAGE_KINDS, kind); }
          TurnExposure(b, spent.value, after, key, kind);
        }
        forall k | k in b.rows && Holds(b, k.0, k.1)
          ensures SpentIn(after.spend, k.0, k.1) <= b.rows[k].reserved
        {
          ClosingKeepsSound(spent.value, k.0, k.1);
        }
      }
    } else if !AnyRow(b, key) {
      forall k | k in b.rows
        ensures k.0 != key
      {
        RowMeansAny(b, k);
      }
    }
  }

  lemma {:induction false} RowMeansAny(b: Book, k: (TurnKey, Kind))
    requires k in b.rows
    ensures AnyRow(b, k.0)
  {
    AllUsageKinds();
    assert k.1 in USAGE_KINDS && (k.0, k.1) == k;
  }

  predicate ClosedOn(before: Row, after: Row, spent: nat) {
    && after.status != Reserved && after.reserved == before.reserved
    && after.committed == spent && after.committed + after.released == after.reserved
  }

  ghost predicate Settled(b: Book, after: Book, key: TurnKey) {
    && Sound(after) && after.turns == b.turns && after.rows.Keys == b.rows.Keys
    && (forall k | k in b.rows && k.0 != key :: after.rows[k] == b.rows[k])
    && (forall k | k in b.rows && k.0 == key ::
          if b.rows[k].status == Reserved then ClosedOn(b.rows[k], after.rows[k], SpentIn(after.spend, k.0, k.1))
          else after.rows[k] == b.rows[k])
    && (forall kind :: Used(after, kind) <= Used(b, kind))
  }

  /** Closing a reservation gives back at least what was spent under it. */
  lemma {:induction false} TurnExposure(b: Book, spent: Book, after: Book, key: TurnKey, kind: Kind)
    requires Sound(b) && Sound(spent)
    requires spent.rows == b.rows && spent.turns == b.turns && after.turns == b.turns && after.spend == spent.spend
    requires SpentBy(spent, key, kind) == SpentBy(b, key, kind)
    requires after.rows.Keys == b.rows.Keys
    requires forall k | k in b.rows && k.0 != key :: after.rows[k] == b.rows[k]
    requires (key, kind) in b.rows ==> after.rows[(key, kind)].status != Reserved
    requires !Holds(b, key, kind) ==> SpentIn(spent.spend, key, kind) == SpentIn(b.spend, key, kind)
    ensures Used(after, kind) <= Used(b, kind)
  {
    ActiveElsewhere(b.turns, b.rows, after.rows, key, kind);
  }
}
