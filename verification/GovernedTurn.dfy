/**
  A governed turn, from a Run's decision to a committed Plan or a recorded
  rejection, as a sequence of store transactions that any crash may cut short
  (internal/application/governance_plan_execution.go).

  Ids and digests are compared only, so a digest stands for what it digests and
  a turn key for the Plan client key made from it.
 */
module GovernedTurn {
  import opened Wrappers
  import Q = TurnQuota
  import S = TurnSettlement

  type TurnKey = Q.TurnKey

  // ----- stored records -----

  datatype TodoStatus = Pending | Claimed | Running | Waiting | Blocked | Over

  /** A governance claim; live until its expiry. */
  datatype Claim = Claim(owner: string, live: bool)

  datatype Todo = Todo(status: TodoStatus, claim: Option<Claim>, lastTurn: nat)

  datatype Header = Header(key: TurnKey, digest: string)

  /** The immutable phases of a turn receipt, in their fixed order. */
  datatype Phase =
    | Decode(candidate: string, run: string, digest: string)
    | Validation(valid: bool, digest: string)
    | Writeback(committed: bool, run: string, digest: string)
    | PlanCompile(digest: string, runs: nat)
    | Dispatch(state: string, runs: nat)
    | QuotaSpend
    | Projection
  {
    function Number(): nat {
      match this
      case Decode(_, _, _) => 1
      case Validation(_, _) => 2
      case Writeback(_, _, _) => 3
      case PlanCompile(_, _) => 4
      case Dispatch(_, _) => 5
      case QuotaSpend => 6
      case Projection => 7
    }
  }

  datatype Plan = Plan(run: string, agent: string, digest: string)

  datatype Store = Store(
    goalActive: bool, current: string, todos: map<string, Todo>,
    headers: map<string, Header>, receipts: map<TurnKey, seq<Phase>>, plans: map<TurnKey, Plan>,
    book: Q.Book, policies: seq<Q.Policy>, retry: Option<string>)

  datatype Error = StateConflict | IdempotencyConflict | QuotaDenied | PhaseSkipped | QuotaOpen | SettlementRefused

  // ----- the transactions -----

  function PhasesOf(s: Store, key: TurnKey): seq<Phase> {
    if key in s.receipts then s.receipts[key] else []
  }

  /** An existing phase is accepted only unchanged; a new one must be the next. */
  function AppendPhase(s: Store, key: TurnKey, phase: Phase): Result<Store, Error> {
    var phases := PhasesOf(s, key);
    if phase.Number() <= |phases| then
      if phases[phase.Number() - 1] == phase then Success(s) else Failure(IdempotencyConflict)
    else if phase.Number() == |phases| + 1 && key in s.receipts then
      Success(s.(receipts := s.receipts[key := phases + [phase]]))
    else Failure(PhaseSkipped)
  }

  predicate Invalidated(phases: seq<Phase>) {
    |phases| >= 2 && phases[1].Validation? && !phases[1].valid
  }

  predicate Rejected(phases: seq<Phase>) {
    |phases| >= 3 && phases[2].Writeback? && !phases[2].committed
  }

  /** A turn already settled one way or the other needs no claim to be replayed. */
  predicate Decided(s: Store, key: TurnKey) {
    key in s.plans || Invalidated(PhasesOf(s, key)) || Rejected(PhasesOf(s, key))
  }

  predicate OwnLive(t: Todo, agent: string) {
    t.claim == Some(Claim(agent, true))
  }

  function Readmit(s: Store, h: Header, agent: string, todo: string, digest: string): Result<Store, Error>
    requires todo in s.todos
  {
    if h.key.todo != todo || h.digest != digest then Failure(IdempotencyConflict)
    else
      var r := s.(book := Q.ReserveTurn(s.book, h.key, s.policies));
      var t := s.todos[todo];
      if Decided(s, h.key) then Success(r)
      else if !s.goalActive || s.current != todo || t.lastTurn != h.key.number
           || t.claim.None? || t.claim.value.owner != agent then Failure(StateConflict)
      else if t.status == Running && t.claim.value.live then Success(r)
      else if t.status == Claimed && t.claim.value.live then
        Success(r.(todos := s.todos[todo := t.(status := Running)]))
      else Failure(StateConflict)
  }

  /** The Todo as the admitting agent's claim, if it may have one. */
  function ClaimFor(t: Todo, agent: string): Option<Todo> {
    match t.status
    case Pending | Waiting | Blocked =>
      if t.claim.Some? && t.claim.value.owner != agent && t.claim.value.live then None
      else Some(t.(status := Claimed, claim := Some(Claim(agent, true))))
    case Claimed => if OwnLive(t, agent) then Some(t) else None
    case Running => None
    case Over => None
  }

  function Admit(s: Store, run: string, agent: string, todo: string, digest: string, quotaAllowed: bool)
    : Result<Store, Error>
    requires todo in s.todos
  {
    if !s.goalActive || s.current != todo then Failure(StateConflict)
    else if !quotaAllowed then Failure(QuotaDenied)
    else
      var claimed := ClaimFor(s.todos[todo], agent);
      if claimed.None? then Failure(StateConflict)
      else
        var key := Q.TurnKey(todo, s.todos[todo].lastTurn + 1);
        Success(s.(
          todos := s.todos[todo := claimed.value.(status := Running, lastTurn := key.number)],
          headers := s.headers[run := Header(key, digest)],
          receipts := s.receipts[key := []],
          book := Q.ReserveTurn(s.book, key, s.policies)))
  }

  function EnsureAdmission(s: Store, run: string, agent: string, todo: string, digest: string, quotaAllowed: bool)
    : Result<Store, Error>
    requires todo in s.todos
  {
    if run in s.headers then Readmit(s, s.headers[run], agent, todo, digest)
    else Admit(s, run, agent, todo, digest, quotaAllowed)
  }

  /** Settles the Todo's projection of a turn; a newer turn is left alone. */
  function TransitionTodoTurn(s: Store, key: TurnKey, to: TodoStatus): Result<Store, Error>
    requires key.todo in s.todos
  {
    var t := s.todos[key.todo];
    if t.lastTurn < key.number then Failure(StateConflict)
    else if t.lastTurn > key.number || t.status == to then Success(s)
    else if t.status != Running then Failure(StateConflict)
    else Success(s.(todos := s.todos[key.todo := t.(status := to)]))
  }

  function AppendWriteback(s: Store, key: TurnKey, plan: Plan): Result<Store, Error> {
    var phases := PhasesOf(s, key);
    if |phases| >= 3 then
      if Rejected(phases) then Failure(StateConflict)
      else if phases[2] != Writeback(true, plan.run, plan.digest) then Failure(IdempotencyConflict)
      else Success(s)
    else AppendPhase(s, key, Writeback(true, plan.run, plan.digest))
  }

  /** The compensation of a permanent rejection: Todo, quota and receipt in one transaction. */
  function SettleFailure(s: Store, key: TurnKey, run: string, digest: string, terminal: bool, facts: Option<Q.Facts>)
    : Result<Store, Error>
    requires key.todo in s.todos
  {
    var t, phases := s.todos[key.todo], PhasesOf(s, key);
    if key in s.plans || s.current != key.todo || t.lastTurn != key.number then Failure(StateConflict)
    else if |phases| >= 3 && !Rejected(phases) then Failure(StateConflict)
    else if t.status != Blocked && t.status != Running then Failure(StateConflict)
    else
      match Q.Abort(s.book, key, run, terminal, facts)
      case Failure(_) => Failure(QuotaOpen)
      case Success(book) =>
        var settled := s.(todos := s.todos[key.todo := t.(status := Blocked)], book := book);
        if Rejected(phases) then Success(settled)
        else AppendPhase(settled, key, Writeback(false, run, digest))
  }

  /**
    The settlement of a turn's usage, and phase 6 behind phase 5 once it is closed;
    a turn without a decision is settled only when its Goal is cancelled.
   */
  function SettleTurn(
      s: Store, key: TurnKey, runs: seq<S.TurnRun>, mayClose: bool, allowAbsent: bool, cancelled: bool)
        : Result<Store, Error>
  {
    var phases := PhasesOf(s, key);
    if |phases| >= 6 || (phases == [] && !cancelled) then Success(s)
    else
      match S.Settle(s.book, key, runs, mayClose, allowAbsent)
      case Refused => Failure(SettlementRefused)
      case StillOpen(book) => Success(s.(book := book))
      case AllClosed(book) =>
        if |phases| < 5 then Success(s.(book := book)) else AppendPhase(s.(book := book), key, QuotaSpend)
  }

  /** Phase 6 of a dispatched turn; without any usage policy nothing has to be settled for it. */
  function QuotaPhase(s: Store, key: TurnKey, runs: seq<S.TurnRun>, mayClose: bool): Result<Store, Error> {
    if |PhasesOf(s, key)| >= 6 then Success(s)
    else if Q.AnyRow(s.book, key) then SettleTurn(s, key, runs, mayClose, true, false)
    else if s.policies != [] then Success(s)
    else AppendPhase(s, key, QuotaSpend)
  }

  // ----- one submission in flight -----

  datatype Pc =
    | Looked(todo: string)
    | Admitted(key: TurnKey)
    | Decoded(key: TurnKey)
    | Validated(key: TurnKey)
    | Rejecting(key: TurnKey)
    | Blocking(key: TurnKey)
    | Finishing(key: TurnKey, step: nat)

  datatype Flight = Flight(agent: string, candidate: string, digest: string, at: Pc)

  datatype Reply = Accepted | Transient | Permanent

  /** What the world answers while a submission runs. */
  datatype Input = Input(
    compile: Reply, submit: Reply, quotaAllowed: bool, ownsCoordinator: bool,
    turnRuns: seq<S.TurnRun>, mayClose: bool, terminal: bool, facts: Option<Q.Facts>, runs: nat, dispatch: string)

  predicate PlanMatches(p: Plan, run: string, f: Flight) {
    p.run == run && p.agent == f.agent && p.digest == f.digest
  }

  predicate PcOk(s: Store, at: Pc) {
    match at
    case Looked(todo) => todo in s.todos
    case Admitted(key) => key.todo in s.todos
    case Decoded(key) => key.todo in s.todos
    case Validated(key) => key.todo in s.todos
    case Rejecting(key) => key.todo in s.todos
    case Blocking(key) => key.todo in s.todos
    case Finishing(key, _) => key.todo in s.todos
  }

  /** Proceed to the next transaction if this one committed, otherwise give up. */
  function Then(s: Store, r: Result<Store, Error>, f: Flight, at: Pc): (Store, Option<Flight>) {
    match r
    case Failure(_) => (s, None)
    case Success(s') => (s', Some(f.(at := at)))
  }

  function MarkRetry(s: Store, run: string, in_: Input): Store {
    if in_.ownsCoordinator then s.(retry := Some(run)) else s
  }

  function AfterAdmission(s: Store, run: string, f: Flight, key: TurnKey): (Store, Option<Flight>) {
    var phases := PhasesOf(s, key);
    if |phases| >= 1 && !(phases[0].Decode? && phases[0].digest == f.digest) then (s, None)
    else if Invalidated(phases) then (s, Some(f.(at := Blocking(key))))
    else if Rejected(phases) then (s, None)
    else if key in s.plans then
      (s, if PlanMatches(s.plans[key], run, f) then Some(f.(at := Finishing(key, 0))) else None)
    else Then(s, AppendPhase(s, key, Decode(f.candidate, run, f.digest)), f, Decoded(key))
  }

  function AfterCompileFailure(s: Store, run: string, f: Flight, key: TurnKey, in_: Input): (Store, Option<Flight>)
    requires key.todo in s.todos
  {
    var phases := PhasesOf(s, key);
    if key in s.plans && PlanMatches(s.plans[key], run, f) then (s, Some(f.(at := Finishing(key, 0))))
    else if in_.compile == Transient then (MarkRetry(s, run, in_), None)
    else if |phases| >= 2 then
      if Invalidated(phases) then (s, Some(f.(at := Blocking(key))))
      else if phases[1] != Validation(true, f.digest) then (s, None)
      else (s, if s.todos[key.todo].status == Running then Some(f.(at := Blocking(key))) else None)
    else Then(s, AppendPhase(s, key, Validation(false, "")), f, Blocking(key))
  }

  function AfterValidation(s: Store, run: string, f: Flight, key: TurnKey, in_: Input): (Store, Option<Flight>) {
    if key in s.plans then
      (s, if PlanMatches(s.plans[key], run, f) then Some(f.(at := Finishing(key, 0))) else None)
    else
      match in_.submit
      case Accepted => (s.(plans := s.plans[key := Plan(run, f.agent, f.digest)]), Some(f.(at := Finishing(key, 0))))
      case Transient => (MarkRetry(s, run, in_), None)
      case Permanent => (s, Some(f.(at := Rejecting(key))))
  }

  function Finish(s: Store, run: string, f: Flight, key: TurnKey, step: nat, in_: Input): (Store, Option<Flight>)
    requires key.todo in s.todos
  {
    if key !in s.plans then (s, None)
    else
      match step
      case 0 => Then(s, AppendWriteback(s, key, s.plans[key]), f, Finishing(key, 1))
      case 1 => Then(s, AppendPhase(s, key, PlanCompile(s.plans[key].digest, in_.runs)), f, Finishing(key, 2))
      case 2 => Then(s, AppendPhase(s, key, Dispatch(in_.dispatch, in_.runs)), f, Finishing(key, 3))
      case 3 => Then(s, QuotaPhase(s, key, in_.turnRuns, in_.mayClose), f, Finishing(key, 4))
      case 4 => (s.(retry := None), Some(f.(at := Finishing(key, 5))))
      case _ =>
        match TransitionTodoTurn(s, key, Waiting)
        case Failure(_) => (s, None)
        case Success(s') => (s', None)
  }

  /** The next transaction of a submission; no flight is left once it returned. */
  function StepOf(s: Store, run: string, f: Flight, in_: Input): (Store, Option<Flight>)
    requires PcOk(s, f.at)
  {
    match f.at
    case Looked(todo) =>
      (match EnsureAdmission(s, run, f.agent, todo, f.digest, in_.quotaAllowed)
       case Failure(_) => (s, None)
       case Success(s') => (s', if run in s'.headers then Some(f.(at := Admitted(s'.headers[run].key))) else None))
    case Admitted(key) => AfterAdmission(s, run, f, key)
    case Decoded(key) =>
      if in_.compile != Accepted then AfterCompileFailure(s, run, f, key, in_)
      else Then(s, AppendPhase(s, key, Validation(true, f.digest)), f, Validated(key))
    case Validated(key) => AfterValidation(s, run, f, key, in_)
    case Rejecting(key) =>
      (match SettleFailure(s, key, run, f.digest, in_.terminal, in_.facts)
       case Failure(_) => (s, None)
       case Success(s') => (s', None))
    case Blocking(key) =>
      (match TransitionTodoTurn(s, key, Blocked)
       case Failure(_) => (s, None)
       case Success(s') => (s', None))
    case Finishing(key, step) => Finish(s, run, f, key, step, in_)
  }

  // ----- the same transactions, in place -----

  /** A transaction either takes its specified effect or reports why and leaves everything alone. */
  ghost predicate Did(before: Store, after: Store, error: Option<Error>, effect: Result<Store, Error>) {
    match effect
    case Success(s) => error.None? && after == s
    case Failure(e) => error == Some(e) && after == before
  }

  class TurnStore {
    var goalActive: bool
    var current: string
    var todos: map<string, Todo>
    var headers: map<string, Header>
    var receipts: map<TurnKey, seq<Phase>>
    var plans: map<TurnKey, Plan>
    var retry: Option<string>
    const policies: seq<Q.Policy>
    const quota: Q.QuotaBook

    constructor (policies: seq<Q.Policy>, quota: Q.QuotaBook)
      ensures this.policies == policies && this.quota == quota
    {
      this.policies, this.quota := policies, quota;
      goalActive, current, todos, headers, receipts, plans, retry := false, "", map[], map[], map[], map[], None;
    }

    ghost function State(): Store
      reads this, quota
    {
      Store(goalActive, current, todos, headers, receipts, plans, quota.State(), policies, retry)
    }

    method AppendTurnReceiptPhase(key: TurnKey, phase: Phase) returns (error: Option<Error>)
      modifies this`receipts
      ensures Did(old(State()), State(), error, AppendPhase(old(State()), key, phase))
    {
      var phases := if key in receipts then receipts[key] else [];
      if phase.Number() <= |phases| {
        return if phases[phase.Number() - 1] == phase then None else Some(IdempotencyConflict);
      }
      if phase.Number() != |phases| + 1 || key !in receipts {
        return Some(PhaseSkipped);
      }
      receipts := receipts[key := phases + [phase]];
      return None;
    }

    method AppendWritebackPhase(key: TurnKey, plan: Plan) returns (error: Option<Error>)
      modifies this`receipts
      ensures Did(old(State()), State(), error, AppendWriteback(old(State()), key, plan))
    {
      var phases := if key in receipts then receipts[key] else [];
      if |phases| >= 3 {
        if Rejected(phases) {
          return Some(StateConflict);
        }
        return if phases[2] != Writeback(true, plan.run, plan.digest) then Some(IdempotencyConflict) else None;
      }
      error := AppendTurnReceiptPhase(key, Writeback(true, plan.run, plan.digest));
    }

    method TransitionGovernanceTodoTurn(key: TurnKey, to: TodoStatus) returns (error: Option<Error>)
      requires key.todo in todos
      modifies this`todos
      ensures Did(old(State()), State(), error, TransitionTodoTurn(old(State()), key, to))
    {
      var todo := todos[key.todo];
      if todo.lastTurn < key.number {
        return Some(StateConflict);
      }
      if todo.lastTurn > key.number || todo.status == to {
        return None;
      }
      if todo.status != Running {
        return Some(StateConflict);
      }
      todos := todos[key.todo := todo.(status := to)];
      return None;
    }

    /** One transaction: a refused admission also takes back the reservations it made. */
    method EnsureGovernancePlanAdmission(run: string, agent: string, todo: string, digest: string, quotaAllowed: bool)
      returns (error: Option<Error>)
      requires todo in todos
      modifies this, quota
      ensures Did(old(State()), State(), error, EnsureAdmission(old(State()), run, agent, todo, digest, quotaAllowed))
    {
      var t := todos[todo];
      if run in headers {
        var h := headers[run];
        if h.key.todo != todo || h.digest != digest {
          return Some(IdempotencyConflict);
        }
        var phases := if h.key in receipts then receipts[h.key] else [];
        var before := (quota.turns, quota.rows, quota.spend);
        hide Q.ReserveTurn;
        quota.EnsureUsageReservations(h.key, policies);
        if h.key in plans || Invalidated(phases) || Rejected(phases) {
          return None;
        }
        if goalActive && current == todo && t.lastTurn == h.key.number && t.claim == Some(Claim(agent, true)) {
          if t.status == Running {
            return None;
          }
          if t.status == Claimed {
            todos := todos[todo := t.(status := Running)];
            return None;
          }
        }
        quota.turns, quota.rows, quota.spend := before.0, before.1, before.2;
        return Some(StateConflict);
      }
      if !goalActive || current != todo {
        return Some(StateConflict);
      }
      if !quotaAllowed {
        return Some(QuotaDenied);
      }
      var claimed := ClaimFor(t, agent);
      if claimed.None? {
        return Some(StateConflict);
      }
      var key := Q.TurnKey(todo, t.lastTurn + 1);
      todos := todos[todo := claimed.value.(status := Running, lastTurn := key.number)];
      headers := headers[run := Header(key, digest)];
      receipts := receipts[key := []];
      quota.EnsureUsageReservations(key, policies);
      return None;
    }

    method SettleGovernancePlanSubmissionFailure(
        key: TurnKey, run: string, digest: string, terminal: bool, facts: Option<Q.Facts>)
          returns (error: Option<Error>)
      requires key.todo in todos
      modifies this, quota
      ensures Did(old(State()), State(), error, SettleFailure(old(State()), key, run, digest, terminal, facts))
    {
      hide Q.Abort, AppendPhase;
      var t := todos[key.todo];
      var phases := if key in receipts then receipts[key] else [];
      if key in plans || current != key.todo || t.lastTurn != key.number {
        return Some(StateConflict);
      }
      if |phases| >= 3 && !Rejected(phases) {
        return Some(StateConflict);
      }
      if t.status != Blocked && t.status != Running {
        return Some(StateConflict);
      }
      var before := (quota.turns, quota.rows, quota.spend);
      var open := quota.SettlePlanAbortQuota(key, run, terminal, facts);
      if open.Some? {
        return Some(QuotaOpen);
      }
      todos := todos[key.todo := t.(status := Blocked)];
      if !Rejected(phases) {
        error := AppendTurnReceiptPhase(key, Writeback(false, run, digest));
        if error.Some? {
          todos := todos[key.todo := t];
          quota.turns, quota.rows, quota.spend := before.0, before.1, before.2;
        }
        return;
      }
      return None;
    }

    method AdvanceAdmitted(run: string, f: Flight, key: TurnKey) returns (next: Option<Flight>)
      modifies this
      ensures (State(), next) == AfterAdmission(old(State()), run, f, key)
    {
      hide AppendPhase;
      var phases := if key in receipts then receipts[key] else [];
      if |phases| >= 1 && !(phases[0].Decode? && phases[0].digest == f.digest) {
        return None;
      }
      if Invalidated(phases) {
        return Some(f.(at := Blocking(key)));
      }
      if Rejected(phases) {
        return None;
      }
      if key in plans {
        return if PlanMatches(plans[key], run, f) then Some(f.(at := Finishing(key, 0))) else None;
      }
      var error := AppendTurnReceiptPhase(key, Decode(f.candidate, run, f.digest));
      next := if error.None? then Some(f.(at := Decoded(key))) else None;
    }

    method AdvanceUncompiled(run: string, f: Flight, key: TurnKey, in_: Input) returns (next: Option<Flight>)
      requires key.todo in todos
      modifies this
      ensures (State(), next) == AfterCompileFailure(old(State()), run, f, key, in_)
    {
      hide AppendPhase;
      if key in plans && PlanMatches(plans[key], run, f) {
        return Some(f.(at := Finishing(key, 0)));
      }
      if in_.compile == Transient {
        if in_.ownsCoordinator { retry := Some(run); }
        return None;
      }
      var phases := if key in receipts then receipts[key] else [];
      if |phases| >= 2 {
        if Invalidated(phases) {
          return Some(f.(at := Blocking(key)));
        }
        if phases[1] != Validation(true, f.digest) {
          return None;
        }
        return if todos[key.todo].status == Running then Some(f.(at := Blocking(key))) else None;
      }
      var error := AppendTurnReceiptPhase(key, Validation(false, ""));
      next := if error.None? then Some(f.(at := Blocking(key))) else None;
    }

    method AdvanceValidated(run: string, f: Flight, key: TurnKey, in_: Input) returns (next: Option<Flight>)
      modifies this
      ensures (State(), next) == AfterValidation(old(State()), run, f, key, in_)
    {
      if key in plans {
        return if PlanMatches(plans[key], run, f) then Some(f.(at := Finishing(key, 0))) else None;
      }
      match in_.submit
      case Accepted =>
        plans := plans[key := Plan(run, f.agent, f.digest)];
        next := Some(f.(at := Finishing(key, 0)));
      case Transient =>
        if in_.ownsCoordinator { retry := Some(run); }
        next := None;
      case Permanent =>
        next := Some(f.(at := Rejecting(key)));
    }

    /** The next transaction of a submission in flight. */
    method AdvanceSubmission(run: string, f: Flight, in_: Input) returns (next: Option<Flight>)
      requires PcOk(State(), f.at)
      modifies this, quota
      ensures (State(), next) == StepOf(old(State()), run, f, in_)
    {
      hide AppendPhase, EnsureAdmission, SettleFailure, TransitionTodoTurn,
           AfterAdmission, AfterCompileFailure, AfterValidation, Finish;
      var error: Option<Error>;
      match f.at
      case Looked(todo) =>
        error := EnsureGovernancePlanAdmission(run, f.agent, todo, f.digest, in_.quotaAllowed);
        next := if error.None? && run in headers then Some(f.(at := Admitted(headers[run].key))) else None;
      case Admitted(key) =>
        next := AdvanceAdmitted(run, f, key);
      case Decoded(key) =>
        if in_.compile != Accepted {
          next := AdvanceUncompiled(run, f, key, in_);
        } else {
          error := AppendTurnReceiptPhase(key, Validation(true, f.digest));
          next := if error.None? then Some(f.(at := Validated(key))) else None;
        }
      case Validated(key) =>
        next := AdvanceValidated(run, f, key, in_);
      case Rejecting(key) =>
        error := SettleGovernancePlanSubmissionFailure(key, run, f.digest, in_.terminal, in_.facts);
        next := None;
      case Blocking(key) =>
        error := TransitionGovernanceTodoTurn(key, Blocked);
        next := None;
      case Finishing(key, step) =>
        next := FinishSubmission(run, f, key, step, in_);
    }

    /** One transaction: a settlement that cannot record its phase is taken back. */
    method SettleGovernanceTurnQuota(
        key: TurnKey, runs: seq<S.TurnRun>, mayClose: bool, allowAbsent: bool, cancelled: bool)
          returns (error: Option<Error>)
      modifies this, quota
      ensures Did(old(State()), State(), error, SettleTurn(old(State()), key, runs, mayClose, allowAbsent, cancelled))
    {
      hide AppendPhase, S.Settle;
      var phases := if key in receipts then receipts[key] else [];
      if |phases| >= 6 || (phases == [] && !cancelled) {
        return None;
      }
      var before := (quota.turns, quota.rows, quota.spend);
      var answer := S.SettleGovernanceTurnQuotaLocked(quota, key, runs, mayClose, allowAbsent);
      if answer == S.SettlementRefused {
        return Some(SettlementRefused);
      }
      if answer == S.Open || |phases| < 5 {
        return None;
      }
      error := AppendTurnReceiptPhase(key, QuotaSpend);
      if error.Some? {
        quota.turns, quota.rows, quota.spend := before.0, before.1, before.2;
      }
    }

    method AppendQuotaPhaseIfReady(key: TurnKey, runs: seq<S.TurnRun>, mayClose: bool) returns (error: Option<Error>)
      modifies this, quota
      ensures Did(old(State()), State(), error, QuotaPhase(old(State()), key, runs, mayClose))
    {
      hide AppendPhase, SettleTurn;
      var phases := if key in receipts then receipts[key] else [];
      if |phases| >= 6 {
        return None;
      }
      if Q.AnyRow(Q.Book(quota.turns, quota.rows, quota.spend), key) {
        error := SettleGovernanceTurnQuota(key, runs, mayClose, true, false);
      } else if policies == [] {
        error := AppendTurnReceiptPhase(key, QuotaSpend);
      } else {
        return None;
      }
    }

    /** Phases 3 to 6, the retry marker and the Todo, one transaction each. */
    method FinishSubmission(run: string, f: Flight, key: TurnKey, step: nat, in_: Input) returns (next: Option<Flight>)
      requires key.todo in todos
      modifies this, quota
      ensures (State(), next) == Finish(old(State()), run, f, key, step, in_)
    {
      hide AppendPhase, AppendWriteback, TransitionTodoTurn, QuotaPhase;
      if key !in plans {
        return None;
      }
      var error: Option<Error> := None;
      if step == 0 {
        error := AppendWritebackPhase(key, plans[key]);
      } else if step == 1 {
        error := AppendTurnReceiptPhase(key, PlanCompile(plans[key].digest, in_.runs));
      } else if step == 2 {
        error := AppendTurnReceiptPhase(key, Dispatch(in_.dispatch, in_.runs));
      } else if step == 3 {
        error := AppendQuotaPhaseIfReady(key, in_.turnRuns, in_.mayClose);
      } else if step == 4 {
        retry := None;
      } else {
        error := TransitionGovernanceTodoTurn(key, Waiting);
        return None;
      }
      next := if error.None? then Some(f.(at := Finishing(key, step + 1))) else None;
    }
  }

  // ----- the invariant -----

  predicate Numbered(phases: seq<Phase>) {
    forall i | 0 <= i < |phases| :: phases[i].Number() == i + 1
  }

  /** What a turn's receipt and Plan always say about each other. */
  predicate TurnOk(run: string, h: Header, phases: seq<Phase>, plan: Option<Plan>) {
    && Numbered(phases)
    && (|phases| >= 1 ==> phases[0].Decode? && phases[0].run == run && phases[0].digest == h.digest)
    && (|phases| >= 2 ==> phases[1].Validation? && (phases[1].valid ==> phases[1].digest == h.digest))
    && (|phases| >= 3 ==>
          && phases[1].valid
          && phases[2] == Writeback(plan.Some?, run, h.digest))
    && (|phases| >= 4 ==> plan.Some?)
    && (plan.Some? ==>
          && plan.value.run == run && plan.value.digest == h.digest
          && |phases| >= 2 && phases[1].valid)
  }

  function PlanOf(s: Store, key: TurnKey): Option<Plan> {
    if key in s.plans then Some(s.plans[key]) else None
  }

  /** A turn whose receipt says that its reservations are done with. */
  predicate Accounted(phases: seq<Phase>) {
    Rejected(phases) || |phases| >= 6
  }

  /** No reservation of the turn is active any more. */
  predicate QuotaClosed(book: Q.Book, key: TurnKey) {
    forall k | k in book.rows && k.0 == key :: book.rows[k].status != Q.Reserved
  }

  predicate Covered(s: Store, key: TurnKey) {
    key in s.book.turns && forall p | p in s.policies :: (key, p.kind) in s.book.rows
  }

  /** Every admitted turn of a Run. */
  ghost predicate HeaderOk(s: Store, run: string)
    requires run in s.headers
  {
    var key := s.headers[run].key;
    && key.todo in s.todos && key in s.receipts && Covered(s, key)
    && TurnOk(run, s.headers[run], s.receipts[key], PlanOf(s, key))
    && (Accounted(s.receipts[key]) ==> QuotaClosed(s.book, key))
  }

  ghost predicate KeysOk(s: Store) {
    && (forall r, q | r in s.headers && q in s.headers && r != q :: s.headers[r].key != s.headers[q].key)
    && (forall r | r in s.headers :: s.headers[r].key in s.receipts)
    && (forall k | k in s.receipts :: k.todo in s.todos && 1 <= k.number <= s.todos[k.todo].lastTurn)
    && (forall k | k in s.receipts :: exists r :: r in s.headers && s.headers[r].key == k)
    && (forall k | k in s.plans :: k in s.receipts)
    && (forall k | k in s.book.turns :: k in s.receipts)
  }

  ghost predicate StoreOk(s: Store) {
    && Q.Sound(s.book) && KeysOk(s)
    && forall r | r in s.headers :: HeaderOk(s, r)
  }

  /** A submission past its admission works on its own Run's turn, with the admitted decision. */
  predicate FlightOk(s: Store, run: string, f: Flight) {
    && PcOk(s, f.at)
    && match f.at
       case Looked(_) => true
       case Admitted(key) => Owns(s, run, f, key)
       case Decoded(key) => Owns(s, run, f, key) && |PhasesOf(s, key)| >= 1 && !Invalidated(PhasesOf(s, key))
         && !Rejected(PhasesOf(s, key))
       case Validated(key) => Owns(s, run, f, key) && ValidTurn(PhasesOf(s, key))
       case Rejecting(key) => Owns(s, run, f, key) && ValidTurn(PhasesOf(s, key))
       case Blocking(key) => Owns(s, run, f, key)
       case Finishing(key, step) => Owns(s, run, f, key) && key in s.plans && (step >= 1 ==> |PhasesOf(s, key)| >= 3)
  }

  predicate Owns(s: Store, run: string, f: Flight, key: TurnKey) {
    run in s.headers && s.headers[run] == Header(key, f.digest)
  }

  predicate ValidTurn(phases: seq<Phase>) {
    |phases| >= 2 && phases[1].Validation? && phases[1].valid && !Rejected(phases)
  }

  // ----- each transaction keeps it -----

  /** s' differs from s at most in one turn's receipt, Plan and reservations, and in Todos. */
  ghost predicate Local(s: Store, s': Store, key: TurnKey) {
    && s'.headers == s.headers && s'.policies == s.policies
    && s'.todos.Keys == s.todos.Keys
    && (forall t | t in s.todos :: s'.todos[t].lastTurn == s.todos[t].lastTurn)
    && s'.receipts.Keys == s.receipts.Keys
    && (forall k | k in s.receipts && k != key :: s'.receipts[k] == s.receipts[k])
    && (forall k | k != key :: PlanOf(s', k) == PlanOf(s, k))
    && s'.book.turns == s.book.turns && s'.book.rows.Keys == s.book.rows.Keys
    && (forall k | k in s.book.rows && k.0 != key :: s'.book.rows[k] == s.book.rows[k])
  }

  lemma {:induction false} LocalKeepsKeys(s: Store, s': Store, key: TurnKey)
    requires KeysOk(s) && Local(s, s', key) && key in s.receipts
    ensures KeysOk(s')
  {
    forall k | k in s'.plans
      ensures k in s'.receipts
    {
      assert k != key ==> PlanOf(s', k) == PlanOf(s, k);
    }
  }

  lemma {:induction false} LocalKeepsOther(s: Store, s': Store, key: TurnKey, run: string)
    requires Local(s, s', key) && run in s.headers && s.headers[run].key != key && HeaderOk(s, run)
    ensures HeaderOk(s', run)
  {
    hide TurnOk;
    assert PlanOf(s', s.headers[run].key) == PlanOf(s, s.headers[run].key);
  }

  lemma {:induction false} LocalKeeps(s: Store, s': Store, run: string)
    requires StoreOk(s) && run in s.headers && Local(s, s', s.headers[run].key) && Q.Sound(s'.book)
    requires TurnOk(run, s.headers[run], s'.receipts[s.headers[run].key], PlanOf(s', s.headers[run].key))
    requires Accounted(s'.receipts[s.headers[run].key]) ==> QuotaClosed(s'.book, s.headers[run].key)
    ensures StoreOk(s')
  {
    hide TurnOk, Q.Sound, KeysOk, QuotaClosed;
    var key := s.headers[run].key;
    assert HeaderOk(s, run);
    LocalKeepsKeys(s, s', key);
    forall r | r in s'.headers
      ensures HeaderOk(s', r)
    {
      if r != run {
        KeysDiffer(s, r, run);
        LocalKeepsOther(s, s', key, r);
      }
    }
  }

  lemma {:induction false} KeysDiffer(s: Store, r: string, q: string)
    requires KeysOk(s) && r in s.headers && q in s.headers && r != q
    ensures s.headers[r].key != s.headers[q].key
  {
  }

  /** Flights of other Runs do not notice. */
  lemma {:induction false} LocalKeepsFlight(s: Store, s': Store, key: TurnKey, run: string, f: Flight)
    requires KeysOk(s) && Local(s, s', key) && FlightOk(s, run, f)
    requires run in s.headers ==> s.headers[run].key != key
    ensures FlightOk(s', run, f)
  {
    if run in s.headers { assert PlanOf(s', s.headers[run].key) == PlanOf(s, s.headers[run].key); }
  }

  lemma {:induction false} AppendIsLocal(s: Store, key: TurnKey, phase: Phase)
    requires AppendPhase(s, key, phase).Success?
    ensures Local(s, AppendPhase(s, key, phase).value, key)
    ensures AppendPhase(s, key, phase).value.book == s.book && AppendPhase(s, key, phase).value.plans == s.plans
    ensures PhasesOf(s, key) <= PhasesOf(AppendPhase(s, key, phase).value, key)
    ensures phase.Number() <= |PhasesOf(AppendPhase(s, key, phase).value, key)|
    ensures PhasesOf(AppendPhase(s, key, phase).value, key)[phase.Number() - 1] == phase
    ensures |PhasesOf(AppendPhase(s, key, phase).value, key)| <=
            (if phase.Number() > |PhasesOf(s, key)| then phase.Number() else |PhasesOf(s, key)|)
  {
  }

  /** Phases that may follow what the turn already says. */
  predicate Fits(run: string, h: Header, phases: seq<Phase>, plan: Option<Plan>, phase: Phase) {
    match phase
    case Decode(_, r, d) => r == run && d == h.digest
    case Validation(valid, d) => valid ==> d == h.digest
    case Writeback(_, _, _) => ValidTurn(phases) && phase == Writeback(plan.Some?, run, h.digest)
    case _ => plan.Some? || |phases| >= 4
  }

  lemma {:induction false} AppendKeeps(s: Store, run: string, phase: Phase)
    requires StoreOk(s) && run in s.headers
    requires AppendPhase(s, s.headers[run].key, phase).Success?
    requires Fits(run, s.headers[run], PhasesOf(s, s.headers[run].key), PlanOf(s, s.headers[run].key), phase)
    requires (phase.Writeback? && !phase.committed) || phase.QuotaSpend? ==> QuotaClosed(s.book, s.headers[run].key)
    ensures StoreOk(AppendPhase(s, s.headers[run].key, phase).value)
  {
    hide Q.Sound, KeysOk, Covered;
    var key := s.headers[run].key;
    AppendIsLocal(s, key, phase);
    assert HeaderOk(s, run);
    LocalKeeps(s, AppendPhase(s, key, phase).value, run);
  }

  function WithStatus(s: Store, todo: string, to: TodoStatus): Store
    requires todo in s.todos
  {
    s.(todos := s.todos[todo := s.todos[todo].(status := to)])
  }

  lemma {:induction false} StatusKeeps(s: Store, run: string, todo: string, to: TodoStatus)
    requires StoreOk(s) && run in s.headers && todo in s.todos
    ensures StoreOk(WithStatus(s, todo, to)) && Local(s, WithStatus(s, todo, to), s.headers[run].key)
  {
    hide TurnOk, Q.Sound, KeysOk, QuotaClosed;
    assert HeaderOk(s, run);
    LocalKeeps(s, WithStatus(s, todo, to), run);
  }

  lemma {:induction false} NothingIsLocal(s: Store, key: TurnKey)
    ensures Local(s, s, key)
  {
  }

  lemma {:induction false} TransitionKeeps(s: Store, run: string, to: TodoStatus)
    requires StoreOk(s) && run in s.headers && s.headers[run].key.todo in s.todos
    requires TransitionTodoTurn(s, s.headers[run].key, to).Success?
    ensures StoreOk(TransitionTodoTurn(s, s.headers[run].key, to).value)
    ensures Local(s, TransitionTodoTurn(s, s.headers[run].key, to).value, s.headers[run].key)
  {
    hide StoreOk, Local;
    StatusKeeps(s, run, s.headers[run].key.todo, to);
    NothingIsLocal(s, s.headers[run].key);
  }

  lemma {:induction false} AcceptKeeps(s: Store, run: string, plan: Plan)
    requires StoreOk(s) && run in s.headers && s.headers[run].key !in s.plans
    requires ValidTurn(PhasesOf(s, s.headers[run].key))
    requires plan.run == run && plan.digest == s.headers[run].digest
    ensures StoreOk(s.(plans := s.plans[s.headers[run].key := plan]))
    ensures Local(s, s.(plans := s.plans[s.headers[run].key := plan]), s.headers[run].key)
  {
    hide Q.Sound, Covered, KeysOk, QuotaClosed;
    assert HeaderOk(s, run);
    LocalKeeps(s, s.(plans := s.plans[s.headers[run].key := plan]), run);
  }

  lemma {:induction false} SettleKeeps(s: Store, run: string, terminal: bool, facts: Option<Q.Facts>)
    requires StoreOk(s) && run in s.headers && s.headers[run].key.todo in s.todos
    requires ValidTurn(PhasesOf(s, s.headers[run].key)) || Rejected(PhasesOf(s, s.headers[run].key))
    requires SettleFailure(s, s.headers[run].key, run, s.headers[run].digest, terminal, facts).Success?
    ensures StoreOk(SettleFailure(s, s.headers[run].key, run, s.headers[run].digest, terminal, facts).value)
    ensures Local(s, SettleFailure(s, s.headers[run].key, run, s.headers[run].digest, terminal, facts).value,
              s.headers[run].key)
    ensures Rejected(PhasesOf(SettleFailure(s, s.headers[run].key, run, s.headers[run].digest, terminal, facts).value,
              s.headers[run].key))
    ensures s.headers[run].key !in s.plans
  {
    hide Q.Sound, Q.Abort, Q.Settled, HeaderOk, KeysOk, QuotaClosed, Local, Rejected;
    var key, digest := s.headers[run].key, s.headers[run].digest;
    Q.AbortSettles(s.book, key, run, terminal, facts);
    var book := Q.Abort(s.book, key, run, terminal, facts).value;
    var settled := WithStatus(s.(book := book), key.todo, Blocked);
    CloseKeeps(s, run, book);
    StatusKeeps(s.(book := book), run, key.todo, Blocked);
    LocalTrans(s, s.(book := book), settled, key);
    if !Rejected(PhasesOf(s, key)) {
      RejectKeeps(settled, run);
      LocalTrans(s, settled, SettleFailure(s, key, run, digest, terminal, facts).value, key);
    }
  }

  lemma {:induction false} LocalTrans(a: Store, b: Store, c: Store, key: TurnKey)
    requires Local(a, b, key) && Local(b, c, key)
    ensures Local(a, c, key)
  {
  }

  lemma {:induction false} CloseKeeps(s: Store, run: string, book: Q.Book)
    requires StoreOk(s) && run in s.headers && Q.Settled(s.book, book, s.headers[run].key)
    ensures StoreOk(s.(book := book)) && Local(s, s.(book := book), s.headers[run].key)
    ensures QuotaClosed(book, s.headers[run].key)
  {
    hide TurnOk, Q.Sound, KeysOk, QuotaClosed, Q.Used;
    assert HeaderOk(s, run);
    SettledIsClosed(s.book, book, s.headers[run].key);
    LocalKeeps(s, s.(book := book), run);
  }

  lemma {:induction false} RejectKeeps(s: Store, run: string)
    requires StoreOk(s) && run in s.headers && QuotaClosed(s.book, s.headers[run].key)
    requires ValidTurn(PhasesOf(s, s.headers[run].key)) && s.headers[run].key !in s.plans
    requires AppendPhase(s, s.headers[run].key, Writeback(false, run, s.headers[run].digest)).Success?
    ensures StoreOk(AppendPhase(s, s.headers[run].key, Writeback(false, run, s.headers[run].digest)).value)
    ensures Local(s, AppendPhase(s, s.headers[run].key, Writeback(false, run, s.headers[run].digest)).value,
              s.headers[run].key)
    ensures Rejected(PhasesOf(AppendPhase(s, s.headers[run].key, Writeback(false, run, s.headers[run].digest)).value,
              s.headers[run].key))
  {
    hide StoreOk, Local, QuotaClosed;
    var phase := Writeback(false, run, s.headers[run].digest);
    AppendKeeps(s, run, phase);
    AppendIsLocal(s, s.headers[run].key, phase);
  }

  /** A settlement stays within its turn, and what it closes is closed for good. */
  lemma {:induction false} UsageKeeps(
      s: Store, run: string, runs: seq<S.TurnRun>, mayClose: bool, allowAbsent: bool, cancelled: bool)
    requires StoreOk(s) && run in s.headers
    requires SettleTurn(s, s.headers[run].key, runs, mayClose, allowAbsent, cancelled).Success?
    ensures var s' := SettleTurn(s, s.headers[run].key, runs, mayClose, allowAbsent, cancelled).value;
            StoreOk(s') && Local(s, s', s.headers[run].key) && SameButQuota(s, s', s.headers[run].key)
  {
    hide StoreOk, Local, S.Settle, Q.Settled, S.Adds, QuotaClosed;
    var key := s.headers[run].key;
    NothingIsLocal(s, key);
    BookIsSound(s);
    S.SettleKeeps(s.book, key, runs, mayClose, allowAbsent);
    match S.Settle(s.book, key, runs, mayClose, allowAbsent)
    case Refused =>
    case StillOpen(book) => AddsKeep(s, run, book);
    case AllClosed(book) =>
      CloseKeeps(s, run, book);
      if AppendPhase(s.(book := book), key, QuotaSpend).Success? && |PhasesOf(s, key)| == 5 {
        var s' := AppendPhase(s.(book := book), key, QuotaSpend).value;
        OwnTurnOk(s, run);
        AppendKeeps(s.(book := book), run, QuotaSpend);
        AppendIsLocal(s.(book := book), key, QuotaSpend);
        LocalTrans(s, s.(book := book), s', key);
      }
  }

  /** Apart from reservations and spends, a settlement only appends to its own receipt. */
  ghost predicate SameButQuota(s: Store, s': Store, key: TurnKey) {
    && s'.todos == s.todos && s'.headers == s.headers && s'.plans == s.plans && s'.retry == s.retry
    && s'.goalActive == s.goalActive && s'.current == s.current && s'.policies == s.policies
    && PhasesOf(s, key) <= PhasesOf(s', key)
    && (|PhasesOf(s, key)| < 5 ==> PhasesOf(s', key) == PhasesOf(s, key))
  }

  lemma {:induction false} BookIsSound(s: Store)
    requires StoreOk(s)
    ensures Q.Sound(s.book)
  {
  }

  lemma {:induction false} AddsKeep(s: Store, run: string, book: Q.Book)
    requires StoreOk(s) && run in s.headers && S.Adds(s.book, book, s.headers[run].key)
    ensures StoreOk(s.(book := book)) && Local(s, s.(book := book), s.headers[run].key)
  {
    hide TurnOk, Q.Sound, KeysOk, Q.SpentBy, Q.SpentIn;
    assert HeaderOk(s, run);
    LocalKeeps(s, s.(book := book), run);
  }

  lemma {:induction false} SettledIsClosed(b: Q.Book, after: Q.Book, key: TurnKey)
    requires Q.Settled(b, after, key)
    ensures QuotaClosed(after, key)
  {
    hide Q.Sound, Q.Used, Q.SpentIn;
  }

  lemma {:induction false} ReadmitKeeps(s: Store, run: string, agent: string, todo: string, digest: string)
    requires StoreOk(s) && run in s.headers && todo in s.todos
    requires Readmit(s, s.headers[run], agent, todo, digest).Success?
    ensures StoreOk(Readmit(s, s.headers[run], agent, todo, digest).value)
    ensures Local(s, Readmit(s, s.headers[run], agent, todo, digest).value, s.headers[run].key)
    ensures Readmit(s, s.headers[run], agent, todo, digest).value.book == s.book
    ensures s.headers[run].digest == digest
  {
    hide TurnOk, Q.Sound, KeysOk, QuotaClosed, Local, Decided;
    var key := s.headers[run].key;
    assert HeaderOk(s, run);
    Q.ReserveAgain(s.book, key, s.policies);
    assert Q.ReserveTurn(s.book, key, s.policies) == s.book;
    StatusKeeps(s, run, todo, Running);
    NothingIsLocal(s, key);
  }

  /** The store after a first admission, given the Todo that was claimed for it. */
  function Started(s: Store, run: string, todo: string, claimed: Todo, digest: string): Store
    requires todo in s.todos
  {
    var key := Q.TurnKey(todo, s.todos[todo].lastTurn + 1);
    s.(todos := s.todos[todo := claimed.(status := Running, lastTurn := key.number)],
       headers := s.headers[run := Header(key, digest)],
       receipts := s.receipts[key := []],
       book := Q.ReserveTurn(s.book, key, s.policies))
  }

  lemma {:induction false} NewKeyIsFresh(s: Store, todo: string)
    requires KeysOk(s) && todo in s.todos
    ensures Q.TurnKey(todo, s.todos[todo].lastTurn + 1) !in s.receipts
    ensures forall k | k in s.plans || k in s.book.turns :: k != Q.TurnKey(todo, s.todos[todo].lastTurn + 1)
    ensures forall r | r in s.headers :: s.headers[r].key != Q.TurnKey(todo, s.todos[todo].lastTurn + 1)
  {
  }

  lemma {:induction false} StartedKeepsKeys(s: Store, run: string, todo: string, claimed: Todo, digest: string)
    requires KeysOk(s) && run !in s.headers && todo in s.todos
    ensures KeysOk(Started(s, run, todo, claimed, digest))
  {
    hide Q.ReserveKinds;
    var s', key := Started(s, run, todo, claimed, digest), Q.TurnKey(todo, s.todos[todo].lastTurn + 1);
    NewKeyIsFresh(s, todo);
    Q.ReserveAddsOwn(Q.Opened(s.book, key), key, s.policies);
    forall k | k in s'.receipts
      ensures exists r :: r in s'.headers && s'.headers[r].key == k
    {
      if k == key {
        assert s'.headers[run].key == k;
      } else {
        var r :| r in s.headers && s.headers[r].key == k;
        assert s'.headers[r].key == k;
      }
    }
  }

  lemma {:induction false} StartedKeepsOther(s: Store, run: string, todo: string, claimed: Todo, digest: string,
          other: string)
    requires StoreOk(s) && run !in s.headers && todo in s.todos && other in s.headers
    ensures HeaderOk(Started(s, run, todo, claimed, digest), other)
  {
    hide TurnOk, Q.Sound, Q.ReserveKinds, KeysOk, Rejected;
    var s', key := Started(s, run, todo, claimed, digest), Q.TurnKey(todo, s.todos[todo].lastTurn + 1);
    NewKeyIsFresh(s, todo);
    Q.ReserveAddsOwn(Q.Opened(s.book, key), key, s.policies);
    assert HeaderOk(s, other) && s.headers[other].key != key;
    assert PlanOf(s', s.headers[other].key) == PlanOf(s, s.headers[other].key);
  }

  /** A first admission opens an empty turn, numbered one above the Todo's last. */
  lemma {:induction false} StartedKeeps(s: Store, run: string, todo: string, claimed: Todo, digest: string)
    requires StoreOk(s) && run !in s.headers && todo in s.todos
    ensures StoreOk(Started(s, run, todo, claimed, digest))
  {
    hide Q.Sound, Q.ReserveKinds, Q.Used, KeysOk, TurnOk;
    var s', key := Started(s, run, todo, claimed, digest), Q.TurnKey(todo, s.todos[todo].lastTurn + 1);
    NewKeyIsFresh(s, todo);
    StartedKeepsKeys(s, run, todo, claimed, digest);
    Q.ReserveAddsOwn(Q.Opened(s.book, key), key, s.policies);
    AdmissionSound(s.book, key, s.policies);
    forall r | r in s'.headers
      ensures HeaderOk(s', r)
    {
      if r != run {
        StartedKeepsOther(s, run, todo, claimed, digest, r);
      } else {
        EmptyTurnOk(run, Header(key, digest));
      }
    }
  }

  lemma {:induction false} EmptyTurnOk(run: string, h: Header)
    ensures TurnOk(run, h, [], None)
  {
  }

  lemma {:induction false} AdmissionSound(b: Q.Book, key: TurnKey, policies: seq<Q.Policy>)
    requires Q.Sound(b)
    ensures Q.Sound(Q.ReserveTurn(b, key, policies))
  {
    hide Q.Sound, Q.Used, Q.ReserveKinds;
    Q.LargestLimit(policies, Q.CanonicalUsage.Output);
    Q.AdmissionNeverOversubscribes(b, key, policies, Q.CanonicalUsage.Output,
      Q.LimitOf(policies, Q.CanonicalUsage.Output));
  }

  /** Flights of other Runs survive an admission. */
  lemma {:induction false} StartedKeepsFlight(s: Store, run: string, todo: string, claimed: Todo, digest: string,
          other: string, f: Flight)
    requires KeysOk(s) && run !in s.headers && todo in s.todos && FlightOk(s, other, f) && other != run
    ensures FlightOk(Started(s, run, todo, claimed, digest), other, f)
  {
    hide Q.ReserveKinds, Q.Opened, KeysOk;
    NewKeyIsFresh(s, todo);
    SameTurn(s, Started(s, run, todo, claimed, digest), other, f);
  }

  /** A flight depends on its own header, receipt and Plan only. */
  lemma {:induction false} SameTurn(s: Store, s': Store, run: string, f: Flight)
    requires FlightOk(s, run, f)
    requires forall t | t in s.todos :: t in s'.todos
    requires run in s.headers ==> run in s'.headers && s'.headers[run] == s.headers[run]
    requires run in s.headers ==> PhasesOf(s, s.headers[run].key) <= PhasesOf(s', s.headers[run].key)
    requires run in s.headers ==>
               (|PhasesOf(s, s.headers[run].key)| >= 3
                 || PhasesOf(s', s.headers[run].key) == PhasesOf(s, s.headers[run].key))
    requires run in s.headers ==> PlanOf(s', s.headers[run].key) == PlanOf(s, s.headers[run].key)
    ensures FlightOk(s', run, f)
  {
    if run in s.headers {
      assert PlanOf(s', s.headers[run].key).Some? <==> s.headers[run].key in s'.plans;
    }
  }

  // ----- the system -----

  /** The store, and the submissions running in the one process that serves it. */
  datatype System = System(store: Store, flights: map<string, Flight>)

  datatype Event =
    | Begin(run: string, agent: string, candidate: string, digest: string)
    | Advance(run: string, input: Input)
    | Crash
    | TodoWrite(todos: map<string, Todo>, goalActive: bool, current: string)
    | Sweep(key: TurnKey, runs: seq<S.TurnRun>, mayClose: bool, allowAbsent: bool, cancelled: bool)
    | Project(key: TurnKey)

  function With(flights: map<string, Flight>, run: string, f: Option<Flight>): map<string, Flight> {
    if f.Some? then flights[run := f.value] else flights - {run}
  }

  ghost predicate Next(s: System, e: Event, s': System) {
    match e
    case Begin(run, agent, candidate, digest) =>
      // one submission of a Run at a time
      && run !in s.flights && s.store.goalActive && s.store.current in s.store.todos
      && s' == s.(flights := s.flights[run := Flight(agent, candidate, digest, Looked(s.store.current))])
    case Advance(run, input) =>
      && run in s.flights && PcOk(s.store, s.flights[run].at)
      && s'.store == StepOf(s.store, run, s.flights[run], input).0
      && s'.flights == With(s.flights, run, StepOf(s.store, run, s.flights[run], input).1)
    case Crash => s' == s.(flights := map[])
    case TodoWrite(todos, goalActive, current) =>
      // claims, pauses, other callers' turns: anything that never lowers a turn watermark
      && (forall t | t in s.store.todos :: t in todos && s.store.todos[t].lastTurn <= todos[t].lastTurn)
      && s' == s.(store := s.store.(todos := todos, goalActive := goalActive, current := current))
    case Sweep(key, runs, mayClose, allowAbsent, cancelled) =>
      && SettleTurn(s.store, key, runs, mayClose, allowAbsent, cancelled).Success?
      && s' == s.(store := SettleTurn(s.store, key, runs, mayClose, allowAbsent, cancelled).value)
    case Project(key) =>
      && AppendPhase(s.store, key, Projection).Success?
      && s' == s.(store := AppendPhase(s.store, key, Projection).value)
  }

  ghost predicate Inv(s: System) {
    StoreOk(s.store) && forall r | r in s.flights :: FlightOk(s.store, r, s.flights[r])
  }

  ghost predicate Initial(s: System) {
    && s.flights == map[]
    && s.store.headers == map[] && s.store.receipts == map[] && s.store.plans == map[]
    && s.store.book == Q.Book([], map[], [])
  }

  lemma {:induction false} InitialInv(s: System)
    requires Initial(s)
    ensures Inv(s)
  {
  }

  /** A submission's transaction keeps the store, and its own flight, in order. */
  lemma {:induction false} AdmissionStepKeeps(s: Store, run: string, f: Flight, in_: Input)
    requires StoreOk(s) && FlightOk(s, run, f) && f.at.Looked?
    ensures StoreOk(StepOf(s, run, f, in_).0)
    ensures StepOf(s, run, f, in_).1.Some? ==> FlightOk(StepOf(s, run, f, in_).0, run, StepOf(s, run, f, in_).1.value)
  {
    hide TurnOk, Q.Sound, Q.ReserveKinds, Q.Opened;
    var todo := f.at.todo;
    var r := EnsureAdmission(s, run, f.agent, todo, f.digest, in_.quotaAllowed);
    if r.Success? {
      if run in s.headers {
        hide Readmit;
        ReadmitKeeps(s, run, f.agent, todo, f.digest);
        assert HeaderOk(s, run);
      } else {
        var claimed := ClaimFor(s.todos[todo], f.agent).value;
        assert r.value == Started(s, run, todo, claimed, f.digest);
        StartedKeeps(s, run, todo, claimed, f.digest);
      }
    }
  }

  lemma {:induction false} RetryAside(s: Store, r: Option<string>, run: string)
    requires StoreOk(s) && run in s.headers
    ensures StoreOk(s.(retry := r)) && Local(s, s.(retry := r), s.headers[run].key)
  {
    hide TurnOk, Q.Sound, KeysOk, QuotaClosed;
    assert HeaderOk(s, run);
    LocalKeeps(s, s.(retry := r), run);
  }

  /** The transactions after admission stay within the Run's own turn. */
  ghost predicate StepKept(s: Store, run: string, key: TurnKey, r: (Store, Option<Flight>)) {
    StoreOk(r.0) && Local(s, r.0, key) && (r.1.Some? ==> FlightOk(r.0, run, r.1.value))
  }

  lemma {:induction false} AdmittedStepKeeps(s: Store, run: string, f: Flight, key: TurnKey)
    requires StoreOk(s) && Owns(s, run, f, key) && key.todo in s.todos
    ensures StepKept(s, run, key, AfterAdmission(s, run, f, key))
  {
    hide StoreOk, Local, TurnOk;
    assert TurnOk(run, s.headers[run], PhasesOf(s, key), PlanOf(s, key)) by { OwnTurnOk(s, run); }
    NothingIsLocal(s, key);
    var phase := Decode(f.candidate, run, f.digest);
    if AppendPhase(s, key, phase).Success? {
      AppendKeeps(s, run, phase);
      AppendIsLocal(s, key, phase);
      LocalTodos(s, AppendPhase(s, key, phase).value, key);
      DecodeStays(PhasesOf(s, key), PhasesOf(AppendPhase(s, key, phase).value, key));
    }
  }

  lemma {:induction false} OwnTurnOk(s: Store, run: string)
    requires StoreOk(s) && run in s.headers
    ensures s.headers[run].key in s.receipts && s.headers[run].key.todo in s.todos
    ensures TurnOk(run, s.headers[run], PhasesOf(s, s.headers[run].key), PlanOf(s, s.headers[run].key))
  {
    assert HeaderOk(s, run);
  }

  lemma {:induction false} LocalTodos(s: Store, s': Store, key: TurnKey)
    requires Local(s, s', key)
    ensures s'.todos.Keys == s.todos.Keys && s'.headers == s.headers
  {
  }

  /** Appending the first phase does not settle a turn. */
  lemma {:induction false} DecodeStays(phases: seq<Phase>, phases': seq<Phase>)
    requires phases <= phases' && |phases'| <= (if |phases| == 0 then 1 else |phases|)
    ensures Invalidated(phases') <==> Invalidated(phases)
    ensures Rejected(phases') <==> Rejected(phases)
  {
  }

  lemma {:induction false} DecodedStepKeeps(s: Store, run: string, f: Flight, in_: Input)
    requires StoreOk(s) && FlightOk(s, run, f) && f.at.Decoded?
    ensures StepKept(s, run, f.at.key, StepOf(s, run, f, in_))
  {
    hide StoreOk, Local, TurnOk;
    var key := f.at.key;
    NothingIsLocal(s, key);
    OwnTurnOk(s, run);
    RetryAside(s, Some(run), run);
    var phase := Validation(in_.compile == Accepted, if in_.compile == Accepted then f.digest else "");
    if AppendPhase(s, key, phase).Success? {
      AppendKeeps(s, run, phase);
      AppendIsLocal(s, key, phase);
      LocalTodos(s, AppendPhase(s, key, phase).value, key);
    }
  }

  lemma {:induction false} ValidatedStepKeeps(s: Store, run: string, f: Flight, in_: Input)
    requires StoreOk(s) && FlightOk(s, run, f) && f.at.Validated?
    ensures StepKept(s, run, f.at.key, StepOf(s, run, f, in_))
  {
    hide StoreOk, Local, TurnOk, ValidTurn;
    var key := f.at.key;
    NothingIsLocal(s, key);
    RetryAside(s, Some(run), run);
    if key !in s.plans { AcceptKeeps(s, run, Plan(run, f.agent, f.digest)); }
  }

  lemma {:induction false} ClosingStepKeeps(s: Store, run: string, f: Flight, in_: Input)
    requires StoreOk(s) && FlightOk(s, run, f) && (f.at.Rejecting? || f.at.Blocking?)
    ensures StepKept(s, run, f.at.key, StepOf(s, run, f, in_))
  {
    hide StoreOk, Local, TurnOk, SettleFailure, TransitionTodoTurn;
    var key := f.at.key;
    NothingIsLocal(s, key);
    if f.at.Rejecting? {
      if SettleFailure(s, key, run, f.digest, in_.terminal, in_.facts).Success? {
        SettleKeeps(s, run, in_.terminal, in_.facts);
      }
    } else if TransitionTodoTurn(s, key, Blocked).Success? {
      TransitionKeeps(s, run, Blocked);
    }
  }

  lemma {:induction false} FinishingStepKeeps(s: Store, run: string, f: Flight, in_: Input)
    requires StoreOk(s) && FlightOk(s, run, f) && f.at.Finishing?
    ensures StepKept(s, run, f.at.key, StepOf(s, run, f, in_))
  {
    hide StoreOk, Local, TransitionTodoTurn, QuotaPhase;
    var key := f.at.key;
    if f.at.step < 3 {
      WritingStepKeeps(s, run, f, in_);
    } else {
      NothingIsLocal(s, key);
      RetryAside(s, None, run);
      if QuotaPhase(s, key, in_.turnRuns, in_.mayClose).Success? {
        QuotaPhaseKeeps(s, run, in_.turnRuns, in_.mayClose);
      }
      if TransitionTodoTurn(s, key, Waiting).Success? { TransitionKeeps(s, run, Waiting); }
    }
  }

  /** Phases 3, 4 and 5. */
  lemma {:induction false} WritingStepKeeps(s: Store, run: string, f: Flight, in_: Input)
    requires StoreOk(s) && FlightOk(s, run, f) && f.at.Finishing? && f.at.step < 3
    ensures StepKept(s, run, f.at.key, StepOf(s, run, f, in_))
  {
    hide StoreOk, Local;
    var key, plan := f.at.key, s.plans[f.at.key];
    NothingIsLocal(s, key);
    OwnTurnOk(s, run);
    var phase := match f.at.step
      case 0 => Writeback(true, plan.run, plan.digest)
      case 1 => PlanCompile(plan.digest, in_.runs)
      case _ => Dispatch(in_.dispatch, in_.runs);
    if AppendPhase(s, key, phase).Success? {
      FittingAppend(s, run, phase);
    }
  }

  lemma {:induction false} QuotaPhaseKeeps(s: Store, run: string, runs: seq<S.TurnRun>, mayClose: bool)
    requires StoreOk(s) && run in s.headers && s.headers[run].key in s.plans
    requires QuotaPhase(s, s.headers[run].key, runs, mayClose).Success?
    ensures var s' := QuotaPhase(s, s.headers[run].key, runs, mayClose).value;
            StoreOk(s') && Local(s, s', s.headers[run].key) && SameButQuota(s, s', s.headers[run].key)
  {
    hide StoreOk, Local, SettleTurn;
    var key := s.headers[run].key;
    NothingIsLocal(s, key);
    OwnTurnOk(s, run);
    if Q.AnyRow(s.book, key) {
      if |PhasesOf(s, key)| < 6 { UsageKeeps(s, run, runs, mayClose, true, false); }
    } else if AppendPhase(s, key, QuotaSpend).Success? {
      NoRowsClosed(s.book, key);
      AppendKeeps(s, run, QuotaSpend);
      AppendIsLocal(s, key, QuotaSpend);
    }
  }

  lemma {:induction false} NoRowsClosed(b: Q.Book, key: TurnKey)
    requires !Q.AnyRow(b, key)
    ensures QuotaClosed(b, key)
  {
    forall k | k in b.rows && k.0 == key
      ensures false
    {
      Q.RowMeansAny(b, k);
    }
  }

  /** The phases a committed turn appends fit it. */
  lemma {:induction false} FittingAppend(s: Store, run: string, phase: Phase)
    requires StoreOk(s) && run in s.headers && s.headers[run].key in s.plans
    requires !phase.Decode? && !phase.Validation? && !phase.QuotaSpend?
              && (phase.Writeback? ==> phase == Writeback(true, run, s.headers[run].digest))
    requires AppendPhase(s, s.headers[run].key, phase).Success?
    ensures StoreOk(AppendPhase(s, s.headers[run].key, phase).value)
    ensures Local(s, AppendPhase(s, s.headers[run].key, phase).value, s.headers[run].key)
    ensures AppendPhase(s, s.headers[run].key, phase).value.plans == s.plans
    ensures AppendPhase(s, s.headers[run].key, phase).value.todos == s.todos
    ensures AppendPhase(s, s.headers[run].key, phase).value.headers == s.headers
    ensures |PhasesOf(AppendPhase(s, s.headers[run].key, phase).value, s.headers[run].key)| >= phase.Number()
    ensures |PhasesOf(AppendPhase(s, s.headers[run].key, phase).value, s.headers[run].key)|
            >= |PhasesOf(s, s.headers[run].key)|
  {
    hide StoreOk, Local;
    OwnTurnOk(s, run);
    AppendKeeps(s, run, phase);
    AppendIsLocal(s, s.headers[run].key, phase);
  }

  lemma {:induction false} LaterStepKeeps(s: Store, run: string, f: Flight, in_: Input, key: TurnKey)
    requires StoreOk(s) && FlightOk(s, run, f) && !f.at.Looked? && Owns(s, run, f, key)
    ensures StepKept(s, run, key, StepOf(s, run, f, in_))
  {
    hide StoreOk, Local, StepKept, StepOf;
    match f.at
    case Admitted(_) => AdmittedStepKeeps(s, run, f, key); AdmittedStepIs(s, run, f, in_, key);
    case Decoded(_) => DecodedStepKeeps(s, run, f, in_);
    case Validated(_) => ValidatedStepKeeps(s, run, f, in_);
    case Rejecting(_) => ClosingStepKeeps(s, run, f, in_);
    case Blocking(_) => ClosingStepKeeps(s, run, f, in_);
    case Finishing(_, _) => FinishingStepKeeps(s, run, f, in_);
  }

  lemma {:induction false} AdmittedStepIs(s: Store, run: string, f: Flight, in_: Input, key: TurnKey)
    requires PcOk(s, f.at) && f.at == Admitted(key)
    ensures StepOf(s, run, f, in_) == AfterAdmission(s, run, f, key)
  {
  }

  /** The turn a flight works on, once admitted. */
  lemma {:induction false} FlightOwns(s: Store, run: string, f: Flight)
    requires FlightOk(s, run, f) && !f.at.Looked?
    ensures Owns(s, run, f, f.at.key) && PcOk(s, f.at)
  {
  }

  lemma {:induction false} AdvanceKeepsOthers(s: Store, run: string, f: Flight, in_: Input, other: string, g: Flight)
    requires StoreOk(s) && FlightOk(s, run, f) && FlightOk(s, other, g) && other != run
    ensures FlightOk(StepOf(s, run, f, in_).0, other, g)
  {
    hide StepOf, FlightOk, HeaderOk, Q.Sound, KeysOk;
    if !f.at.Looked? {
      FlightOwns(s, run, f);
      var key := f.at.key;
      LaterStepKeeps(s, run, f, in_, key);
      if other in s.headers { KeysDiffer(s, other, run); }
      LocalKeepsFlight(s, StepOf(s, run, f, in_).0, key, other, g);
    } else {
      LookedKeepsOthers(s, run, f, in_, other, g);
    }
  }

  lemma {:induction false} LookedKeepsOthers(s: Store, run: string, f: Flight, in_: Input, other: string, g: Flight)
    requires StoreOk(s) && FlightOk(s, run, f) && FlightOk(s, other, g) && other != run && f.at.Looked?
    ensures FlightOk(StepOf(s, run, f, in_).0, other, g)
  {
    hide HeaderOk, Q.Sound, KeysOk, Readmit, Q.ReserveKinds, Q.Opened;
    var todo := f.at.todo;
    var r := EnsureAdmission(s, run, f.agent, todo, f.digest, in_.quotaAllowed);
    if r.Success? {
      if run in s.headers {
        ReadmitKeeps(s, run, f.agent, todo, f.digest);
        if other in s.headers { KeysDiffer(s, other, run); }
        LocalKeepsFlight(s, r.value, s.headers[run].key, other, g);
      } else {
        StartedKeepsFlight(s, run, todo, ClaimFor(s.todos[todo], f.agent).value, f.digest, other, g);
      }
    }
  }

  lemma {:induction false} AdvanceKeepsInv(s: System, run: string, in_: Input, s': System)
    requires Inv(s) && Next(s, Advance(run, in_), s')
    ensures Inv(s')
  {
    hide StepOf, FlightOk, StoreOk, PcOk;
    var f := s.flights[run];
    assert FlightOk(s.store, run, f);
    if f.at.Looked? {
      AdmissionStepKeeps(s.store, run, f, in_);
    } else {
      FlightOwns(s.store, run, f);
      LaterStepKeeps(s.store, run, f, in_, f.at.key);
    }
    forall r | r in s'.flights
      ensures FlightOk(s'.store, r, s'.flights[r])
    {
      if r != run { AdvanceKeepsOthers(s.store, run, f, in_, r, s.flights[r]); }
    }
  }

  lemma {:induction false} TodoWriteKeeps(s: Store, todos: map<string, Todo>, goalActive: bool, current: string)
    requires StoreOk(s)
    requires forall t | t in s.todos :: t in todos && s.todos[t].lastTurn <= todos[t].lastTurn
    ensures StoreOk(s.(todos := todos, goalActive := goalActive, current := current))
  {
    hide TurnOk, Q.Sound;
    var s' := s.(todos := todos, goalActive := goalActive, current := current);
    forall r | r in s'.headers
      ensures HeaderOk(s', r)
    {
      assert HeaderOk(s, r) && PlanOf(s', s.headers[r].key) == PlanOf(s, s.headers[r].key);
    }
  }

  lemma {:induction false} ProjectKeeps(s: Store, key: TurnKey, run: string)
    requires StoreOk(s) && run in s.headers && s.headers[run].key == key
    requires AppendPhase(s, key, Projection).Success?
    ensures StoreOk(AppendPhase(s, key, Projection).value) && Local(s, AppendPhase(s, key, Projection).value, key)
    ensures |PhasesOf(s, key)| >= 6 && PhasesOf(s, key) <= PhasesOf(AppendPhase(s, key, Projection).value, key)
  {
    hide StoreOk, Local;
    OwnTurnOk(s, run);
    AppendKeeps(s, run, Projection);
    AppendIsLocal(s, key, Projection);
  }

  lemma {:induction false} EventKeepsInv(s: System, e: Event, s': System)
    requires Inv(s) && Next(s, e, s')
    ensures Inv(s')
  {
    hide StoreOk, StepOf, AppendPhase, SettleTurn;
    match e
    case Begin(_, _, _, _) =>
    case Advance(run, input) => AdvanceKeepsInv(s, run, input, s');
    case Crash =>
    case TodoWrite(todos, goalActive, current) =>
      TodoWriteKeeps(s.store, todos, goalActive, current);
      forall r | r in s'.flights
        ensures FlightOk(s'.store, r, s'.flights[r])
      {
        SameTurn(s.store, s'.store, r, s.flights[r]);
      }
    case Sweep(key, runs, mayClose, allowAbsent, cancelled) =>
      if s' != s {
        var run := SettledHeader(s.store, key, runs, mayClose, allowAbsent, cancelled);
        UsageKeeps(s.store, run, runs, mayClose, allowAbsent, cancelled);
        LocalKeepsFlights(s, s', key, run);
      }
    case Project(key) =>
      AppendedKey(s.store, key, Projection);
      var run := HeaderOf(s.store, key);
      ProjectKeeps(s.store, key, run);
      AppendIsLocal(s.store, key, Projection);
      LocalKeepsFlights(s, s', key, run);
  }

  lemma {:induction false} HeaderOf(s: Store, key: TurnKey) returns (run: string)
    requires StoreOk(s) && key in s.receipts
    ensures run in s.headers && s.headers[run].key == key
  {
    run :| run in s.headers && s.headers[run].key == key;
  }

  lemma {:induction false} AppendedKey(s: Store, key: TurnKey, phase: Phase)
    requires AppendPhase(s, key, phase).Success?
    ensures key in s.receipts
  {
  }

  /** Only an admitted turn has something to settle. */
  lemma {:induction false} SettledHeader(s: Store, key: TurnKey, runs: seq<S.TurnRun>, mayClose: bool,
      allowAbsent: bool, cancelled: bool) returns (run: string)
    requires StoreOk(s) && SettleTurn(s, key, runs, mayClose, allowAbsent, cancelled).Success?
    requires SettleTurn(s, key, runs, mayClose, allowAbsent, cancelled) != Success(s)
    ensures run in s.headers && s.headers[run].key == key
  {
    hide HeaderOk, AppendPhase, S.SpendRuns, S.MissingOf, Q.CloseKinds;
    assert Q.AnyRow(s.book, key);
    var i :| 0 <= i < |Q.USAGE_KINDS| && (key, Q.USAGE_KINDS[i]) in s.book.rows;
    assert Q.RowSound(s.book, (key, Q.USAGE_KINDS[i]));
    run := HeaderOf(s, key);
  }

  /** A step within one Run's turn keeps every flight in order. */
  lemma {:induction false} LocalKeepsFlights(s: System, s': System, key: TurnKey, run: string)
    requires Inv(s) && s'.flights == s.flights && Local(s.store, s'.store, key)
    requires run in s.store.headers && s.store.headers[run].key == key
    requires s'.store.plans == s.store.plans && PhasesOf(s.store, key) <= PhasesOf(s'.store, key)
    requires |PhasesOf(s.store, key)| >= 3 || PhasesOf(s'.store, key) == PhasesOf(s.store, key)
    ensures forall r | r in s'.flights :: FlightOk(s'.store, r, s'.flights[r])
  {
    hide FlightOk, HeaderOk, Q.Sound, KeysOk;
    forall r | r in s'.flights
      ensures FlightOk(s'.store, r, s'.flights[r])
    {
      assert FlightOk(s.store, r, s.flights[r]);
      if r == run {
        SameTurn(s.store, s'.store, r, s.flights[r]);
      } else {
        if r in s.store.headers { KeysDiffer(s.store, r, run); }
        LocalKeepsFlight(s.store, s'.store, key, r, s.flights[r]);
      }
    }
  }

  // ----- results over whole runs -----

  ghost predicate Behavior(states: seq<System>, events: seq<Event>) {
    && |states| == |events| + 1 && Initial(states[0])
    && forall i | 0 <= i < |events| :: Next(states[i], events[i], states[i + 1])
  }

  /**
    Under crashes at any boundary, any number of resubmissions and any
    interleaving of Runs: the phases of a turn are a prefix of 1..7 carrying one
    decision; it has at most one Plan; phase 3 says "committed" only with that
    Plan and "rejected" only without one, with every reservation closed.
   */
  lemma {:induction false} TurnsStaySafe(states: seq<System>, events: seq<Event>)
    requires Behavior(states, events)
    ensures Inv(states[|events|])
  {
    hide Next, Inv, Initial;
    var n := |events|;
    if n == 0 {
      InitialInv(states[0]);
    } else {
      TurnsStaySafe(states[..n], events[..n - 1]);
      EventKeepsInv(states[n - 1], events[n - 1], states[n]);
    }
  }

  /** What a reader of a single receipt may rely on. */
  ghost predicate ReceiptTells(s: Store, run: string, h: Header, phases: seq<Phase>) {
    && |phases| <= 7 && Numbered(phases)
    && (|phases| >= 3 ==> (phases[2] == Writeback(true, run, h.digest) <==> h.key in s.plans))
    && (|phases| >= 4 ==> h.key in s.plans)
    && (h.key in s.plans ==> s.plans[h.key].run == run && s.plans[h.key].digest == h.digest)
    && (Rejected(phases) ==> h.key !in s.plans)
    && (Accounted(phases) ==> forall k | k in s.book.rows && k.0 == h.key ::
          s.book.rows[k].committed + s.book.rows[k].released == s.book.rows[k].reserved)
  }

  lemma {:induction false} ReceiptMeans(s: System, run: string)
    requires Inv(s) && run in s.store.headers
    ensures ReceiptTells(s.store, run, s.store.headers[run], PhasesOf(s.store, s.store.headers[run].key))
    ensures forall q | q in s.store.headers && q != run :: s.store.headers[q].key != s.store.headers[run].key
  {
    hide FlightOk, HeaderOk, Q.Sound;
    var h, phases := s.store.headers[run], PhasesOf(s.store, s.store.headers[run].key);
    OwnTurnOk(s.store, run);
    AtMostSeven(phases);
    if Accounted(phases) { ClosedBalances(s.store, run); }
  }

  lemma {:induction false} AtMostSeven(phases: seq<Phase>)
    requires Numbered(phases)
    ensures |phases| <= 7
  {
    if phases != [] { assert phases[|phases| - 1].Number() == |phases|; }
  }

  lemma {:induction false} ClosedBalances(s: Store, run: string)
    requires StoreOk(s) && run in s.headers && Accounted(PhasesOf(s, s.headers[run].key))
    ensures forall k | k in s.book.rows && k.0 == s.headers[run].key ::
              s.book.rows[k].committed + s.book.rows[k].released == s.book.rows[k].reserved
  {
    hide TurnOk, KeysOk;
    assert HeaderOk(s, run);
    forall k | k in s.book.rows && k.0 == s.headers[run].key
      ensures s.book.rows[k].committed + s.book.rows[k].released == s.book.rows[k].reserved
    {
      assert Q.RowSound(s.book, k);
    }
  }

  /** Nothing durable is ever taken back: headers, phases and Plans only accumulate. */
  ghost predicate Extends(s: Store, s': Store) {
    && (forall r | r in s.headers :: r in s'.headers && s'.headers[r] == s.headers[r])
    && (forall k | k in s.receipts :: k in s'.receipts && s.receipts[k] <= s'.receipts[k])
    && (forall k | k in s.plans :: k in s'.plans && s'.plans[k] == s.plans[k])
  }

  lemma {:induction false} AppendExtends(s: Store, key: TurnKey, phase: Phase)
    requires AppendPhase(s, key, phase).Success?
    ensures Extends(s, AppendPhase(s, key, phase).value)
  {
  }

  lemma {:induction false} SameExtends(s: Store)
    ensures forall s': Store | s'.headers == s.headers && s'.receipts == s.receipts
              && s'.plans == s.plans :: Extends(s, s')
  {
  }

  lemma {:induction false} StepExtends(s: Store, run: string, f: Flight, in_: Input)
    requires StoreOk(s) && FlightOk(s, run, f)
    ensures Extends(s, StepOf(s, run, f, in_).0)
  {
    hide StoreOk, Extends, Q.ReserveTurn, Q.Abort, QuotaPhase;
    SameExtends(s);
    match f.at
    case Looked(todo) => if run !in s.headers { AdmitExtends(s, run, f, in_); }
    case Admitted(key) => AppendsExtend(s, key, Decode(f.candidate, run, f.digest));
    case Decoded(key) =>
      AppendsExtend(s, key, Validation(true, f.digest));
      AppendsExtend(s, key, Validation(false, ""));
    case Validated(key) => AcceptExtends(s, key, Plan(run, f.agent, f.digest));
    case Rejecting(key) => SettleExtends(s, run, key, f.digest, in_);
    case Blocking(key) =>
    case Finishing(key, step) =>
      AppendsExtend(s, key, Writeback(true, s.plans[key].run, s.plans[key].digest));
      AppendsExtend(s, key, PlanCompile(s.plans[key].digest, in_.runs));
      AppendsExtend(s, key, Dispatch(in_.dispatch, in_.runs));
      QuotaPhaseExtends(s, key, in_.turnRuns, in_.mayClose);
  }

  lemma {:induction false} SettleTurnExtends(s: Store, key: TurnKey, runs: seq<S.TurnRun>, mayClose: bool,
      allowAbsent: bool, cancelled: bool)
    ensures SettleTurn(s, key, runs, mayClose, allowAbsent, cancelled).Success? ==>
              Extends(s, SettleTurn(s, key, runs, mayClose, allowAbsent, cancelled).value)
  {
    hide S.Settle;
  }

  lemma {:induction false} QuotaPhaseExtends(s: Store, key: TurnKey, runs: seq<S.TurnRun>, mayClose: bool)
    ensures QuotaPhase(s, key, runs, mayClose).Success? ==> Extends(s, QuotaPhase(s, key, runs, mayClose).value)
  {
    hide SettleTurn;
    SettleTurnExtends(s, key, runs, mayClose, true, false);
  }

  lemma {:induction false} AppendsExtend(s: Store, key: TurnKey, phase: Phase)
    ensures AppendPhase(s, key, phase).Success? ==> Extends(s, AppendPhase(s, key, phase).value)
  {
  }

  lemma {:induction false} AcceptExtends(s: Store, key: TurnKey, plan: Plan)
    ensures key !in s.plans ==> Extends(s, s.(plans := s.plans[key := plan]))
  {
  }

  lemma {:induction false} AdmitExtends(s: Store, run: string, f: Flight, in_: Input)
    requires StoreOk(s) && FlightOk(s, run, f) && f.at.Looked? && run !in s.headers
    ensures Extends(s, StepOf(s, run, f, in_).0)
  {
    hide HeaderOk, Q.Sound, Q.ReserveTurn;
    NewKeyIsFresh(s, f.at.todo);
  }

  lemma {:induction false} SettleExtends(s: Store, run: string, key: TurnKey, digest: string, in_: Input)
    requires key.todo in s.todos
    ensures SettleFailure(s, key, run, digest, in_.terminal, in_.facts).Success? ==>
              Extends(s, SettleFailure(s, key, run, digest, in_.terminal, in_.facts).value)
  {
    hide Q.Abort;
  }

  lemma {:induction false} EventExtends(s: System, e: Event, s': System)
    requires Inv(s) && Next(s, e, s')
    ensures Extends(s.store, s'.store)
  {
    hide StoreOk, StepOf, AppendPhase, SettleTurn;
    match e
    case Advance(run, input) => StepExtends(s.store, run, s.flights[run], input);
    case Sweep(key, runs, mayClose, allowAbsent, cancelled) =>
      SettleTurnExtends(s.store, key, runs, mayClose, allowAbsent, cancelled);
    case Project(key) => AppendExtends(s.store, key, Projection);
    case _ =>
  }

  lemma {:induction false} NothingTakenBack(states: seq<System>, events: seq<Event>, i: nat)
    requires Behavior(states, events) && i <= |events|
    ensures Extends(states[i].store, states[|events|].store)
  {
    hide Next, Inv, Initial;
    var n := |events|;
    if i == n {
      SameExtends(states[n].store);
    } else {
      NothingTakenBack(states[..n], events[..n - 1], i);
      TurnsStaySafe(states[..n], events[..n - 1]);
      EventExtends(states[n - 1], events[n - 1], states[n]);
    }
  }

  lemma {:induction false} OtherDecisionRefused(s: Store, run: string, f: Flight, in_: Input)
    requires run in s.headers && f.at.Looked? && f.at.todo in s.todos && f.digest != s.headers[run].digest
    ensures StepOf(s, run, f, in_) == (s, None)
  {
  }

  /** A submission that got past its first step carries the admitted decision. */
  lemma {:induction false} FlightsCarryTheDecision(s: System, run: string)
    requires Inv(s) && run in s.flights && !s.flights[run].at.Looked?
    ensures run in s.store.headers && s.store.headers[run].digest == s.flights[run].digest
  {
    hide StoreOk;
    FlightOwns(s.store, run, s.flights[run]);
  }

  /** Once a Run's decision is admitted, a submission of a different one changes nothing at any later point and ends. */
  lemma {:induction false} OtherDecisionChangesNothing(
    states: seq<System>, events: seq<Event>, i: nat, j: nat, run: string, in_: Input)
    requires Behavior(states, events) && i <= j < |events| && events[j] == Advance(run, in_)
    requires run in states[i].store.headers && run in states[j].flights
    requires states[j].flights[run].digest != states[i].store.headers[run].digest
    ensures states[j + 1].store == states[j].store && run !in states[j + 1].flights
  {
    hide StoreOk, StepOf, Initial;
    assert Behavior(states[..j + 1], events[..j]);
    assert Next(states[j], events[j], states[j + 1]);
    NothingTakenBack(states[..j + 1], events[..j], i);
    TurnsStaySafe(states[..j + 1], events[..j]);
    var s, f := states[j], states[j].flights[run];
    if !f.at.Looked? { FlightsCarryTheDecision(s, run); }
    OtherDecisionRefused(s.store, run, f, in_);
  }

  /** Every admission takes the next number of its Todo, and no other step moves it. */
  lemma {:induction false} TurnNumbersAreConsecutive(s: System, run: string, in_: Input, s': System, todo: string)
    requires Inv(s) && Next(s, Advance(run, in_), s') && todo in s.store.todos
    ensures todo in s'.store.todos
    ensures s'.store.todos[todo].lastTurn == s.store.todos[todo].lastTurn +
              (if run !in s.store.headers && run in s'.store.headers
                && s'.store.headers[run].key.todo == todo then 1 else 0)
    ensures run !in s.store.headers && run in s'.store.headers && s'.store.headers[run].key.todo == todo ==>
              s'.store.headers[run].key.number == s'.store.todos[todo].lastTurn
                && s'.store.todos[todo].status == Running
  {
    hide HeaderOk, Q.Sound, KeysOk, Q.ReserveTurn, Q.Abort;
    var f := s.flights[run];
    assert FlightOk(s.store, run, f);
    if !f.at.Looked? {
      FlightOwns(s.store, run, f);
      LaterStepKeeps(s.store, run, f, in_, f.at.key);
    }
  }

  lemma {:induction false} OlderTurnRefused(s: Store, key: TurnKey, to: TodoStatus)
    requires key.todo in s.todos && key.number < s.todos[key.todo].lastTurn
    ensures TransitionTodoTurn(s, key, to) == Success(s)
  {
  }

  lemma {:induction false} WatermarkStays(s: System, e: Event, s': System, todo: string)
    requires Inv(s) && Next(s, e, s') && todo in s.store.todos
    ensures todo in s'.store.todos && s.store.todos[todo].lastTurn <= s'.store.todos[todo].lastTurn
  {
    hide Inv, StepOf;
    if e.Advance? {
      TurnNumbersAreConsecutive(s, e.run, e.input, s', todo);
    }
  }

  /** Once a Todo has a newer turn, settling an older one changes nothing at any later point. */
  lemma {:induction false} OlderTurnsDoNotMoveTheTodo(
    states: seq<System>, events: seq<Event>, i: nat, key: TurnKey, to: TodoStatus)
    requires Behavior(states, events) && i <= |events|
    requires key.todo in states[i].store.todos && key.number < states[i].store.todos[key.todo].lastTurn
    ensures key.todo in states[|events|].store.todos
    ensures states[i].store.todos[key.todo].lastTurn <= states[|events|].store.todos[key.todo].lastTurn
    ensures TransitionTodoTurn(states[|events|].store, key, to) == Success(states[|events|].store)
  {
    hide Next, Inv, Initial, TransitionTodoTurn;
    var n := |events|;
    if i < n {
      OlderTurnsDoNotMoveTheTodo(states[..n], events[..n - 1], i, key, to);
      TurnsStaySafe(states[..n], events[..n - 1]);
      WatermarkStays(states[n - 1], events[n - 1], states[n], key.todo);
    }
    OlderTurnRefused(states[n].store, key, to);
  }

  // ----- replay -----

  /** A submission run for a number of transactions, then cut. */
  function Submit(s: Store, run: string, f: Option<Flight>, in_: Input, steps: nat): (Store, Option<Flight>)
    decreases steps
  {
    if f.None? || steps == 0 || !PcOk(s, f.value.at) then (s, f)
    else
      var next := StepOf(s, run, f.value, in_);
      Submit(next.0, run, next.1, in_, steps - 1)
  }

  /** The receipt already agrees with what a replay would write about the dispatched Plan. */
  predicate NoDrift(phases: seq<Phase>, plan: Plan, in_: Input) {
    && (|phases| >= 4 ==> phases[3] == PlanCompile(plan.digest, in_.runs))
    && (|phases| >= 5 ==> phases[4] == Dispatch(in_.dispatch, in_.runs))
  }

  /**
    The turn's usage cannot be settled: it has reservations and no phase 6, and a
    Run that has ended cannot be frozen or comes too late for a closed reservation,
    or one that never reported stands in the way of a closing that is due.
   */
  ghost predicate SettlementRefuses(book: Q.Book, key: TurnKey, phases: seq<Phase>, in_: Input) {
    && |phases| < 6 && Q.AnyRow(book, key)
    && exists r :: r in in_.turnRuns &&
         (|| S.Stops(book, key, r)
          || (S.ReachesClosing(book, key, in_.turnRuns, in_.mayClose, true) && S.StopsClosing(book, key, r)))
  }

  function At(f: Flight, pc: Pc): Option<Flight> {
    Some(f.(at := pc))
  }

  /** The Todo still shows the turn as its running one. */
  predicate RunningTurn(s: Store, key: TurnKey) {
    key.todo in s.todos && s.todos[key.todo].status == Running && s.todos[key.todo].lastTurn == key.number
  }

  /** The turn's Plan is committed and dispatched, and the Todo waits for its Runs. */
  predicate TurnDone(s: Store, key: TurnKey) {
    key.todo in s.todos && s.todos[key.todo].status == Waiting && key in s.plans && |PhasesOf(s, key)| >= 5
  }

  /** One appended phase, seen from the turn it belongs to. */
  lemma {:induction false} AppendOutcome(s: Store, key: TurnKey, phase: Phase)
    requires key in s.receipts && Numbered(s.receipts[key])
    requires phase.Number() <= |s.receipts[key]| + 1
    ensures AppendPhase(s, key, phase).Success? <==>
              phase.Number() == |s.receipts[key]| + 1 || s.receipts[key][phase.Number() - 1] == phase
    ensures AppendPhase(s, key, phase).Success? ==>
              AppendPhase(s, key, phase).value == s.(receipts := s.receipts[key :=
                if phase.Number() == |s.receipts[key]| + 1 then s.receipts[key] + [phase] else s.receipts[key]])
  {
  }

  lemma {:induction false} QuotaPhaseExactly(s: Store, key: TurnKey, in_: Input)
    requires key in s.receipts && Numbered(s.receipts[key]) && |s.receipts[key]| >= 5
    requires Q.Sound(s.book) && S.Distinct(in_.turnRuns)
    ensures QuotaPhase(s, key, in_.turnRuns, in_.mayClose).Failure? <==>
              SettlementRefuses(s.book, key, s.receipts[key], in_)
    ensures QuotaPhase(s, key, in_.turnRuns, in_.mayClose).Success? ==>
              SameButQuota(s, QuotaPhase(s, key, in_.turnRuns, in_.mayClose).value, key)
  {
    hide Q.Sound, S.Distinct, S.Settle, S.Stops, S.StopsClosing, S.ReachesClosing, Q.AnyRow, S.FullyRecorded;
    S.SettlesExactly(s.book, key, in_.turnRuns, in_.mayClose, true);
    NoRowsNothingSettled(s.book, key, in_);
  }

  lemma {:induction false} NoRowsNothingSettled(b: Q.Book, key: TurnKey, in_: Input)
    ensures !Q.AnyRow(b, key) ==> S.Settle(b, key, in_.turnRuns, in_.mayClose, true) == S.StillOpen(b)
  {
  }

  /** From the committed Plan on, the rest goes through exactly when receipt and settlement agree. */
  lemma {:induction false} FinishesExactly(s: Store, run: string, f: Flight, key: TurnKey, in_: Input)
    requires key in s.receipts && key in s.plans && RunningTurn(s, key)
    requires Numbered(s.receipts[key]) && |s.receipts[key]| >= 3
    requires Q.Sound(s.book) && S.Distinct(in_.turnRuns)
    ensures RunningTurn(Submit(s, run, At(f, Finishing(key, 1)), in_, 5).0, key) <==>
              || !NoDrift(s.receipts[key], s.plans[key], in_)
              || SettlementRefuses(s.book, key, s.receipts[key], in_)
    ensures Submit(s, run, At(f, Finishing(key, 1)), in_, 5).1.None?
    ensures NoDrift(s.receipts[key], s.plans[key], in_) && !SettlementRefuses(s.book, key, s.receipts[key], in_) ==>
              TurnDone(Submit(s, run, At(f, Finishing(key, 1)), in_, 5).0, key)
  {
    hide Submit, AppendPhase, Q.Sound, S.Distinct, Q.AnyRow, S.ReachesClosing;
    var compile := PlanCompile(s.plans[key].digest, in_.runs);
    SubmitOne(s, run, f, Finishing(key, 1), in_, 4);
    AppendOutcome(s, key, compile);
    if AppendPhase(s, key, compile).Success? {
      FinishesFromDispatch(AppendPhase(s, key, compile).value, run, f, key, in_);
    }
  }

  lemma {:induction false} FinishesFromDispatch(s: Store, run: string, f: Flight, key: TurnKey, in_: Input)
    requires key in s.receipts && key in s.plans && RunningTurn(s, key)
    requires Numbered(s.receipts[key]) && |s.receipts[key]| >= 4
    requires Q.Sound(s.book) && S.Distinct(in_.turnRuns)
    ensures RunningTurn(Submit(s, run, At(f, Finishing(key, 2)), in_, 4).0, key) <==>
              || !(|s.receipts[key]| >= 5 ==> s.receipts[key][4] == Dispatch(in_.dispatch, in_.runs))
              || SettlementRefuses(s.book, key, s.receipts[key], in_)
    ensures Submit(s, run, At(f, Finishing(key, 2)), in_, 4).1.None?
    ensures (|s.receipts[key]| >= 5 ==> s.receipts[key][4] == Dispatch(in_.dispatch, in_.runs))
              && !SettlementRefuses(s.book, key, s.receipts[key], in_) ==>
              TurnDone(Submit(s, run, At(f, Finishing(key, 2)), in_, 4).0, key)
  {
    hide Submit, AppendPhase, Q.Sound, S.Distinct, Q.AnyRow, S.ReachesClosing;
    var dispatch := Dispatch(in_.dispatch, in_.runs);
    SubmitOne(s, run, f, Finishing(key, 2), in_, 3);
    AppendOutcome(s, key, dispatch);
    if AppendPhase(s, key, dispatch).Success? {
      FinishesFromQuota(AppendPhase(s, key, dispatch).value, run, f, key, in_);
    }
  }

  lemma {:induction false} FinishesFromQuota(s: Store, run: string, f: Flight, key: TurnKey, in_: Input)
    requires key in s.receipts && key in s.plans && RunningTurn(s, key)
    requires Numbered(s.receipts[key]) && |s.receipts[key]| >= 5
    requires Q.Sound(s.book) && S.Distinct(in_.turnRuns)
    ensures Submit(s, run, At(f, Finishing(key, 3)), in_, 3).1.None?
    ensures RunningTurn(Submit(s, run, At(f, Finishing(key, 3)), in_, 3).0, key) <==>
              SettlementRefuses(s.book, key, s.receipts[key], in_)
    ensures !SettlementRefuses(s.book, key, s.receipts[key], in_) ==>
              TurnDone(Submit(s, run, At(f, Finishing(key, 3)), in_, 3).0, key)
  {
    hide Submit, QuotaPhase, Q.Sound, S.Distinct, SettlementRefuses;
    SubmitOne(s, run, f, Finishing(key, 3), in_, 2);
    QuotaPhaseExactly(s, key, in_);
    if QuotaPhase(s, key, in_.turnRuns, in_.mayClose).Success? {
      var next := QuotaPhase(s, key, in_.turnRuns, in_.mayClose).value;
      SubmitOne(next, run, f, Finishing(key, 4), in_, 1);
      SubmitOne(next.(retry := None), run, f, Finishing(key, 5), in_, 0);
    }
  }

  lemma {:induction false} SubmitOne(s: Store, run: string, f: Flight, pc: Pc, in_: Input, rest: nat)
    requires PcOk(s, pc)
    ensures Submit(s, run, At(f, pc), in_, rest + 1) ==
            Submit(StepOf(s, run, f.(at := pc), in_).0, run, StepOf(s, run, f.(at := pc), in_).1, in_, rest)
    ensures StepOf(s, run, f.(at := pc), in_).1.None? ==>
              Submit(s, run, At(f, pc), in_, rest + 1) == StepOf(s, run, f.(at := pc), in_)
  {
  }

  /** A turn whose submission was cut anywhere and may be replayed by its own Run. */
  predicate Replayable(s: Store, run: string, f: Flight) {
    && run in s.headers && s.headers[run] == Header(s.headers[run].key, f.digest)
    && var key := s.headers[run].key;
       && f.at == Looked(key.todo) && key in s.receipts && RunningTurn(s, key)
       && s.goalActive && s.current == key.todo
       && (key !in s.plans ==> s.todos[key.todo].claim == Some(Claim(f.agent, true)))
       && !Invalidated(s.receipts[key]) && !Rejected(s.receipts[key])
       && (key in s.plans ==> s.plans[key].agent == f.agent)
       && (key !in s.plans && |s.receipts[key]| >= 1 ==> s.receipts[key][0] == Decode(f.candidate, run, f.digest))
  }

  /** Transactions a replay needs to reach its Plan, and the store it finds there. */
  function StepsToPlan(s: Store, run: string): nat
    requires run in s.headers
  {
    if s.headers[run].key in s.plans then 2 else 4
  }

  function PlanStore(s: Store, run: string, f: Flight): Store
    requires run in s.headers && s.headers[run].key in s.receipts
  {
    if s.headers[run].key in s.plans then s else CommittedFrom(s, run, f, s.headers[run].key)
  }

  /** The replay reaches the Plan, committing it if that had not happened yet. */
  lemma {:induction false} ReplayReachesPlan(s: Store, run: string, f: Flight, in_: Input)
    requires StoreOk(s) && Replayable(s, run, f) && in_.compile == Accepted && in_.submit == Accepted
    ensures Submit(s, run, Some(f), in_, StepsToPlan(s, run)) ==
            (PlanStore(s, run, f), At(f, Finishing(s.headers[run].key, 0)))
  {
    hide StoreOk, Submit, Q.ReserveTurn, TurnOk;
    var key := s.headers[run].key;
    OwnTurnOk(s, run);
    ReplayAdmits(s, run, f, in_);
    assert f.(at := f.at) == f;
    if key in s.plans {
      TurnPlanMatches(s, run, f);
      SubmitOne(s, run, f, f.at, in_, 1);
      SubmitOne(s, run, f, Admitted(key), in_, 0);
      SubmitNone(s, run, At(f, Finishing(key, 0)), in_);
    } else {
      ReplayCommits(s, run, f, in_, key);
      SubmitOne(s, run, f, f.at, in_, 3);
    }
  }

  lemma {:induction false} SubmitNone(s: Store, run: string, f: Option<Flight>, in_: Input)
    ensures Submit(s, run, f, in_, 0) == (s, f)
  {
  }

  lemma {:induction false} TurnPlanMatches(s: Store, run: string, f: Flight)
    requires StoreOk(s) && run in s.headers && s.headers[run].digest == f.digest && s.headers[run].key in s.plans
    requires s.plans[s.headers[run].key].agent == f.agent
    ensures PlanMatches(s.plans[s.headers[run].key], run, f)
    ensures |PhasesOf(s, s.headers[run].key)| >= 2 && PhasesOf(s, s.headers[run].key)[0].digest == f.digest
    ensures PhasesOf(s, s.headers[run].key)[0].Decode?
  {
    hide StoreOk;
    OwnTurnOk(s, run);
  }

  lemma {:induction false} ReplayAdmits(s: Store, run: string, f: Flight, in_: Input)
    requires StoreOk(s) && Replayable(s, run, f)
    ensures StepOf(s, run, f, in_) == (s, At(f, Admitted(s.headers[run].key)))
  {
    hide TurnOk, Q.Sound, KeysOk, QuotaClosed;
    var key := s.headers[run].key;
    assert HeaderOk(s, run);
    Q.ReserveAgain(s.book, key, s.policies);
    assert Q.ReserveTurn(s.book, key, s.policies) == s.book;
  }

  /** The first two phases, completed as far as they were missing, and the Plan. */
  function CommittedFrom(s: Store, run: string, f: Flight, key: TurnKey): Store
    requires key in s.receipts
  {
    var phases := [Decode(f.candidate, run, f.digest), Validation(true, f.digest)];
    s.(receipts := s.receipts[key := phases], plans := s.plans[key := Plan(run, f.agent, f.digest)])
  }

  lemma {:induction false} ReplayCommits(s: Store, run: string, f: Flight, in_: Input, key: TurnKey)
    requires StoreOk(s) && Replayable(s, run, f) && key == s.headers[run].key && key !in s.plans
    requires in_.compile == Accepted && in_.submit == Accepted
    ensures Submit(s, run, At(f, Admitted(key)), in_, 3) == (CommittedFrom(s, run, f, key), At(f, Finishing(key, 0)))
  {
    hide StoreOk, Submit, AppendPhase;
    OwnTurnOk(s, run);
    var decode, valid := Decode(f.candidate, run, f.digest), Validation(true, f.digest);
    var phases := s.receipts[key];
    SubmitOne(s, run, f, Admitted(key), in_, 2);
    AppendOutcome(s, key, decode);
    var s1 := AppendPhase(s, key, decode).value;
    SubmitOne(s1, run, f, Decoded(key), in_, 1);
    AppendOutcome(s1, key, valid);
    var s2 := AppendPhase(s1, key, valid).value;
    SubmitOne(s2, run, f, Validated(key), in_, 0);
    assert s2.receipts[key] == [decode, valid];
    assert s2.(plans := s2.plans[key := Plan(run, f.agent, f.digest)]) == CommittedFrom(s, run, f, key);
    SubmitNone(CommittedFrom(s, run, f, key), run, At(f, Finishing(key, 0)), in_);
  }

  lemma {:induction false} SubmitSplit(s: Store, run: string, f: Option<Flight>, in_: Input, a: nat, b: nat)
    ensures Submit(s, run, f, in_, a + b) ==
            Submit(Submit(s, run, f, in_, a).0, run, Submit(s, run, f, in_, a).1, in_, b)
    decreases a
  {
    hide StepOf;
    if f.None? || a == 0 || !PcOk(s, f.value.at) {
    } else {
      var next := StepOf(s, run, f.value, in_);
      SubmitSplit(next.0, run, next.1, in_, a - 1, b);
    }
  }

  lemma {:induction false} OverIsOver(s: Store, run: string, in_: Input, b: nat)
    ensures Submit(s, run, None, in_, b) == (s, None)
  {
  }

  /** The store once a replay has also written phase 3. */
  function WrittenBack(s: Store, key: TurnKey): Store
    requires key in s.plans && key in s.receipts
  {
    if |s.receipts[key]| >= 3 then s
    else s.(receipts := s.receipts[key := s.receipts[key] + [Writeback(true, s.plans[key].run, s.plans[key].digest)]])
  }

  lemma {:induction false} WritebackStep(s: Store, run: string, f: Flight, in_: Input)
    requires StoreOk(s) && Replayable(s, run, f)
    ensures s.headers[run].key in PlanStore(s, run, f).plans && s.headers[run].key in PlanStore(s, run, f).receipts
    ensures StepOf(PlanStore(s, run, f), run, f.(at := Finishing(s.headers[run].key, 0)), in_) ==
            (WrittenBack(PlanStore(s, run, f), s.headers[run].key), At(f, Finishing(s.headers[run].key, 1)))
    ensures PlanStore(s, run, f).plans[s.headers[run].key] == Plan(run, f.agent, f.digest)
    ensures Numbered(WrittenBack(PlanStore(s, run, f), s.headers[run].key).receipts[s.headers[run].key])
    ensures |WrittenBack(PlanStore(s, run, f), s.headers[run].key).receipts[s.headers[run].key]| >= 3
    ensures WrittenBack(PlanStore(s, run, f), s.headers[run].key).receipts[s.headers[run].key][2]
              == Writeback(true, run, f.digest)
    ensures NoDrift(WrittenBack(PlanStore(s, run, f), s.headers[run].key).receipts[s.headers[run].key],
              Plan(run, f.agent, f.digest), in_)
            <==> NoDrift(s.receipts[s.headers[run].key], Plan(run, f.agent, f.digest), in_)
  {
    hide StoreOk;
    OwnTurnOk(s, run);
    var key, p := s.headers[run].key, PlanStore(s, run, f);
    if key in s.plans { TurnPlanMatches(s, run, f); }
  }

  /** What a replay writes up to phase 3 does not bear on the settlement. */
  lemma {:induction false} SameSettlement(s: Store, run: string, f: Flight, in_: Input)
    requires StoreOk(s) && Replayable(s, run, f)
    ensures var key, w := s.headers[run].key, WrittenBack(PlanStore(s, run, f), s.headers[run].key);
            && w.book == s.book && key in s.receipts && key in w.receipts
            && (SettlementRefuses(w.book, key, w.receipts[key], in_) <==>
                SettlementRefuses(s.book, key, s.receipts[key], in_))
  {
    hide StoreOk;
    OwnTurnOk(s, run);
  }

  /**
    A turn cut at any boundary is brought to its end by resubmitting the same
    decision exactly when the phases already written about its Plan's dispatch
    are the ones that would be written now and the settlement of its usage is
    not refused; the Plan itself is there either way.
   */
  lemma {:induction false} ReplayCompletesExactly(s: Store, run: string, f: Flight, in_: Input, steps: nat)
    requires StoreOk(s) && Replayable(s, run, f) && in_.compile == Accepted && in_.submit == Accepted
    requires steps >= StepsToPlan(s, run) + 6 && S.Distinct(in_.turnRuns)
    ensures Submit(s, run, Some(f), in_, steps).1.None?
    ensures RunningTurn(Submit(s, run, Some(f), in_, steps).0, s.headers[run].key) <==>
              || !NoDrift(s.receipts[s.headers[run].key], Plan(run, f.agent, f.digest), in_)
              || SettlementRefuses(s.book, s.headers[run].key, s.receipts[s.headers[run].key], in_)
    ensures NoDrift(s.receipts[s.headers[run].key], Plan(run, f.agent, f.digest), in_)
              && !SettlementRefuses(s.book, s.headers[run].key, s.receipts[s.headers[run].key], in_) ==>
              TurnDone(Submit(s, run, Some(f), in_, steps).0, s.headers[run].key)
  {
    hide StoreOk, Submit, NoDrift, StepOf, Numbered, SettlementRefuses, S.Distinct, Q.Sound;
    var key, n := s.headers[run].key, StepsToPlan(s, run);
    var p := PlanStore(s, run, f);
    ReplayReachesPlan(s, run, f, in_);
    WritebackStep(s, run, f, in_);
    var w := WrittenBack(p, key);
    SubmitSplit(s, run, Some(f), in_, n, steps - n);
    SubmitOne(p, run, f, Finishing(key, 0), in_, steps - n - 1);
    BookIsSound(s);
    SameSettlement(s, run, f, in_);
    SubmitSplit(w, run, At(f, Finishing(key, 1)), in_, 5, steps - n - 6);
    FinishesExactly(w, run, f, key, in_);
    OverIsOver(Submit(w, run, At(f, Finishing(key, 1)), in_, 5).0, run, in_, steps - n - 6);
  }

  // ----- a replay that cannot end -----

  const EXAMPLE_TURN := Q.TurnKey("todo", 1)

  const EXAMPLE_POLICY := Q.Policy(Q.CanonicalUsage.Output, 100)

  /** The submitting Run is the turn's only one so far; its cost exceeds int64. */
  function ExampleRuns(): seq<S.TurnRun> {
    [S.TurnRun("run_1", S.EvidenceOf(S.OVERFLOWING_RUN, None))]
  }

  /** Everything is accepted; the dispatched Run has or has not failed to start. */
  function ExampleInput(dispatch: string): Input {
    Input(Accepted, Accepted, true, true, ExampleRuns(), true, false, None, 1, dispatch)
  }

  function ExampleFlight(): Flight { Flight("agent_1", "decision", "digest", Looked("todo")) }

  /** A first submission's phases up to the dispatched Plan. */
  function ExamplePhases(): seq<Phase> {
    [Decode("decision", "run_1", "digest"), Validation(true, "digest"), Writeback(true, "run_1", "digest"),
     PlanCompile("digest", 1), Dispatch("committed", 1)]
  }

  function ExampleStart(): Store {
    Store(true, "todo", map["todo" := Todo(Pending, None, 0)], map[], map[], map[], Q.Book([], map[], []),
          [EXAMPLE_POLICY], None)
  }

  function ExampleBook(): Q.Book {
    Q.Book([EXAMPLE_TURN], map[(EXAMPLE_TURN, Q.CanonicalUsage.Output) := Q.Row(Q.Reserved, 100, 0, 0)], [])
  }

  /** The store of the admitted turn with its first n phases, and from the submission on its Plan. */
  function ExampleStore(n: nat, submitted: bool): Store
    requires n <= 5
  {
    Store(true, "todo", map["todo" := Todo(Running, Some(Claim("agent_1", true)), 1)],
          map["run_1" := Header(EXAMPLE_TURN, "digest")], map[EXAMPLE_TURN := ExamplePhases()[..n]],
          if submitted then map[EXAMPLE_TURN := Plan("run_1", "agent_1", "digest")] else map[],
          ExampleBook(), [EXAMPLE_POLICY], None)
  }

  lemma {:induction false} ExampleReserves()
    ensures Q.ReserveTurn(Q.Book([], map[], []), EXAMPLE_TURN, [EXAMPLE_POLICY]) == ExampleBook()
    ensures Q.ReserveTurn(ExampleBook(), EXAMPLE_TURN, [EXAMPLE_POLICY]) == ExampleBook()
  {
    var output, started := Q.CanonicalUsage.Output, Q.Book([EXAMPLE_TURN], map[], []);
    assert Q.Opened(Q.Book([], map[], []), EXAMPLE_TURN) == started;
    assert started.turns[..0] == [];
    assert Q.Active([], started.rows, output) == 0 && Q.ActiveIn(started.rows, EXAMPLE_TURN, output) == 0;
    assert Q.Active(started.turns, started.rows, output) == 0;
    assert Q.Used(started, output) == 0;
    assert started.rows[(EXAMPLE_TURN, output) := Q.Row(Q.Reserved, 100, 0, 0)] == ExampleBook().rows;
    assert Q.ReserveKind(started, EXAMPLE_TURN, EXAMPLE_POLICY) == ExampleBook();
    assert [EXAMPLE_POLICY][0] == EXAMPLE_POLICY && [EXAMPLE_POLICY][1..] == [];
    assert Q.ReserveKinds(started, EXAMPLE_TURN, [EXAMPLE_POLICY]) == Q.ReserveKinds(ExampleBook(), EXAMPLE_TURN, []);
    assert Q.ReserveKind(ExampleBook(), EXAMPLE_TURN, EXAMPLE_POLICY) == ExampleBook();
  }

  lemma {:induction false} ExampleAdmits(dispatch: string)
    ensures StepOf(ExampleStart(), "run_1", ExampleFlight(), ExampleInput(dispatch)) ==
            (ExampleStore(0, false), At(ExampleFlight(), Admitted(EXAMPLE_TURN)))
  {
    var s := ExampleStart();
    var claimed := Todo(Running, Some(Claim("agent_1", true)), 1);
    ExampleReserves();
    assert s.headers["run_1" := Header(EXAMPLE_TURN, "digest")] == map["run_1" := Header(EXAMPLE_TURN, "digest")];
    assert ExamplePhases()[..0] == [];
    assert s.receipts[EXAMPLE_TURN := []] == map[EXAMPLE_TURN := ExamplePhases()[..0]];
    assert s.todos["todo" := claimed] == map["todo" := claimed];
    assert Admit(s, "run_1", "agent_1", "todo", "digest", true) == Success(ExampleStore(0, false));
  }

  lemma {:induction false} ExampleAppends(n: nat, submitted: bool)
    requires n < 5
    ensures AppendPhase(ExampleStore(n, submitted), EXAMPLE_TURN, ExamplePhases()[n])
              == Success(ExampleStore(n + 1, submitted))
  {
    assert ExamplePhases()[..n] + [ExamplePhases()[n]] == ExamplePhases()[..n + 1];
    assert ExamplePhases()[n].Number() == n + 1;
    var s := ExampleStore(n, submitted);
    assert PhasesOf(s, EXAMPLE_TURN) == ExamplePhases()[..n];
    assert s.receipts[EXAMPLE_TURN := ExamplePhases()[..n + 1]] == map[EXAMPLE_TURN := ExamplePhases()[..n + 1]];
  }

  /** The first submission, step by step up to the recorded dispatch. */
  function ExampleAt(k: nat): (Store, Pc)
    requires k <= 7
  {
    match k
    case 0 => (ExampleStart(), Looked("todo"))
    case 1 => (ExampleStore(0, false), Admitted(EXAMPLE_TURN))
    case 2 => (ExampleStore(1, false), Decoded(EXAMPLE_TURN))
    case 3 => (ExampleStore(2, false), Validated(EXAMPLE_TURN))
    case 4 => (ExampleStore(2, true), Finishing(EXAMPLE_TURN, 0))
    case 5 => (ExampleStore(3, true), Finishing(EXAMPLE_TURN, 1))
    case 6 => (ExampleStore(4, true), Finishing(EXAMPLE_TURN, 2))
    case _ => (ExampleStore(5, true), Finishing(EXAMPLE_TURN, 3))
  }

  lemma {:induction false} ExampleStep(k: nat)
    requires k < 7
    ensures PcOk(ExampleAt(k).0, ExampleAt(k).1)
    ensures StepOf(ExampleAt(k).0, "run_1", ExampleFlight().(at := ExampleAt(k).1), ExampleInput("committed")) ==
            (ExampleAt(k + 1).0, At(ExampleFlight(), ExampleAt(k + 1).1))
  {
    hide AppendPhase, QuotaPhase, ExampleRuns, Admit, Readmit;
    match k
    case 0 => ExampleAdmits("committed");
    case 1 => ExampleAppends(0, false);
    case 2 => ExampleAppends(1, false);
    case 3 => ExampleSubmits();
    case 4 => ExampleAppends(2, true);
    case 5 => ExampleAppends(3, true);
    case _ => ExampleAppends(4, true);
  }

  lemma {:induction false} ExamplePlays(k: nat)
    requires k <= 7
    ensures Submit(ExampleAt(k).0, "run_1", At(ExampleFlight(), ExampleAt(k).1), ExampleInput("committed"), 7 - k) ==
            (ExampleAt(7).0, At(ExampleFlight(), ExampleAt(7).1))
    decreases 7 - k
  {
    hide ExampleAt, StepOf, Submit, ExampleInput, ExampleFlight;
    var f, in_ := ExampleFlight(), ExampleInput("committed");
    if k == 7 {
      SubmitNone(ExampleAt(7).0, "run_1", At(f, ExampleAt(7).1), in_);
    } else {
      ExampleStep(k);
      SubmitOne(ExampleAt(k).0, "run_1", f, ExampleAt(k).1, in_, 6 - k);
      ExamplePlays(k + 1);
    }
  }

  /** The first submission is cut right after it recorded the dispatch. */
  lemma {:induction false} ExampleIsCut()
    ensures Submit(ExampleStart(), "run_1", Some(ExampleFlight()), ExampleInput("committed"), 7) ==
            (ExampleStore(5, true), At(ExampleFlight(), Finishing(EXAMPLE_TURN, 3)))
  {
    hide Submit, ExampleStore, ExampleStart, ExampleInput;
    ExamplePlays(0);
    assert ExampleFlight().(at := Looked("todo")) == ExampleFlight();
  }

  lemma {:induction false} ExampleSubmits()
    ensures ExampleStore(2, false).(plans := ExampleStore(2,
              false).plans[EXAMPLE_TURN := Plan("run_1", "agent_1", "digest")])
            == ExampleStore(2, true)
  {
  }

  /**
    Cut after the dispatch was recorded, the dispatched Run then fails to start: a
    resubmission of the same decision, however long it runs, leaves the turn running.
   */
  lemma {:induction false} DriftExample(steps: nat)
    requires steps >= 5
    ensures Initial(System(ExampleStart(), map[]))
    ensures Submit(ExampleStart(), "run_1", Some(ExampleFlight()), ExampleInput("committed"), 7).0
              == ExampleStore(5, true)
    ensures Submit(ExampleStore(5, true), "run_1", Some(ExampleFlight()), ExampleInput("failed"), steps)
              == (ExampleStore(5, true), None)
    ensures RunningTurn(ExampleStore(5, true), EXAMPLE_TURN)
  {
    ExampleIsCut();
    ExampleFinishing("failed");
    DriftRefuses();
    hide StepOf, Submit, ExampleStore, ExampleFlight, AppendPhase, ExampleInput, ReachesDispatch;
    DriftEnds(ExampleStore(5, true), ExampleFlight(), ExampleInput("failed"), steps);
  }

  /** A resubmission that meets its dispatched Plan gets as far as phase 5. */
  ghost predicate ReachesDispatch(s: Store, f: Flight, in_: Input) {
    && PcOk(s, f.at) && f.at == Looked("todo") && EXAMPLE_TURN.todo in s.todos && EXAMPLE_TURN in s.plans
    && StepOf(s, "run_1", f, in_) == (s, At(f, Admitted(EXAMPLE_TURN)))
    && StepOf(s, "run_1", f.(at := Admitted(EXAMPLE_TURN)), in_) == (s, At(f, Finishing(EXAMPLE_TURN, 0)))
    && StepOf(s, "run_1", f.(at := Finishing(EXAMPLE_TURN, 0)), in_) == (s, At(f, Finishing(EXAMPLE_TURN, 1)))
    && StepOf(s, "run_1", f.(at := Finishing(EXAMPLE_TURN, 1)), in_) == (s, At(f, Finishing(EXAMPLE_TURN, 2)))
  }

  lemma {:induction false} ExampleFinishing(dispatch: string)
    ensures ReachesDispatch(ExampleStore(5, true), ExampleFlight(), ExampleInput(dispatch))
    ensures RunningTurn(ExampleStore(5, true), EXAMPLE_TURN)
  {
    var s := ExampleStore(5, true);
    hide ExampleRuns, QuotaPhase, Q.ReserveTurn, ExampleBook;
    assert PhasesOf(s, EXAMPLE_TURN) == ExamplePhases();
    ExampleReserves();
    ExampleKept(s);
    hide AppendPhase, AppendWriteback;
  }

  lemma {:induction false} ExampleKept(s: Store)
    requires PhasesOf(s, EXAMPLE_TURN) == ExamplePhases()
    ensures AppendPhase(s, EXAMPLE_TURN, PlanCompile("digest", 1)) == Success(s)
    ensures AppendWriteback(s, EXAMPLE_TURN, Plan("run_1", "agent_1", "digest")) == Success(s)
  {
  }

  lemma {:induction false} DriftRefuses()
    ensures AppendPhase(ExampleStore(5, true), EXAMPLE_TURN,
              Dispatch(ExampleInput("failed").dispatch, ExampleInput("failed").runs)).Failure?
  {
    hide ExampleRuns;
    assert PhasesOf(ExampleStore(5, true), EXAMPLE_TURN) == ExamplePhases();
    assert "failed"[0] != "committed"[0];
  }

  lemma {:induction false} DriftEnds(s: Store, f: Flight, in_: Input, steps: nat)
    requires steps >= 5 && ReachesDispatch(s, f, in_)
    requires AppendPhase(s, EXAMPLE_TURN, Dispatch(in_.dispatch, in_.runs)).Failure?
    ensures Submit(s, "run_1", Some(f), in_, steps) == (s, None)
  {
    hide Submit, AppendPhase, StepOf;
    ResubmissionGets(s, f, in_, steps);
    DriftStops(s, f, in_, steps - 4);
  }

  lemma {:induction false} ResubmissionGets(s: Store, f: Flight, in_: Input, steps: nat)
    requires steps >= 4 && ReachesDispatch(s, f, in_)
    ensures Submit(s, "run_1", Some(f), in_, steps) ==
            Submit(s, "run_1", At(f, Finishing(EXAMPLE_TURN, 2)), in_, steps - 4)
  {
    hide StepOf, Submit;
    assert f.(at := Looked("todo")) == f;
    SubmitOne(s, "run_1", f, Looked("todo"), in_, steps - 1);
    SubmitOne(s, "run_1", f, Admitted(EXAMPLE_TURN), in_, steps - 2);
    SubmitOne(s, "run_1", f, Finishing(EXAMPLE_TURN, 0), in_, steps - 3);
    SubmitOne(s, "run_1", f, Finishing(EXAMPLE_TURN, 1), in_, steps - 4);
  }

  lemma {:induction false} DriftStops(s: Store, f: Flight, in_: Input, steps: nat)
    requires EXAMPLE_TURN.todo in s.todos && EXAMPLE_TURN in s.plans
    requires AppendPhase(s, EXAMPLE_TURN, Dispatch(in_.dispatch, in_.runs)).Failure?
    ensures Submit(s, "run_1", At(f, Finishing(EXAMPLE_TURN, 2)), in_, steps).0 == s
    ensures steps >= 1 ==> Submit(s, "run_1", At(f, Finishing(EXAMPLE_TURN, 2)), in_, steps) == (s, None)
  {
    hide AppendPhase;
    if steps >= 1 { SubmitOne(s, "run_1", f, Finishing(EXAMPLE_TURN, 2), in_, steps - 1); }
  }

  /** The cost of the submitting Run exceeds int64, so its turn's settlement is refused. */
  lemma {:induction false} ExampleRefuses(dispatch: string)
    ensures QuotaPhase(ExampleStore(5, true), EXAMPLE_TURN, ExampleInput(dispatch).turnRuns,
              ExampleInput(dispatch).mayClose).Failure?
  {
    var s := ExampleStore(5, true);
    S.OverflowExample(None);
    assert ExampleRuns()[0].evidence == S.Unfreezable;
    assert S.SpendRuns(s.book, EXAMPLE_TURN, ExampleRuns()) == S.Stopped;
    assert Q.USAGE_KINDS[4] == Q.CanonicalUsage.Output && (EXAMPLE_TURN, Q.USAGE_KINDS[4]) in s.book.rows;
    assert Q.AnyRow(s.book, EXAMPLE_TURN);
  }

  lemma {:induction false} RefusalStops(s: Store, f: Flight, in_: Input, steps: nat)
    requires EXAMPLE_TURN.todo in s.todos && EXAMPLE_TURN in s.plans && steps >= 1
    requires QuotaPhase(s, EXAMPLE_TURN, in_.turnRuns, in_.mayClose).Failure?
    ensures Submit(s, "run_1", At(f, Finishing(EXAMPLE_TURN, 3)), in_, steps) == (s, None)
  {
    hide QuotaPhase;
    SubmitOne(s, "run_1", f, Finishing(EXAMPLE_TURN, 3), in_, steps - 1);
  }

  lemma {:induction false} RefusedEnds(s: Store, f: Flight, in_: Input, steps: nat)
    requires steps >= 6 && ReachesDispatch(s, f, in_)
    requires AppendPhase(s, EXAMPLE_TURN, Dispatch(in_.dispatch, in_.runs)) == Success(s)
    requires QuotaPhase(s, EXAMPLE_TURN, in_.turnRuns, in_.mayClose).Failure?
    ensures Submit(s, "run_1", Some(f), in_, steps) == (s, None)
  {
    hide Submit, AppendPhase, QuotaPhase;
    ResubmissionGets(s, f, in_, steps);
    SubmitOne(s, "run_1", f, Finishing(EXAMPLE_TURN, 2), in_, steps - 5);
    RefusalStops(s, f, in_, steps - 5);
  }

  lemma {:induction false} DispatchStands()
    ensures AppendPhase(ExampleStore(5, true), EXAMPLE_TURN,
              Dispatch(ExampleInput("committed").dispatch, ExampleInput("committed").runs))
            == Success(ExampleStore(5, true))
  {
    hide ExampleRuns;
    assert PhasesOf(ExampleStore(5, true), EXAMPLE_TURN) == ExamplePhases();
  }

  lemma {:induction false} ReceiptStands()
    ensures NoDrift(ExamplePhases(), Plan("run_1", "agent_1", "digest"), ExampleInput("committed"))
  {
    hide ExampleRuns;
  }

  /**
    The submitting Run ended with a cost that exceeds int64: its submission goes as
    far as phase 5 and stops at the settlement, and so does every resubmission,
    although the receipt says what would be written now.
   */
  lemma {:induction false} RefusedExample(steps: nat)
    requires steps >= 6
    ensures Initial(System(ExampleStart(), map[]))
    ensures Submit(ExampleStart(), "run_1", Some(ExampleFlight()), ExampleInput("committed"), 7 + steps)
              == (ExampleStore(5, true), None)
    ensures Submit(ExampleStore(5, true), "run_1", Some(ExampleFlight()), ExampleInput("committed"), steps)
              == (ExampleStore(5, true), None)
    ensures RunningTurn(ExampleStore(5, true), EXAMPLE_TURN)
    ensures NoDrift(ExamplePhases(), Plan("run_1", "agent_1", "digest"), ExampleInput("committed"))
  {
    ExampleIsCut();
    ExampleFinishing("committed");
    ExampleRefuses("committed");
    DispatchStands();
    ReceiptStands();
    hide NoDrift, StepOf, Submit, ExampleStore, ExampleFlight, AppendPhase, QuotaPhase, ExampleInput;
    var s, f, in_ := ExampleStore(5, true), ExampleFlight(), ExampleInput("committed");
    SubmitSplit(ExampleStart(), "run_1", Some(f), in_, 7, steps);
    RefusalStops(s, f, in_, steps);
    RefusedEnds(s, f, in_, steps);
  }
}
